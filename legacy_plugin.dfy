/** The earlier form of the plugin (PluginMain.cs at the repository root): it writes the
    server's settings object directly instead of pushing a settings map, picks the
    *last* matching Java runtime, accepts only "-8-" for Java 8, and can be handed the
    enum's zero value by its web methods. The server-info queue is loaded after start-up
    (`PostInit`). */
module LegacyPlugin {
  import opened Common
  import opened Text
  import opened MinecraftVersions
  import opened ServerTypes
  import opened ServerInfoQueue

  /** A `MinecraftVersion` value as the earlier web methods can pass it: a declared member,
      or the value 0 that a failed `Enum.TryParse` leaves behind. */
  datatype VersionValue = Declared(version: MinecraftVersion) | Zero

  /** `minecraftVersion.ToString().Substring(1).Replace("_", ".")`; the zero value prints
      as "0", which leaves the empty text. */
  function VersionText(x: VersionValue): (mc: string)
    ensures x.Declared? ==> mc == McVersion(x.version)
    ensures x.Zero? ==> mc == ""
  {
    match x
    case Declared(v) => McVersion(v)
    case Zero => ""
  }

  /** The runtime the table assigns; the zero value falls into the table's default. */
  function RuntimeFor(x: VersionValue): JavaRuntime
  {
    match x
    case Declared(v) => JavaFor(v)
    case Zero => Java21
  }

  /** The server settings the earlier plugin writes. */
  datatype HostSettings = HostSettings(
    serverType: ServerType,
    forgeVersion: string,
    neoForgeVersion: string,
    javaVersion: string,
    levelName: string)

  /** What the earlier plugin reads from the host: the Forge and NeoForge version lists,
      the installed Java runtime keys (`None` when they cannot be listed), the paths that
      exist, and the plugin's "delete world folder" setting. */
  datatype Environment = Environment(
    forgeVersions: seq<VersionEntry>,
    neoForgeVersions: seq<VersionEntry>,
    javaVersions: Option<seq<string>>,
    paths: set<string>,
    delWorldFolder: bool)

  function EntriesFor(env: Environment, t: ServerType): seq<VersionEntry>
  {
    match t
    case Forge => env.forgeVersions
    case NeoForge => env.neoForgeVersions
    case OtherServerType(_) => []
  }

  /** The earlier key test: Java 8 is recognised by "-8-" only. */
  predicate LegacyRuntimeKey(rt: JavaRuntime, key: string)
  {
    if rt == Java8 then Contains(key, "-8-") else RuntimeKey(rt, key)
  }

  /** The index of the last runtime key that names `rt`: every match is assigned in turn,
      so the last one is what remains. */
  function LastRuntimeKey(keys: seq<string>, rt: JavaRuntime): (k: Option<nat>)
    ensures k.Some? ==> k.value < |keys| && LegacyRuntimeKey(rt, keys[k.value])
    ensures k.Some? ==> forall j :: k.value < j < |keys| ==> !LegacyRuntimeKey(rt, keys[j])
    ensures k.None? <==> forall j :: 0 <= j < |keys| ==> !LegacyRuntimeKey(rt, keys[j])
  {
    if keys == [] then None
    else if LegacyRuntimeKey(rt, keys[|keys| - 1]) then Some(|keys| - 1)
    else LastRuntimeKey(keys[..|keys| - 1], rt)
  }

  /** The Java runtime setting after `UpdateJavaVersion`: the last matching key, or the
      current value when nothing matches or the runtimes cannot be listed. */
  function JavaAfter(installed: Option<seq<string>>, rt: JavaRuntime, current: string): string
  {
    match installed
    case None => current
    case Some(keys) =>
      match LastRuntimeKey(keys, rt)
      case None => current
      case Some(k) => keys[k]
  }

  /** `ShouldUpdate` of the earlier plugin: as in the current one, with the zero value
      never in the Forge list. */
  function LegacyShouldUpdate(t: ServerType, checksLoader: bool, build: string, paths: set<string>): bool
  {
    match t
    case Forge => checksLoader && UnixArgsPath(t, build) !in paths
    case NeoForge => UnixArgsPath(t, build) !in paths
    case OtherServerType(_) => false
  }

  /** The earlier update decision agrees with the current `ShouldUpdate` for every declared
      release; for the zero value it starts an update only for NeoForge, when the build's
      `unix_args.txt` is missing. */
  lemma LegacyShouldUpdateCases(t: ServerType, x: VersionValue, build: string, paths: set<string>)
    ensures x.Declared? ==>
      LegacyShouldUpdate(t, ForgeChecksLoader(x.version), build, paths) == ShouldUpdate(t, x.version, build, paths)
    ensures LegacyShouldUpdate(t, x.Declared? && ForgeChecksLoader(x.version), build, paths) <==>
      ((t == Forge && x.Declared? && 1170 <= Value(x.version) <= 1202) || t == NeoForge)
      && UnixArgsPath(t, build) !in paths
  {
    if x.Declared? {
      ShouldUpdateCases(t, x.version, build, paths);
    }
  }

  /** Everything the earlier plugin changes: the server settings, the settings it saved,
      the world folders it deleted, how many updates it started, and the queue. */
  datatype PluginState = PluginState(
    settings: HostSettings,
    configSaves: seq<HostSettings>,
    deleted: seq<string>,
    updates: nat,
    queue: QueueState<LegacyInfo>)

  /** One queued request of the earlier plugin. */
  datatype LegacyInfo = LegacyInfo(serverType: ServerType, version: VersionValue, deleteWorld: bool)

  /** `SetServerInfo` of the earlier plugin. */
  function SetStep(st: PluginState, env: Environment, t: ServerType, x: VersionValue, deleteWorld: bool)
    : (PluginState, Outcome<ActionResult>)
  {
    Apply(st, env, t, VersionText(x), RuntimeFor(x),
          x.Declared? && ForgeChecksLoader(x.version), deleteWorld)
  }

  /** The same, for the release number `mc`, the runtime it needs and whether Forge checks
      for its loader. The NeoForge search cuts two characters off `mc` for every key it
      looks at, which raises when `mc` is shorter than that. */
  function Apply(st: PluginState, env: Environment, t: ServerType, mc: string, rt: JavaRuntime,
                 checksLoader: bool, deleteWorld: bool): (PluginState, Outcome<ActionResult>)
  {
    var entries := EntriesFor(env, t);
    if !(t == Forge || t == NeoForge) then (st, Returned(FailureReason(UnsupportedTypeReason)))
    else if t == NeoForge && |mc| < 2 && entries != [] then (st, Raised)
    else match FirstMatch(entries, t, mc)
      case None => (st, Returned(FailureReason(NoVersionInfoReason)))
      case Some(k) =>
        var build := entries[k].value;
        (Completed(st.(settings := Chosen(st.settings, t, build)), env, t, mc, rt, checksLoader, deleteWorld, build),
         Returned(Success))
  }

  /** The server type and the build written once the key for `build` is found. */
  function Chosen(s: HostSettings, t: ServerType, build: string): HostSettings
  {
    if t == Forge then s.(serverType := t, forgeVersion := build)
    else s.(serverType := t, neoForgeVersion := build)
  }

  /** The Java runtime and the world name written after the search. */
  function WithJavaAndWorld(s: HostSettings, installed: Option<seq<string>>, rt: JavaRuntime, mc: string)
    : HostSettings
  {
    var withJava := s.(javaVersion := JavaAfter(installed, rt, s.javaVersion));
    if EndsWith(withJava.levelName, mc) then withJava else withJava.(levelName := WorldName(mc))
  }

  /** What follows the search: the Java runtime, the world name, the world folder, the
      saved settings and the update. */
  function Completed(st: PluginState, env: Environment, t: ServerType, mc: string, rt: JavaRuntime,
                     checksLoader: bool, deleteWorld: bool, build: string): PluginState
  {
    var settings := WithJavaAndWorld(st.settings, env.javaVersions, rt, mc);
    var deleted := if (deleteWorld || env.delWorldFolder) && WorldName(mc) in env.paths
                   then st.deleted + [WorldName(mc)] else st.deleted;
    var update := LegacyShouldUpdate(t, checksLoader, build, env.paths);
    st.(settings := settings, configSaves := st.configSaves + [settings], deleted := deleted,
        updates := st.updates + (if update then 1 else 0))
  }

  /** A call that does not succeed leaves everything as it was; it raises exactly for
      NeoForge with a release text shorter than two characters and a non-empty NeoForge
      list. */
  lemma FailuresChangeNothing(st: PluginState, env: Environment, t: ServerType, mc: string,
                              rt: JavaRuntime, checksLoader: bool, deleteWorld: bool)
    ensures var (after, r) := Apply(st, env, t, mc, rt, checksLoader, deleteWorld);
      && (r != Returned(Success) ==> after == st)
      && (r.Raised? <==> t == NeoForge && |mc| < 2 && env.neoForgeVersions != [])
      && (r == Returned(FailureReason(NoVersionInfoReason)) ==>
            forall e :: e in EntriesFor(env, t) ==> !KeyMatches(t, e.key, mc))
  {
    var entries := EntriesFor(env, t);
    if (t == Forge || t == NeoForge) && FirstMatch(entries, t, mc).None? {
      assert forall e :: e in entries ==> exists j :: 0 <= j < |entries| && entries[j] == e;
    }
  }

  /** On success: the server type and the build of the first matching key are written and
      the other loader's build is left alone; an update is started exactly when
      `LegacyShouldUpdate` holds for that build; the world folder is deleted when that was
      asked for and it exists; the Java runtime becomes the last matching runtime key or stays as it was; the world
      name becomes "world_" and the release text unless it already ends with it; the
      written settings are saved once. */
  lemma SuccessWritesSettings(st: PluginState, env: Environment, t: ServerType, mc: string,
                              rt: JavaRuntime, checksLoader: bool, deleteWorld: bool)
    requires Apply(st, env, t, mc, rt, checksLoader, deleteWorld).1 == Returned(Success)
    ensures var after := Apply(st, env, t, mc, rt, checksLoader, deleteWorld).0;
      var entries := EntriesFor(env, t);
      && after.settings.serverType == t
      && (exists k :: 0 <= k < |entries| && KeyMatches(t, entries[k].key, mc)
            && (forall j :: 0 <= j < k ==> !KeyMatches(t, entries[j].key, mc))
            && (if t == Forge then after.settings.forgeVersion else after.settings.neoForgeVersion)
               == entries[k].value
            && after.updates
               == st.updates + (if LegacyShouldUpdate(t, checksLoader, entries[k].value, env.paths) then 1 else 0))
      && (if t == Forge then after.settings.neoForgeVersion == st.settings.neoForgeVersion
          else after.settings.forgeVersion == st.settings.forgeVersion)
      && after.deleted == st.deleted
           + (if (deleteWorld || env.delWorldFolder) && "world_" + mc in env.paths then ["world_" + mc] else [])
      && after.settings.javaVersion == JavaAfter(env.javaVersions, rt, st.settings.javaVersion)
      && (EndsWith(st.settings.levelName, mc) ==> after.settings.levelName == st.settings.levelName)
      && (!EndsWith(st.settings.levelName, mc) ==> after.settings.levelName == "world_" + mc)
      && after.configSaves == st.configSaves + [after.settings]
      && after.queue == st.queue
  {
    var entries := EntriesFor(env, t);
    var k := FirstMatch(entries, t, mc).value;
    assert KeyMatches(t, entries[k].key, mc);
    var build := entries[k].value;
    var chosen := st.(settings := Chosen(st.settings, t, build));
    assert Apply(st, env, t, mc, rt, checksLoader, deleteWorld).0
      == Completed(chosen, env, t, mc, rt, checksLoader, deleteWorld, build);
  }

  /** The zero value with NeoForge raises as soon as the NeoForge list has an entry; with
      Forge it is matched as the empty release text. */
  lemma ZeroVersion(st: PluginState, env: Environment, deleteWorld: bool)
    ensures SetStep(st, env, NeoForge, Zero, deleteWorld).1.Raised? <==> env.neoForgeVersions != []
    ensures env.neoForgeVersions == [] ==>
      SetStep(st, env, NeoForge, Zero, deleteWorld) == (st, Returned(FailureReason(NoVersionInfoReason)))
    ensures SetStep(st, env, Forge, Zero, deleteWorld) == Apply(st, env, Forge, "", Java21, false, deleteWorld)
  {
  }

  /** Whenever exactly one key names a runtime other than Java 8, the earlier plugin's
      last match and the current plugin's first match are the same key. */
  lemma UniqueMatchAgrees(keys: seq<string>, rt: JavaRuntime, i: nat)
    requires rt != Java8 && i < |keys| && RuntimeKey(rt, keys[i])
    requires forall j :: 0 <= j < |keys| && j != i ==> !RuntimeKey(rt, keys[j])
    ensures LastRuntimeKey(keys, rt) == Some(i) && FirstRuntimeKey(keys, rt) == Some(i)
  {
  }

  /** With two Java 17 runtimes installed, the earlier plugin takes the second. */
  lemma LegacyTakesLast()
    ensures JavaAfter(Some(["jdk-17-a", "jdk-17-b"]), Java17, "") == "jdk-17-b"
  {
    ContainsAt("jdk-17-b", "-17-");
    assert StartsWith("jdk-17-b"[3..], "-17-");
  }

  /** For the same runtimes the current plugin takes the first. */
  lemma CurrentTakesFirst()
    ensures JavaVersionFor(Some(["jdk-17-a", "jdk-17-b"]), V1_18) == Some("jdk-17-a")
  {
    assert JavaFor(V1_18) == Java17;
    ContainsAt("jdk-17-a", "-17-");
    assert StartsWith("jdk-17-a"[3..], "-17-");
  }

  /** A "-1.8-" runtime is not recognised for 1.14 by the earlier plugin, which keeps the
      current setting. */
  lemma DotEightIgnored(current: string)
    ensures JavaAfter(Some(["jre-1.8-x"]), RuntimeFor(Declared(V1_14)), current) == current
  {
    assert JavaFor(V1_14) == Java8;
    NotContainsDashEight();
  }

  /** The current plugin chooses the same runtime for 1.14. */
  lemma DotEightAccepted()
    ensures JavaVersionFor(Some(["jre-1.8-x"]), V1_14) == Some("jre-1.8-x")
  {
    assert JavaFor(V1_14) == Java8;
    ContainsAt("jre-1.8-x", "-1.8-");
    assert StartsWith("jre-1.8-x"[3..], "-1.8-");
  }

  lemma NotContainsDashEight()
    ensures !Contains("jre-1.8-x", "-8-")
  {
    var s := "jre-1.8-x";
    ContainsAt(s, "-8-");
    forall i | 0 <= i <= |s| ensures !StartsWith(s[i..], "-8-") {
      if i + 3 <= |s| {
        assert s[i..][0] == s[i] && s[i..][1] == s[i + 1];
      }
    }
  }

  /** `ProcessServerInfoQueue` of the earlier plugin. */
  function ProcessQueue(st: PluginState, env: Environment, writeError: Option<string>)
    : (PluginState, Outcome<ActionResult>)
  {
    if st.queue.queue == [] then (st, Returned(FailureReason(EmptyQueueReason)))
    else
      var head := st.queue.queue[0];
      var after := st.(queue := Dequeued(st.queue, writeError));
      if writeError.Some? then (after, Returned(FailureReason(QueueErrorPrefix + writeError.value)))
      else SetStep(after, env, head.serverType, head.version, head.deleteWorld)
  }

  /** Processing takes the head of the queue and applies it to the settings; an empty
      queue fails without any change. */
  lemma ProcessAppliesHead(st: PluginState, env: Environment, writeError: Option<string>)
    ensures st.queue.queue == [] ==>
      ProcessQueue(st, env, writeError) == (st, Returned(FailureReason(EmptyQueueReason)))
    ensures st.queue.queue != [] ==> ProcessQueue(st, env, writeError).0.queue.queue == st.queue.queue[1..]
    ensures st.queue.queue != [] && writeError.None? ==>
      var head := st.queue.queue[0];
      ProcessQueue(st, env, writeError)
        == SetStep(st.(queue := Dequeued(st.queue, None)), env, head.serverType, head.version, head.deleteWorld)
  {
  }

  /** The earlier plugin's server settings and queue. */
  class Plugin {
    var settings: HostSettings
    var configSaves: seq<HostSettings>
    var deleted: seq<string>
    var updates: nat
    var queue: seq<LegacyInfo>
    var queueSaves: seq<seq<LegacyInfo>>

    function State(): PluginState
      reads this
    {
      PluginState(settings, configSaves, deleted, updates, QueueState(queue, queueSaves))
    }

    /** The plugin starts with an empty queue; the queue file is read in `PostInit`. */
    constructor (initial: HostSettings)
      ensures settings == initial && configSaves == [] && deleted == [] && updates == 0
      ensures queue == [] && queueSaves == []
    {
      settings := initial;
      configSaves, deleted, updates := [], [], 0;
      queue, queueSaves := [], [];
    }

    /** `PostInit`: the requests in the queue file are appended; a missing or unreadable
        file appends none. */
    method PostInit(file: QueueFile<LegacyInfo>)
      modifies this`queue
      ensures queue == old(queue) + LoadQueue(file)
    {
      if file.QueueList? {
        queue := queue + file.infos;
      }
    }

    /** `UpdateJavaVersion`: every installed key that names the runtime is written in
        turn. */
    method UpdateJavaVersion(installed: Option<seq<string>>, x: VersionValue)
      modifies this`settings
      ensures settings == old(settings).(javaVersion := JavaAfter(installed, RuntimeFor(x), old(settings).javaVersion))
    {
      WriteRuntimeKeys(installed, RuntimeFor(x));
    }

    method WriteRuntimeKeys(installed: Option<seq<string>>, rt: JavaRuntime)
      modifies this`settings
      ensures settings == old(settings).(javaVersion := JavaAfter(installed, rt, old(settings).javaVersion))
    {
      if installed.None? {
        return;
      }
      var keys := installed.value;
      var i := 0;
      while i < |keys|
        invariant 0 <= i <= |keys|
        invariant settings == old(settings).(javaVersion := JavaAfter(Some(keys[..i]), rt, old(settings).javaVersion))
      {
        assert keys[..i + 1][..i] == keys[..i];
        if LegacyRuntimeKey(rt, keys[i]) {
          settings := settings.(javaVersion := keys[i]);
        }
        i := i + 1;
      }
      assert keys[..i] == keys;
    }

    /** `SetServerInfo` of the earlier plugin. */
    method SetServerInfo(env: Environment, t: ServerType, x: VersionValue, deleteWorld: bool)
      returns (r: Outcome<ActionResult>)
      modifies this`settings, this`configSaves, this`deleted, this`updates
      ensures (State(), r) == SetStep(old(State()), env, t, x, deleteWorld)
    {
      r := ApplyServerInfo(env, t, VersionText(x), RuntimeFor(x),
                           x.Declared? && ForgeChecksLoader(x.version), deleteWorld);
    }

    /** The body of `SetServerInfo` once the release text, the runtime and the Forge
        loader check have been derived from the version value. */
    method ApplyServerInfo(env: Environment, t: ServerType, mc: string, rt: JavaRuntime,
                           checksLoader: bool, deleteWorld: bool) returns (r: Outcome<ActionResult>)
      modifies this`settings, this`configSaves, this`deleted, this`updates
      ensures (State(), r) == Apply(old(State()), env, t, mc, rt, checksLoader, deleteWorld)
    {
      if !(t == Forge || t == NeoForge) {
        return Returned(FailureReason(UnsupportedTypeReason));
      }
      var found := WriteBuild(EntriesFor(env, t), t, mc);
      if found.Raised? {
        return Raised;
      }
      if found.value.None? {
        return Returned(FailureReason(NoVersionInfoReason));
      }
      Complete(env, t, mc, rt, checksLoader, deleteWorld, EntriesFor(env, t)[found.value.value].value);
      r := Returned(Success);
    }

    /** The search through the version list: the first matching key's build and the server
        type are written; for NeoForge every key looked at cuts two characters off `mc`,
        which raises when `mc` is shorter. */
    method WriteBuild(entries: seq<VersionEntry>, t: ServerType, mc: string) returns (r: Outcome<Option<nat>>)
      requires t == Forge || t == NeoForge
      modifies this`settings
      ensures r.Raised? <==> t == NeoForge && |mc| < 2 && entries != []
      ensures r.Returned? ==> r.value == FirstMatch(entries, t, mc)
      ensures r.Returned? && r.value.Some? ==> settings == Chosen(old(settings), t, entries[r.value.value].value)
      ensures !(r.Returned? && r.value.Some?) ==> settings == old(settings)
    {
      var i := 0;
      while i < |entries|
        invariant 0 <= i <= |entries|
        invariant settings == old(settings)
        invariant forall j :: 0 <= j < i ==> !KeyMatches(t, entries[j].key, mc)
        invariant i > 0 ==> !(t == NeoForge && |mc| < 2)
      {
        if t == NeoForge && |mc| < 2 {
          return Raised;
        }
        if KeyMatches(t, entries[i].key, mc) {
          settings := Chosen(settings, t, entries[i].value);
          assert FirstMatch(entries, t, mc) == Some(i);
          return Returned(Some(i));
        }
        i := i + 1;
      }
      r := Returned(None);
    }

    /** The rest of `SetServerInfo` once the build is chosen. */
    method Complete(env: Environment, t: ServerType, mc: string, rt: JavaRuntime,
                    checksLoader: bool, deleteWorld: bool, build: string)
      modifies this`settings, this`configSaves, this`deleted, this`updates
      ensures State() == Completed(old(State()), env, t, mc, rt, checksLoader, deleteWorld, build)
    {
      WriteJavaAndWorld(env.javaVersions, rt, mc);
      if deleteWorld || env.delWorldFolder {
        if WorldName(mc) in env.paths {
          deleted := deleted + [WorldName(mc)];
        }
      }
      configSaves := configSaves + [settings];
      if LegacyShouldUpdate(t, checksLoader, build, env.paths) {
        updates := updates + 1;
      }
    }

    /** `UpdateJavaVersion`, then the world name. */
    method WriteJavaAndWorld(installed: Option<seq<string>>, rt: JavaRuntime, mc: string)
      modifies this`settings
      ensures settings == WithJavaAndWorld(old(settings), installed, rt, mc)
    {
      WriteRuntimeKeys(installed, rt);
      if !EndsWith(settings.levelName, mc) {
        settings := settings.(levelName := WorldName(mc));
      }
    }

    /** `AddServerInfoToQueue` of the earlier plugin. */
    method AddServerInfoToQueue(info: LegacyInfo, writeError: Option<string>) returns (r: ActionResult)
      modifies this`queue, this`queueSaves
      ensures (QueueState(queue, queueSaves), r) == AddStep(old(QueueState(queue, queueSaves)), info, writeError)
    {
      queue := queue + [info];
      if writeError.Some? {
        return FailureReason(QueueErrorPrefix + writeError.value);
      }
      queueSaves := queueSaves + [queue];
      r := Success;
    }

    /** `ProcessServerInfoQueue` of the earlier plugin. */
    method ProcessServerInfoQueue(env: Environment, writeError: Option<string>)
      returns (r: Outcome<ActionResult>)
      modifies this
      ensures (State(), r) == ProcessQueue(old(State()), env, writeError)
    {
      if queue == [] {
        return Returned(FailureReason(EmptyQueueReason));
      }
      var head := queue[0];
      queue := queue[1..];
      if writeError.Some? {
        return Returned(FailureReason(QueueErrorPrefix + writeError.value));
      }
      queueSaves := queueSaves + [queue];
      r := SetServerInfo(env, head.serverType, head.version, head.deleteWorld);
    }
  }
}
