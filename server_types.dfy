/** Server type and version selection (Submodules/ServerTypeUtils/ServerTypeUtils.cs): a
    Minecraft release and a modloader pick a modloader build from the host's version
    lists, a Java runtime from the host's installed runtimes, and a world name; the
    resulting settings are pushed to the host. Requests can also be queued and processed
    first-in first-out. The host's state is a parameter of every operation. */
module ServerTypes {
  import opened Common
  import opened Text
  import opened MinecraftVersions
  import opened ServerInfoQueue

  const ServerTypeNode: string := "MinecraftModule.Minecraft.ServerType"
  const ForgeVersionNode: string := "MinecraftModule.Minecraft.SpecificForgeVersion"
  const NeoForgeVersionNode: string := "MinecraftModule.Minecraft.SpecificNeoForgeVersion"
  const JavaVersionNode: string := "MinecraftModule.Java.JavaVersion"
  const LevelNameNode: string := "MinecraftModule.Minecraft.LevelName"

  const UnsupportedTypeReason: string :=
    "Could not parse the server type, or the server type is not supported."
  const NoVersionInfoReason: string :=
    "Could not find the version info for the specified server type and Minecraft version."

  /** One entry of a modloader's version list: the key it is listed under and the build. */
  datatype VersionEntry = VersionEntry(key: string, value: string)

  /** What the operations read from the host: the Forge and NeoForge version lists in
      their iteration order, the keys of the installed Java runtimes (`None` when the
      reflective call that lists them fails), the current world name, the paths that
      exist on disk, and the plugin's "delete world folder" setting. */
  datatype Host = Host(
    forgeVersions: seq<VersionEntry>,
    neoForgeVersions: seq<VersionEntry>,
    javaVersions: Option<seq<string>>,
    levelName: string,
    paths: set<string>,
    delWorldFolder: bool)

  /** What a call of `SetServerInfo` does: its result, the settings map it pushes (none
      when it fails), the world folder it deletes, and whether it starts an update. */
  datatype ServerInfoResult = ServerInfoResult(
    result: ActionResult,
    pushed: Option<map<string, SettingValue>>,
    deleted: Option<string>,
    updated: bool)

  function Failed(reason: string): ServerInfoResult
  {
    ServerInfoResult(FailureReason(reason), None, None, false)
  }

  /** The version list searched for a server type. */
  function VersionsFor(host: Host, t: ServerType): seq<VersionEntry>
  {
    match t
    case Forge => host.forgeVersions
    case NeoForge => host.neoForgeVersions
    case OtherServerType(_) => []
  }

  /** A Forge key matches when its text before the first '-' is the release number; a
      NeoForge key matches when it starts with the release number minus its first two
      characters ("1.20.4" looks for "20.4"). */
  predicate KeyMatches(t: ServerType, key: string, mc: string)
  {
    match t
    case Forge => BeforeFirst(key, '-') == mc
    case NeoForge => |mc| >= 2 && StartsWith(key, mc[2..])
    case OtherServerType(_) => false
  }

  /** The index of the first entry whose key matches. */
  function FirstMatch(entries: seq<VersionEntry>, t: ServerType, mc: string): (k: Option<nat>)
    ensures k.Some? ==> k.value < |entries| && KeyMatches(t, entries[k.value].key, mc)
    ensures k.Some? ==> forall j :: 0 <= j < k.value ==> !KeyMatches(t, entries[j].key, mc)
    ensures k.None? <==> forall j :: 0 <= j < |entries| ==> !KeyMatches(t, entries[j].key, mc)
  {
    if entries == [] then None
    else if KeyMatches(t, entries[0].key, mc) then Some(0)
    else match FirstMatch(entries[1..], t, mc)
      case None => None
      case Some(k) => Some(k + 1)
  }

  /** The Java LTS releases the plugin chooses between. */
  datatype JavaRuntime = Java8 | Java11 | Java17 | Java21

  /** The runtime a release needs, as the plugin's table assigns it; releases the table
      does not list need Java 21. */
  function JavaFor(v: MinecraftVersion): JavaRuntime
  {
    match v
    case V1_14 | V1_14_1 | V1_14_2 | V1_14_3 | V1_14_4 => Java8
    case V1_15 | V1_15_1 | V1_15_2 | V1_16 | V1_16_1 | V1_16_2 | V1_16_3 | V1_16_4
       | V1_16_5 => Java11
    case V1_17 | V1_17_1 | V1_18 | V1_18_1 | V1_18_2 | V1_19 | V1_19_1 | V1_19_2
       | V1_19_3 | V1_19_4 | V1_20 | V1_20_1 | V1_20_2 | V1_20_3 | V1_20_4 => Java17
    case _ => Java21
  }

  /** The table covers the releases in four consecutive ranges. */
  lemma JavaForRanges(v: MinecraftVersion)
    ensures JavaFor(v) == Java8 <==> Value(v) < 1150
    ensures JavaFor(v) == Java11 <==> 1150 <= Value(v) <= 1165
    ensures JavaFor(v) == Java17 <==> 1170 <= Value(v) <= 1204
    ensures JavaFor(v) == Java21 <==> 1205 <= Value(v)
  {
  }

  /** A runtime key that names the runtime: "-8-" or "-1.8-" for Java 8, "-11-", "-17-"
      and "-21-" for the others. */
  predicate RuntimeKey(rt: JavaRuntime, key: string)
  {
    match rt
    case Java8 => Contains(key, "-8-") || Contains(key, "-1.8-")
    case Java11 => Contains(key, "-11-")
    case Java17 => Contains(key, "-17-")
    case Java21 => Contains(key, "-21-")
  }

  /** The index of the first runtime key that names `rt`. */
  function FirstRuntimeKey(keys: seq<string>, rt: JavaRuntime): (k: Option<nat>)
    ensures k.Some? ==> k.value < |keys| && RuntimeKey(rt, keys[k.value])
    ensures k.Some? ==> forall j :: 0 <= j < k.value ==> !RuntimeKey(rt, keys[j])
    ensures k.None? <==> forall j :: 0 <= j < |keys| ==> !RuntimeKey(rt, keys[j])
  {
    if keys == [] then None
    else if RuntimeKey(rt, keys[0]) then Some(0)
    else match FirstRuntimeKey(keys[1..], rt)
      case None => None
      case Some(k) => Some(k + 1)
  }

  /** `UpdateJavaVersion`: the first installed runtime key for the release's runtime, or
      none if no key names it or the runtimes cannot be listed. */
  function JavaVersionFor(installed: Option<seq<string>>, v: MinecraftVersion): (r: Option<string>)
    ensures r.Some? ==> installed.Some? && r.value in installed.value && RuntimeKey(JavaFor(v), r.value)
    ensures r.None? <==> installed.None? || forall key :: key in installed.value ==> !RuntimeKey(JavaFor(v), key)
  {
    match installed
    case None => None
    case Some(keys) =>
      match FirstRuntimeKey(keys, JavaFor(v))
      case None => None
      case Some(k) => Some(keys[k])
  }

  /** The Forge releases for which the loader's presence is checked before updating. */
  predicate ForgeChecksLoader(v: MinecraftVersion)
  {
    match v
    case V1_17 | V1_17_1 | V1_18 | V1_18_1 | V1_18_2 | V1_19 | V1_19_1 | V1_19_2 | V1_19_3
       | V1_19_4 | V1_20 | V1_20_1 | V1_20_2 => true
    case _ => false
  }

  /** The file whose absence shows that a modloader build is not installed. */
  function UnixArgsPath(t: ServerType, build: string): string
  {
    if t == NeoForge then "libraries/net/neoforged/neoforge/" + build + "/unix_args.txt"
    else "libraries/net/minecraftforge/forge/" + build + "/unix_args.txt"
  }

  /** `ShouldUpdate`. */
  function ShouldUpdate(t: ServerType, v: MinecraftVersion, build: string, paths: set<string>): bool
  {
    match t
    case Forge => ForgeChecksLoader(v) && UnixArgsPath(t, build) !in paths
    case NeoForge => UnixArgsPath(t, build) !in paths
    case OtherServerType(_) => false
  }

  /** An update is started only for Forge on 1.17 to 1.20.2 and for NeoForge, and then
      exactly when the build's `unix_args.txt` is missing. */
  lemma ShouldUpdateCases(t: ServerType, v: MinecraftVersion, build: string, paths: set<string>)
    ensures ShouldUpdate(t, v, build, paths) <==>
      ((t == Forge && 1170 <= Value(v) <= 1202) || t == NeoForge)
      && UnixArgsPath(t, build) !in paths
  {
    assert ForgeChecksLoader(v) <==> 1170 <= Value(v) <= 1202;
  }

  /** The world folder named after a release number. */
  function WorldName(mc: string): string
  {
    "world_" + mc
  }

  /** What `SetServerInfo` does for a server type, a release and the "delete world"
      argument, given the host. */
  function ServerInfoSpec(host: Host, t: ServerType, v: MinecraftVersion, deleteWorld: bool)
    : ServerInfoResult
  {
    Assemble(host, t, McVersion(v), JavaVersionFor(host.javaVersions, v), ForgeChecksLoader(v),
             deleteWorld)
  }

  /** The same, for the release number `mc`, the runtime key `java` chosen for it and
      whether Forge checks for its loader. */
  function Assemble(host: Host, t: ServerType, mc: string, java: Option<string>,
                    checksLoader: bool, deleteWorld: bool): ServerInfoResult
  {
    var entries := VersionsFor(host, t);
    if !(t == Forge || t == NeoForge) then Failed(UnsupportedTypeReason)
    else match FirstMatch(entries, t, mc)
      case None => Failed(NoVersionInfoReason)
      case Some(k) =>
        var build := entries[k].value;
        var versionNode := if t == Forge then ForgeVersionNode else NeoForgeVersionNode;
        var chosen := map[ServerTypeNode := ServerTypeSetting(t), versionNode := Text(build)];
        var withJava := if java.Some? then chosen[JavaVersionNode := Text(java.value)] else chosen;
        var settings := if EndsWith(host.levelName, mc) then withJava
                        else withJava[LevelNameNode := Text(WorldName(mc))];
        var deleted := if (deleteWorld || host.delWorldFolder) && WorldName(mc) in host.paths
                       then Some(WorldName(mc)) else None;
        var update := (t == NeoForge || checksLoader) && UnixArgsPath(t, build) !in host.paths;
        ServerInfoResult(Success, Some(settings), deleted, update)
  }

  /** The update decision inside `Assemble` is `ShouldUpdate`. */
  lemma AssembleUpdates(host: Host, t: ServerType, v: MinecraftVersion, deleteWorld: bool)
    requires ServerInfoSpec(host, t, v, deleteWorld).result.Success?
    ensures var entries := VersionsFor(host, t);
      var k := FirstMatch(entries, t, McVersion(v));
      k.Some? && ServerInfoSpec(host, t, v, deleteWorld).updated
        == ShouldUpdate(t, v, entries[k.value].value, host.paths)
  {
  }

  /** The call fails, pushing and changing nothing, exactly when the server type is
      neither Forge nor NeoForge or no key of its version list matches the release. */
  lemma ServerInfoFailures(host: Host, t: ServerType, mc: string, java: Option<string>,
                           checksLoader: bool, deleteWorld: bool)
    ensures var r := Assemble(host, t, mc, java, checksLoader, deleteWorld);
      && (!(t == Forge || t == NeoForge) ==> r == Failed(UnsupportedTypeReason))
      && ((t == Forge || t == NeoForge) ==>
            (r == Failed(NoVersionInfoReason) <==>
             forall e :: e in VersionsFor(host, t) ==> !KeyMatches(t, e.key, mc)))
      && (r.result.Success? <==> r.pushed.Some?)
      && (r.result.FailureReason? ==> r.deleted.None? && !r.updated)
  {
    var entries := VersionsFor(host, t);
    if forall e :: e in entries ==> !KeyMatches(t, e.key, mc) {
      assert forall j :: 0 <= j < |entries| ==> entries[j] in entries;
    }
  }

  /** On success the pushed settings hold exactly the server type, the build, the Java
      runtime when one was chosen and the world name when it changes: the build is that
      of the first matching entry, the world name is "world_" and the release number,
      set exactly when the current one does not already end with the release number;
      the world folder is deleted exactly when that was asked for and it exists. */
  lemma ServerInfoSettings(host: Host, t: ServerType, mc: string, java: Option<string>,
                           checksLoader: bool, deleteWorld: bool)
    requires Assemble(host, t, mc, java, checksLoader, deleteWorld).result.Success?
    ensures var r := Assemble(host, t, mc, java, checksLoader, deleteWorld);
      var entries := VersionsFor(host, t);
      var versionNode := if t == Forge then ForgeVersionNode else NeoForgeVersionNode;
      && r.pushed.Some?
      && r.pushed.value.Keys == {ServerTypeNode, versionNode}
           + (if java.Some? then {JavaVersionNode} else {})
           + (if EndsWith(host.levelName, mc) then {} else {LevelNameNode})
      && r.pushed.value[ServerTypeNode] == ServerTypeSetting(t)
      && (exists k :: 0 <= k < |entries| && KeyMatches(t, entries[k].key, mc)
            && (forall j :: 0 <= j < k ==> !KeyMatches(t, entries[j].key, mc))
            && r.pushed.value[versionNode] == Text(entries[k].value))
      && (JavaVersionNode in r.pushed.value <==> java.Some?)
      && (java.Some? ==> r.pushed.value[JavaVersionNode] == Text(java.value))
      && (LevelNameNode in r.pushed.value <==> !EndsWith(host.levelName, mc))
      && (LevelNameNode in r.pushed.value ==> r.pushed.value[LevelNameNode] == Text("world_" + mc))
      && (r.deleted.Some? <==> (deleteWorld || host.delWorldFolder) && "world_" + mc in host.paths)
  {
    var entries := VersionsFor(host, t);
    var k := FirstMatch(entries, t, mc).value;
    assert KeyMatches(t, entries[k].key, mc);
    var versionNode := if t == Forge then ForgeVersionNode else NeoForgeVersionNode;
    var chosen := map[ServerTypeNode := ServerTypeSetting(t), versionNode := Text(entries[k].value)];
    var withJava := if java.Some? then chosen[JavaVersionNode := Text(java.value)] else chosen;
    var settings := if EndsWith(host.levelName, mc) then withJava
                    else withJava[LevelNameNode := Text(WorldName(mc))];
    assert Assemble(host, t, mc, java, checksLoader, deleteWorld).pushed == Some(settings);
    assert chosen.Keys == {ServerTypeNode, versionNode};
  }

  /** One request waiting in the queue. */
  datatype ServerInfo = ServerInfo(serverType: ServerType, version: MinecraftVersion, deleteWorld: bool)

  /** `ProcessServerInfoQueue`. */
  function ProcessStep(s: QueueState<ServerInfo>, host: Host, writeError: Option<string>)
    : (QueueState<ServerInfo>, ServerInfoResult)
  {
    if s.queue == [] then (s, Failed(EmptyQueueReason))
    else if writeError.Some? then (Dequeued(s, writeError), Failed(QueueErrorPrefix + writeError.value))
    else
      var head := s.queue[0];
      (Dequeued(s, writeError), ServerInfoSpec(host, head.serverType, head.version, head.deleteWorld))
  }

  /** Processing an empty queue fails and changes nothing; otherwise the head is removed,
      and it is applied exactly when the queue file could be written. */
  lemma ProcessTakesHead(s: QueueState<ServerInfo>, host: Host, writeError: Option<string>)
    ensures s.queue == [] ==> ProcessStep(s, host, writeError) == (s, Failed(EmptyQueueReason))
    ensures s.queue != [] ==> ProcessStep(s, host, writeError).0.queue == s.queue[1..]
    ensures s.queue != [] && writeError.None? ==>
      ProcessStep(s, host, writeError).1
        == ServerInfoSpec(host, s.queue[0].serverType, s.queue[0].version, s.queue[0].deleteWorld)
    ensures s.queue != [] && writeError.Some? ==> ProcessStep(s, host, writeError).1.result.FailureReason?
  {
  }

  /** The server type utilities: the pending-request queue and the writes of its file. */
  class ServerTypeUtils {
    var queue: seq<ServerInfo>
    var saved: seq<seq<ServerInfo>>

    function State(): QueueState<ServerInfo>
      reads this
    {
      QueueState(queue, saved)
    }

    /** The constructor loads the queue file; an unreadable file is reported and leaves
        the queue empty. */
    constructor (file: QueueFile<ServerInfo>)
      ensures queue == LoadQueue(file) && saved == []
    {
      queue := if file.QueueList? then file.infos else [];
      saved := [];
    }

    /** `SetServerInfo`: the version list is searched for the first matching key and the
        settings are assembled. */
    method SetServerInfo(host: Host, t: ServerType, v: MinecraftVersion, deleteWorld: bool)
      returns (r: ServerInfoResult)
      ensures r == ServerInfoSpec(host, t, v, deleteWorld)
    {
      r := AssembleSettings(host, t, McVersion(v), JavaVersionFor(host.javaVersions, v),
                            ForgeChecksLoader(v), deleteWorld);
    }

    /** The body of `SetServerInfo` once the release number, the Java runtime key and the
        Forge loader check have been derived from the release. */
    method AssembleSettings(host: Host, t: ServerType, mc: string, java: Option<string>,
                            checksLoader: bool, deleteWorld: bool) returns (r: ServerInfoResult)
      ensures r == Assemble(host, t, mc, java, checksLoader, deleteWorld)
    {
      var settings: map<string, SettingValue> := map[];
      var build: Option<string> := None;
      if !(t == Forge || t == NeoForge) {
        return Failed(UnsupportedTypeReason);
      }
      var entries := VersionsFor(host, t);
      var i := 0;
      while i < |entries|
        invariant 0 <= i <= |entries|
        invariant build.None? && settings == map[]
        invariant forall j :: 0 <= j < i ==> !KeyMatches(t, entries[j].key, mc)
      {
        if KeyMatches(t, entries[i].key, mc) {
          build := Some(entries[i].value);
          settings := settings[ServerTypeNode := ServerTypeSetting(t)];
          if t == Forge {
            settings := settings[ForgeVersionNode := Text(entries[i].value)];
          } else {
            settings := settings[NeoForgeVersionNode := Text(entries[i].value)];
          }
          break;
        }
        i := i + 1;
      }
      if build.None? {
        return Failed(NoVersionInfoReason);
      }
      assert FirstMatch(entries, t, mc) == Some(i);
      if java.Some? {
        settings := settings[JavaVersionNode := Text(java.value)];
      }
      if !EndsWith(host.levelName, mc) {
        settings := settings[LevelNameNode := Text(WorldName(mc))];
      }
      var deleted: Option<string> := None;
      if deleteWorld || host.delWorldFolder {
        if WorldName(mc) in host.paths {
          deleted := Some(WorldName(mc));
        }
      }
      var update := (t == NeoForge || checksLoader) && UnixArgsPath(t, build.value) !in host.paths;
      r := ServerInfoResult(Success, Some(settings), deleted, update);
    }

    /** `AddServerInfoToQueue`. */
    method AddServerInfoToQueue(info: ServerInfo, writeError: Option<string>) returns (r: ActionResult)
      modifies this
      ensures (State(), r) == AddStep(old(State()), info, writeError)
    {
      queue := queue + [info];
      if writeError.Some? {
        return FailureReason(QueueErrorPrefix + writeError.value);
      }
      saved := saved + [queue];
      r := Success;
    }

    /** `ProcessServerInfoQueue`. */
    method ProcessServerInfoQueue(host: Host, writeError: Option<string>) returns (r: ServerInfoResult)
      modifies this
      ensures (State(), r) == ProcessStep(old(State()), host, writeError)
    {
      if queue == [] {
        return Failed(EmptyQueueReason);
      }
      var head := queue[0];
      queue := queue[1..];
      if writeError.Some? {
        return Failed(QueueErrorPrefix + writeError.value);
      }
      saved := saved + [queue];
      r := SetServerInfo(host, head.serverType, head.version, head.deleteWorld);
    }
  }
}
