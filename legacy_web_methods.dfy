/** Argument resolution of the earlier web methods (WebMethods.cs at the repository root):
    as in the current ones, except that a version text that names no member is not
    reported — the enum's zero value is passed on — and adding to the queue always
    reports success. */
module LegacyWebMethods {
  import opened Common
  import opened MinecraftVersions
  import opened ServerTypes
  import opened ServerInfoQueue
  import opened WebMethods
  import opened LegacyPlugin

  /** The version value passed on: the stored setting for an empty text, the member the
      text names, or the zero value when it names none. */
  function ResolveVersion(versionArg: string, storedVersion: MinecraftVersion): (x: VersionValue)
    ensures versionArg == "" ==> x == Declared(storedVersion)
    ensures versionArg != "" && ParseVersionArg(versionArg).Some? ==> x == Declared(ParseVersionArg(versionArg).value)
    ensures versionArg != "" && ParseVersionArg(versionArg).None? ==> x == Zero
  {
    if versionArg == "" then Declared(storedVersion)
    else match ParseVersionArg(versionArg)
      case None => Zero
      case Some(v) => Declared(v)
  }

  /** `SetServerInfo`: empty arguments take the stored settings, and the call is always
      passed on to the plugin. */
  function SetServerInfo(st: PluginState, env: Environment, typeArg: string, versionArg: string,
                         deleteWorld: bool, storedType: ServerType, storedVersion: MinecraftVersion,
                         parse: string -> Option<ServerType>, zero: ServerType)
    : (PluginState, Outcome<ActionResult>)
  {
    var t := if typeArg == "" then storedType else ParsedType(typeArg, parse, zero);
    LegacyPlugin.SetStep(st, env, t, ResolveVersion(versionArg, storedVersion), deleteWorld)
  }

  /** A member's release text reaches the plugin as that member. */
  lemma ReleaseTextResolved(v: MinecraftVersion, storedVersion: MinecraftVersion)
    ensures ResolveVersion(McVersion(v), storedVersion) == Declared(v)
  {
    VersionRoundTrip(v);
    ValueFromName(v);
    assert |McVersion(v)| > 0;
  }

  /** A version text that names no member is not reported: with NeoForge the call raises
      as soon as the NeoForge list has an entry, and with an empty list it fails with the
      "no version info" reason, never with an invalid-version reason. */
  lemma UnknownVersionReachesPlugin(st: PluginState, env: Environment, versionArg: string,
                                    deleteWorld: bool, storedType: ServerType, storedVersion: MinecraftVersion,
                                    parse: string -> Option<ServerType>, zero: ServerType)
    requires versionArg != "" && ParseVersionArg(versionArg).None?
    requires parse("NeoForge") == Some(NeoForge)
    ensures var (after, r) := SetServerInfo(st, env, "NeoForge", versionArg, deleteWorld,
                                            storedType, storedVersion, parse, zero);
      && (r.Raised? <==> env.neoForgeVersions != [])
      && (env.neoForgeVersions == [] ==> r == Returned(FailureReason(NoVersionInfoReason)) && after == st)
  {
    ZeroVersion(st, env, deleteWorld);
  }

  /** `AddServerInfoToQueue`: the request is queued with whatever the arguments resolved
      to, with no defaults, and the call reports success. */
  function AddServerInfoToQueue(s: QueueState<LegacyInfo>, typeArg: string, versionArg: string,
                                deleteWorld: bool, parse: string -> Option<ServerType>, zero: ServerType,
                                writeError: Option<string>): (QueueState<LegacyInfo>, ActionResult)
  {
    var x := match ParseVersionArg(versionArg) case None => Zero case Some(v) => Declared(v);
    (ServerInfoQueue.AddStep(s, LegacyInfo(ParsedType(typeArg, parse, zero), x, deleteWorld), writeError).0,
     Success)
  }

  /** Adding always reports success — also when the queue file could not be written — and
      always queues exactly one request at the tail: the parsed server type, the member the
      version text names or else the zero value (so also for an empty text), and the
      world flag; the new queue is handed to the writer unless the write fails. */
  lemma AddAlwaysSucceeds(s: QueueState<LegacyInfo>, typeArg: string, versionArg: string,
                          deleteWorld: bool, parse: string -> Option<ServerType>, zero: ServerType,
                          writeError: Option<string>)
    ensures var (after, r) := AddServerInfoToQueue(s, typeArg, versionArg, deleteWorld, parse, zero, writeError);
      && r == Success
      && |after.queue| == |s.queue| + 1
      && after.queue[..|s.queue|] == s.queue
      && after.queue[|s.queue|].serverType == ParsedType(typeArg, parse, zero)
      && (ParseVersionArg(versionArg).Some? ==>
            after.queue[|s.queue|].version == Declared(ParseVersionArg(versionArg).value))
      && (ParseVersionArg(versionArg).None? ==> after.queue[|s.queue|].version == Zero)
      && (versionArg == "" ==> after.queue[|s.queue|].version == Zero)
      && after.queue[|s.queue|].deleteWorld == deleteWorld
      && (writeError.None? ==> after.saved == s.saved + [after.queue])
      && (writeError.Some? ==> after.saved == s.saved)
  {
    EmptyVersionRejected();
  }

  /** `ProcessServerInfoQueue` returns exactly what the plugin's processing returns. */
  function ProcessServerInfoQueue(st: PluginState, env: Environment, writeError: Option<string>)
    : (PluginState, Outcome<ActionResult>)
  {
    ProcessQueue(st, env, writeError)
  }
}
