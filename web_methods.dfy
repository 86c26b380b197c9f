/** Argument resolution of the current web methods (MCAddonPlugin/WebMethods.cs): the text
    arguments of the server-info calls become a server type and a `MinecraftVersion`
    before the call is passed on to the server type utilities. */
module WebMethods {
  import opened Common
  import opened Text
  import opened MinecraftVersions
  import opened ServerTypes
  import opened ServerInfoQueue

  const InvalidVersionReason: string := "Invalid Minecraft version"

  /** `Enum.TryParse(text, true, out t)` for the host's server-type enum is a parameter
      (`parse`); when it fails, `t` holds the enum's default value `zero`. */
  function ParsedType(text: string, parse: string -> Option<ServerType>, zero: ServerType): (t: ServerType)
    ensures parse(text).Some? ==> t == parse(text).value
    ensures parse(text).None? ==> t == zero
  {
    parse(text).GetOr(zero)
  }

  /** `Enum.TryParse("V" + text.Replace(".", "_"), out v)`. */
  function ParseVersionArg(text: string): (r: Option<MinecraftVersion>)
    ensures r.Some? ==> Name(r.value) == "V" + ReplaceChar(text, '.', '_')
    ensures r.None? <==> forall v :: Name(v) != "V" + ReplaceChar(text, '.', '_')
  {
    ParseName("V" + ReplaceChar(text, '.', '_'))
  }

  /** Parsing undoes the release text the server type utilities derive from a member: every
      member comes back from its own release text. */
  lemma VersionRoundTrip(v: MinecraftVersion)
    ensures ParseVersionArg(McVersion(v)) == Some(v)
  {
    ValueFromName(v);
    NameRoundTrip(Name(v));
    ParseNameOf(v);
  }

  /** Turning '_' into '.' after the leading 'V' and back restores a member name. */
  lemma NameRoundTrip(n: string)
    requires WellFormedName(n)
    ensures "V" + ReplaceChar(ReplaceChar(n[1..], '_', '.'), '.', '_') == n
  {
    assert '.' !in n[1..] by {
      forall i | 0 <= i < |n[1..]| ensures n[1..][i] != '.' {
        assert n[1..][i] == n[i + 1];
      }
    }
    ReplaceCharInverse(n[1..], '_', '.');
    assert "V" + n[1..] == n;
  }

  /** For a text without underscores the converse holds too: it parses to `v` exactly when
      it is `v`'s release text. */
  lemma VersionParseExact(text: string, v: MinecraftVersion)
    requires '_' !in text
    ensures ParseVersionArg(text) == Some(v) <==> text == McVersion(v)
  {
    if ParseVersionArg(text) == Some(v) {
      var n := Name(v);
      assert "V" + ReplaceChar(text, '.', '_') == n;
      assert ReplaceChar(text, '.', '_') == n[1..];
      ReplaceCharInverse(text, '.', '_');
    }
    if text == McVersion(v) {
      VersionRoundTrip(v);
    }
  }

  /** The empty text names no member: "V" alone is not a member name. */
  lemma EmptyVersionRejected()
    ensures ParseVersionArg("") == None
  {
    forall v ensures Name(v) != "V" {
      ValueFromName(v);
    }
  }

  /** The server type and version `SetServerInfo` passes on: an empty argument falls back
      to the stored setting; a version text that names no member is rejected (`None`). */
  function ResolveSetArguments(typeArg: string, versionArg: string, storedType: ServerType,
                               storedVersion: MinecraftVersion, parse: string -> Option<ServerType>,
                               zero: ServerType): Option<(ServerType, MinecraftVersion)>
  {
    var t := if typeArg == "" then storedType else ParsedType(typeArg, parse, zero);
    if versionArg == "" then Some((t, storedVersion))
    else match ParseVersionArg(versionArg)
      case None => None
      case Some(v) => Some((t, v))
  }

  /** `SetServerInfo`: either the "Invalid Minecraft version" failure, with nothing pushed,
      deleted or updated, or the server type utilities' result for the resolved arguments. */
  function SetServerInfo(host: Host, typeArg: string, versionArg: string, deleteWorld: bool,
                         storedType: ServerType, storedVersion: MinecraftVersion,
                         parse: string -> Option<ServerType>, zero: ServerType): ServerInfoResult
  {
    match ResolveSetArguments(typeArg, versionArg, storedType, storedVersion, parse, zero)
    case None => Failed(InvalidVersionReason)
    case Some((t, v)) => ServerInfoSpec(host, t, v, deleteWorld)
  }

  /** The cases of `SetServerInfo`'s arguments: empty arguments take the stored settings,
      a server type that does not parse becomes the default value, and a version text that
      names no member is rejected, so `SetServerInfo` fails without being passed on. */
  lemma SetServerInfoArguments(typeArg: string, versionArg: string,
                               storedType: ServerType, storedVersion: MinecraftVersion,
                               parse: string -> Option<ServerType>, zero: ServerType)
    ensures var t := if typeArg == "" then storedType else ParsedType(typeArg, parse, zero);
      var r := ResolveSetArguments(typeArg, versionArg, storedType, storedVersion, parse, zero);
      && (versionArg == "" ==> r == Some((t, storedVersion)))
      && (versionArg != "" ==> (r.None? <==> forall v :: Name(v) != "V" + ReplaceChar(versionArg, '.', '_')))
      && (versionArg != "" && r.Some? ==> r == Some((t, ParseVersionArg(versionArg).value)))
      && (typeArg != "" && parse(typeArg).None? ==> t == zero)
      && (typeArg != "" && parse(typeArg).Some? ==> t == parse(typeArg).value)
  {
  }

  /** A rejected version makes `SetServerInfo` fail with nothing pushed, deleted or
      updated. */
  lemma SetServerInfoRejects(host: Host, typeArg: string, versionArg: string, deleteWorld: bool,
                             storedType: ServerType, storedVersion: MinecraftVersion,
                             parse: string -> Option<ServerType>, zero: ServerType)
    requires ResolveSetArguments(typeArg, versionArg, storedType, storedVersion, parse, zero).None?
    ensures SetServerInfo(host, typeArg, versionArg, deleteWorld, storedType, storedVersion, parse, zero)
      == ServerInfoResult(FailureReason(InvalidVersionReason), None, None, false)
  {
  }

  /** A version written as the release text of a member always reaches the server type
      utilities as that member. */
  lemma ReleaseTextAccepted(typeArg: string, v: MinecraftVersion,
                            storedType: ServerType, storedVersion: MinecraftVersion,
                            parse: string -> Option<ServerType>, zero: ServerType)
    ensures var t := if typeArg == "" then storedType else ParsedType(typeArg, parse, zero);
      ResolveSetArguments(typeArg, McVersion(v), storedType, storedVersion, parse, zero) == Some((t, v))
  {
    VersionRoundTrip(v);
    ValueFromName(v);
    assert |McVersion(v)| > 0;
  }

  /** `AddServerInfoToQueue`: no defaults; a version text that names no member fails and
      leaves the queue alone, and otherwise the request is queued and the call succeeds
      whatever the queue reported. */
  function AddServerInfoToQueue(s: QueueState<ServerInfo>, typeArg: string, versionArg: string,
                                deleteWorld: bool, parse: string -> Option<ServerType>, zero: ServerType,
                                writeError: Option<string>): (QueueState<ServerInfo>, ActionResult)
  {
    match ParseVersionArg(versionArg)
    case None => (s, FailureReason(InvalidVersionReason))
    case Some(v) =>
      (ServerInfoQueue.AddStep(s, ServerInfo(ParsedType(typeArg, parse, zero), v, deleteWorld), writeError).0,
       Success)
  }

  /** Adding succeeds exactly when the version parses; an empty version fails; on success
      the parsed request is the new tail, even when the queue file could not be written. */
  lemma AddServerInfoToQueueOutcome(s: QueueState<ServerInfo>, typeArg: string, versionArg: string,
                                    deleteWorld: bool, parse: string -> Option<ServerType>,
                                    zero: ServerType, writeError: Option<string>)
    ensures var (after, r) := AddServerInfoToQueue(s, typeArg, versionArg, deleteWorld, parse, zero, writeError);
      && (r == Success <==> ParseVersionArg(versionArg).Some?)
      && (r != Success ==> r == FailureReason(InvalidVersionReason) && after == s)
      && (r == Success ==>
            after.queue == s.queue + [ServerInfo(ParsedType(typeArg, parse, zero), ParseVersionArg(versionArg).value, deleteWorld)])
      && (versionArg == "" ==> r == FailureReason(InvalidVersionReason))
  {
    EmptyVersionRejected();
  }
}
