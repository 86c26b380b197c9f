/** Player identity lookups without a cache (Management/Utils.cs): a name is routed by its
    prefix to the Geyser (Bedrock) or the Mojang (Java) service, the answer is turned into
    an identifier, and a list of names is resolved into name/identifier pairs. The two
    web services are parameters: each maps the name sent to it to a reply. */
module ManagementUtils {
  import opened Common
  import opened Text
  import opened Guids

  /** What a web service call ends in: an exception from the HTTP client (or a body the
      JSON reader rejects), a status other than 200 OK, or an OK reply with its payload. */
  datatype Reply<+T> = Threw | NotOk | Ok(payload: T)

  /** The two web services: Geyser answers a gamertag with an `xuid` number, Mojang
      answers a Java username with an `id` text. */
  datatype Backends = Backends(geyser: string -> Reply<Int64>, mojang: string -> Reply<string>)

  /** One request to a web service. */
  datatype Request = GeyserXuid(gamertag: string) | MojangProfile(username: string)

  /** The request a name is sent as: a name starting with the Geyser prefix goes to
      Geyser with exactly the prefix removed, every other name goes to Mojang unchanged. */
  function Route(name: string, prefix: string): (q: Request)
    ensures q.GeyserXuid? <==> StartsWith(name, prefix)
    ensures q.GeyserXuid? ==> prefix + q.gamertag == name
    ensures q.MojangProfile? ==> q.username == name
  {
    if StartsWith(name, prefix) then
      PrefixSplit(name, prefix);
      GeyserXuid(name[|prefix|..])
    else MojangProfile(name)
  }

  lemma PrefixSplit(name: string, prefix: string)
    requires StartsWith(name, prefix)
    ensures prefix + name[|prefix|..] == name
  {
    assert name == name[..|prefix|] + name[|prefix|..];
  }

  /** The identifier a Geyser reply stands for: the XUID's upper-case hexadecimal text,
      left-padded to 32 digits and parsed in the "N" form, or `Guid.Empty` if that parse
      fails. */
  function XuidResult(reply: Reply<Int64>): (r: Outcome<Guid>)
    ensures r.Raised? <==> reply.Threw?
    ensures reply.NotOk? ==> r == Returned(Empty)
  {
    match reply
    case Threw => Raised
    case NotOk => Returned(Empty)
    case Ok(xuid) =>
      match ParseN(XuidText(xuid))
      case Some(g) => Returned(g)
      case None => Returned(Empty)
  }

  /** An OK Geyser reply always parses, so the fallback to `Guid.Empty` is never taken:
      the identifier's digits are the 64 bits of the XUID, and the identifier is empty
      exactly when the XUID is 0. */
  lemma XuidResultValue(xuid: Int64)
    ensures XuidResult(Ok(xuid)).Returned?
    ensures ParseN(XuidText(xuid)) == Some(XuidResult(Ok(xuid)).value)
    ensures BigEndian(XuidResult(Ok(xuid)).value) == Unsigned64(xuid)
    ensures XuidResult(Ok(xuid)).value == Empty <==> xuid == 0
  {
    XuidTextParses(xuid);
    EmptyIsZero(XuidResult(Ok(xuid)).value);
  }

  /** The identifier a Mojang reply stands for: its `id` parsed in the "N" form; an `id`
      that does not parse raises. */
  function UuidResult(reply: Reply<string>): (r: Outcome<Guid>)
    ensures reply.Threw? ==> r.Raised?
    ensures reply.NotOk? ==> r == Returned(Empty)
    ensures reply.Ok? ==> (r.Raised? <==> ParseN(reply.payload).None?)
    ensures reply.Ok? && r.Returned? ==> ParseN(reply.payload) == Some(r.value)
  {
    match reply
    case Threw => Raised
    case NotOk => Returned(Empty)
    case Ok(id) =>
      match ParseN(id)
      case Some(g) => Returned(g)
      case None => Raised
  }

  /** The identifier the services give for one request. */
  function Answer(b: Backends, q: Request): Outcome<Guid>
  {
    match q
    case GeyserXuid(tag) => XuidResult(b.geyser(tag))
    case MojangProfile(user) => UuidResult(b.mojang(user))
  }

  /** `QueryGeyserXUID`: the first `prefix.Length` characters are cut off (a name shorter
      than the prefix raises) and the rest is sent to Geyser. */
  function QueryGeyserXUID(b: Backends, gamertag: string, prefix: string): (r: Outcome<Guid>)
    ensures |prefix| > |gamertag| ==> r.Raised?
    ensures StartsWith(gamertag, prefix) ==> r == Answer(b, Route(gamertag, prefix))
  {
    if |prefix| > |gamertag| then Raised else XuidResult(b.geyser(gamertag[|prefix|..]))
  }

  /** `QueryJavaUUID`: the name is sent to Mojang as it is. */
  function QueryJavaUUID(b: Backends, username: string): (r: Outcome<Guid>)
    ensures r == Answer(b, MojangProfile(username))
  {
    UuidResult(b.mojang(username))
  }

  /** `GetUserID`: the name is routed by its prefix and the answer of the chosen service is
      returned; nothing is remembered between calls, so every call asks a service. */
  function GetUserID(b: Backends, username: string, prefix: string): (r: Outcome<Guid>)
    ensures r == Answer(b, Route(username, prefix))
  {
    if StartsWith(username, prefix) then QueryGeyserXUID(b, username, prefix)
    else QueryJavaUUID(b, username)
  }

  /** The pairs `LookupUsers` collects from the answers of its lookups, in list order:
      each name with the "D" text of its identifier, skipping names whose identifier is
      `Guid.Empty`; if any lookup raised, the whole call raises. */
  function Collect(users: seq<string>, answers: seq<Outcome<Guid>>): Outcome<seq<SimpleUser>>
    requires |answers| == |users|
    decreases |users|
  {
    if users == [] then Returned([])
    else
      var n := |users| - 1;
      match (Collect(users[..n], answers[..n]), answers[n])
      case (Returned(found), Returned(g)) =>
        Returned(if g != Empty then found + [SimpleUser(users[n], FormatD(g))] else found)
      case _ => Raised
  }

  /** Collecting raises exactly when some answer is an exception. */
  lemma {:induction false} CollectRaises(users: seq<string>, answers: seq<Outcome<Guid>>)
    requires |answers| == |users|
    ensures Collect(users, answers).Raised? <==> exists i :: 0 <= i < |users| && answers[i].Raised?
  {
    if users != [] {
      var n := |users| - 1;
      CollectRaises(users[..n], answers[..n]);
      assert forall i :: 0 <= i < n ==> answers[..n][i] == answers[i];
    }
  }

  /** Every pair collected is the name at some position with the "D" text of the
      non-empty identifier answered at that same position; the names keep list order, so
      there are no more pairs than names. */
  lemma {:induction false} CollectSound(users: seq<string>, answers: seq<Outcome<Guid>>)
    requires |answers| == |users| && Collect(users, answers).Returned?
    ensures var found := Collect(users, answers).value;
      && Subsequence(Names(found), users) && |found| <= |users|
      && forall k :: 0 <= k < |found| ==>
           exists i :: 0 <= i < |users| && answers[i].Returned? && answers[i].value != Empty
             && found[k] == SimpleUser(users[i], FormatD(answers[i].value))
  {
    var found := Collect(users, answers).value;
    if users != [] {
      var n := |users| - 1;
      var front, name := users[..n], users[n];
      assert front + [name] == users;
      CollectSound(front, answers[..n]);
      var prev := Collect(front, answers[..n]).value;
      if found == prev {
        SubsequenceSkip(Names(prev), front, name);
      } else {
        assert found == prev + [SimpleUser(name, FormatD(answers[n].value))];
        assert Names(found) == Names(prev) + [name];
        SubsequenceKeep(Names(prev), front, name);
      }
    }
    SubsequenceLength(Names(found), users);
    forall k | 0 <= k < |found|
      ensures exists i :: 0 <= i < |users| && answers[i].Returned? && answers[i].value != Empty
                          && found[k] == SimpleUser(users[i], FormatD(answers[i].value))
    {
      CollectPairAt(users, answers, k);
    }
  }

  /** The pair at position `k` of the result comes from some position of the list. */
  lemma {:induction false} CollectPairAt(users: seq<string>, answers: seq<Outcome<Guid>>, k: nat)
    requires |answers| == |users| && Collect(users, answers).Returned?
    requires k < |Collect(users, answers).value|
    ensures exists i :: 0 <= i < |users| && answers[i].Returned? && answers[i].value != Empty
                        && Collect(users, answers).value[k] == SimpleUser(users[i], FormatD(answers[i].value))
  {
    var n := |users| - 1;
    var found := Collect(users, answers).value;
    var prev := Collect(users[..n], answers[..n]).value;
    assert found == prev || found == prev + [SimpleUser(users[n], FormatD(answers[n].value))];
    if k < |prev| {
      CollectPairAt(users[..n], answers[..n], k);
      var i :| 0 <= i < n && answers[..n][i].Returned? && answers[..n][i].value != Empty
        && prev[k] == SimpleUser(users[..n][i], FormatD(answers[..n][i].value));
      assert answers[..n][i] == answers[i] && users[..n][i] == users[i];
      assert found[k] == prev[k];
    } else {
      assert found[k] == SimpleUser(users[n], FormatD(answers[n].value));
    }
  }

  /** Every position whose answer is a non-empty identifier contributes its pair. */
  lemma {:induction false} CollectComplete(users: seq<string>, answers: seq<Outcome<Guid>>, i: nat)
    requires |answers| == |users| && Collect(users, answers).Returned?
    requires i < |users| && answers[i].Returned? && answers[i].value != Empty
    ensures SimpleUser(users[i], FormatD(answers[i].value)) in Collect(users, answers).value
  {
    var n := |users| - 1;
    if i < n {
      assert users[..n][i] == users[i] && answers[..n][i] == answers[i];
      CollectComplete(users[..n], answers[..n], i);
    }
  }

  /** The answer the services give for each name of a list. */
  function Queried(b: Backends, users: seq<string>, prefix: string): (answers: seq<Outcome<Guid>>)
    ensures |answers| == |users|
    ensures forall i :: 0 <= i < |users| ==> answers[i] == GetUserID(b, users[i], prefix)
  {
    seq(|users|, i requires 0 <= i < |users| => GetUserID(b, users[i], prefix))
  }

  /** What `LookupUsers` produces for a list of names: the answers of the services,
      collected. */
  function Resolve(b: Backends, users: seq<string>, prefix: string): Outcome<seq<SimpleUser>>
  {
    Collect(users, Queried(b, users, prefix))
  }

  /** `LookupUsers`: every name is looked up and the non-empty results are collected. */
  method LookupUsers(b: Backends, users: seq<string>, prefix: string)
    returns (r: Outcome<seq<SimpleUser>>)
    ensures r == Resolve(b, users, prefix)
  {
    var found: seq<SimpleUser> := [];
    var faulted := false;
    var i := 0;
    while i < |users|
      invariant 0 <= i <= |users|
      invariant Resolve(b, users[..i], prefix) == if faulted then Raised else Returned(found)
    {
      assert users[..i + 1][..i] == users[..i];
      assert Queried(b, users[..i + 1], prefix)[..i] == Queried(b, users[..i], prefix);
      var id := GetUserID(b, users[i], prefix);
      match id {
        case Raised =>
          faulted := true;
        case Returned(g) =>
          if g != Empty {
            found := found + [SimpleUser(users[i], FormatD(g))];
          }
      }
      i := i + 1;
    }
    assert users[..i] == users;
    r := if faulted then Raised else Returned(found);
  }

  /** The lookup raises exactly when the lookup of some name raises. */
  lemma ResolveRaises(b: Backends, users: seq<string>, prefix: string)
    ensures Resolve(b, users, prefix).Raised? <==>
      exists i :: 0 <= i < |users| && GetUserID(b, users[i], prefix).Raised?
  {
    CollectRaises(users, Queried(b, users, prefix));
  }

  /** Every pair found names a looked-up user, in input order, and carries the "D" text of
      the non-empty identifier that user's lookup gave; so there are no more pairs than
      names. */
  lemma ResolveSound(b: Backends, users: seq<string>, prefix: string)
    requires Resolve(b, users, prefix).Returned?
    ensures Subsequence(Names(Resolve(b, users, prefix).value), users)
    ensures |Resolve(b, users, prefix).value| <= |users|
    ensures forall k :: 0 <= k < |Resolve(b, users, prefix).value| ==>
      var u := Resolve(b, users, prefix).value[k];
      GetUserID(b, u.name, prefix).Returned? && GetUserID(b, u.name, prefix).value != Empty
      && u.id == FormatD(GetUserID(b, u.name, prefix).value)
  {
    CollectSound(users, Queried(b, users, prefix));
  }

  /** Every name whose lookup gives a non-empty identifier appears in the result with
      that identifier's "D" text. */
  lemma ResolveComplete(b: Backends, users: seq<string>, prefix: string, i: nat)
    requires Resolve(b, users, prefix).Returned?
    requires i < |users| && GetUserID(b, users[i], prefix).Returned?
    requires GetUserID(b, users[i], prefix).value != Empty
    ensures SimpleUser(users[i], FormatD(GetUserID(b, users[i], prefix).value))
      in Resolve(b, users, prefix).value
  {
    CollectComplete(users, Queried(b, users, prefix), i);
  }
}
