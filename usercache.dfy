/** The caching identity lookup (Management/UserCache.cs): a list of name/identifier
    entries with expiry times, kept in `usercache.json`, and a map of recent failed
    lookups that blocks a retry for five minutes. Time is a whole number of seconds; the
    two web services, the clock and the cache file's contents are parameters. */
module UserCacheStore {
  import opened Common
  import opened Guids
  import opened ManagementUtils

  /** How long a failed lookup blocks a retry of the same name: five minutes. */
  const MissWindow: int := 300

  /** The current time and the same time one calendar month later
      (`DateTime.UtcNow.AddMonths(1)`); a month later is always later. */
  datatype ClockReading = ClockReading(now: int, monthLater: int)
  type Clock = c: ClockReading | c.now < c.monthLater witness ClockReading(0, 1)

  /** `UserCacheEntry`: a player name, the "D" text of its identifier, and the time the
      entry expires. */
  datatype UserCacheEntry = UserCacheEntry(name: string, uuid: string, expiresOn: int)

  /** An entry as read from the cache file: its expiry text either parses as a time
      (`Some`) or makes `DateTime.Parse` throw (`None`). */
  datatype StoredEntry = StoredEntry(name: string, uuid: string, expiresOn: Option<int>)

  /** The cache file as `GetFile` finds it: no handle at all (`GetFile` returned `null`),
      a handle to a file that does not exist, text that is not a JSON list of entries
      (including `null` and empty text, on which the removal throws inside the `try`), or
      a list. */
  datatype CacheFile = NoHandle | Absent | Malformed | Stored(entries: seq<StoredEntry>)

  /** `new UserCacheEntry(name, uuid)`: an entry that expires a month from now, so an
      entry made now survives a load now. */
  function NewEntry(name: string, uuid: string, clock: Clock): (e: UserCacheEntry)
    ensures e.name == name && e.uuid == uuid
    ensures e.expiresOn > clock.now
  {
    UserCacheEntry(name, uuid, clock.monthLater)
  }

  /** The entries read from a file whose every expiry parses. */
  function Parsed(es: seq<StoredEntry>): (r: seq<UserCacheEntry>)
    requires forall i :: 0 <= i < |es| ==> es[i].expiresOn.Some?
    ensures |r| == |es|
    ensures forall i :: 0 <= i < |es| ==>
      r[i] == UserCacheEntry(es[i].name, es[i].uuid, es[i].expiresOn.value)
  {
    if es == [] then [] else
      [UserCacheEntry(es[0].name, es[0].uuid, es[0].expiresOn.value)] + Parsed(es[1..])
  }

  /** `cache.RemoveAll(x => DateTime.Parse(x.expiresOn) < DateTime.UtcNow)`: the entries
      that expire at or after `now`, in file order; `None` when some expiry does not
      parse, which throws out of the removal. */
  function Purge(es: seq<StoredEntry>, now: int): Option<seq<UserCacheEntry>>
    decreases |es|
  {
    if es == [] then Some([])
    else
      var e := es[|es| - 1];
      match (Purge(es[..|es| - 1], now), e.expiresOn)
      case (Some(kept), Some(t)) =>
        Some(if t < now then kept else kept + [UserCacheEntry(e.name, e.uuid, t)])
      case _ => None
  }

  /** What `ReadUserCacheJSON` returns: the unexpired entries of the file, or an empty
      cache when there is no handle, the text is not a list, or an expiry does not parse.
      A handle to a file that does not exist makes `OpenText` throw, outside the `try`. */
  function Loaded(file: CacheFile, now: int): Outcome<seq<UserCacheEntry>>
  {
    match file
    case NoHandle => Returned([])
    case Absent => Raised
    case Malformed => Returned([])
    case Stored(es) => Returned(Purge(es, now).GetOr([]))
  }

  /** The file `WriteUserCacheJSON` leaves: with a handle, `CreateText` creates or empties
      the file and the cache is written to it, each expiry as a time that reads back. */
  function WriteCache(file: CacheFile, cache: seq<UserCacheEntry>): CacheFile
  {
    if file.NoHandle? then file
    else Stored(seq(|cache|, i requires 0 <= i < |cache| =>
                      StoredEntry(cache[i].name, cache[i].uuid, Some(cache[i].expiresOn))))
  }

  /** The purge fails exactly when some expiry does not parse. */
  lemma {:induction false} PurgeFails(es: seq<StoredEntry>, now: int)
    ensures Purge(es, now).None? <==> exists i :: 0 <= i < |es| && es[i].expiresOn.None?
  {
    if es != [] {
      var front := es[..|es| - 1];
      PurgeFails(front, now);
      assert forall i :: 0 <= i < |front| ==> front[i] == es[i];
      if exists i :: 0 <= i < |es| && es[i].expiresOn.None? {
        var i :| 0 <= i < |es| && es[i].expiresOn.None?;
        if i < |front| {
          assert front[i].expiresOn.None?;
        }
      }
    }
  }

  lemma {:induction false} ParsedSnoc(es: seq<StoredEntry>)
    requires es != [] && forall i :: 0 <= i < |es| ==> es[i].expiresOn.Some?
    ensures Parsed(es[..|es| - 1]) + [Parsed(es)[|es| - 1]] == Parsed(es)
  {
    var front := es[..|es| - 1];
    var a, b := Parsed(front) + [Parsed(es)[|es| - 1]], Parsed(es);
    assert |a| == |b|;
    forall i | 0 <= i < |a| ensures a[i] == b[i] {
      if i < |front| {
        assert front[i] == es[i];
      }
    }
  }

  /** Loading drops exactly the expired entries: what is kept keeps file order and is
      unexpired. */
  lemma {:induction false} PurgeKeepsUnexpired(es: seq<StoredEntry>, now: int)
    requires forall i :: 0 <= i < |es| ==> es[i].expiresOn.Some?
    ensures Purge(es, now).Some?
    ensures Subsequence(Purge(es, now).value, Parsed(es))
    ensures forall e :: e in Purge(es, now).value ==> e.expiresOn >= now
  {
    if es != [] {
      var front, e := es[..|es| - 1], es[|es| - 1];
      PurgeKeepsUnexpired(front, now);
      ParsedSnoc(es);
      var kept := Purge(front, now).value;
      if e.expiresOn.value < now {
        SubsequenceSkip(kept, Parsed(front), Parsed(es)[|es| - 1]);
      } else {
        SubsequenceKeep(kept, Parsed(front), Parsed(es)[|es| - 1]);
      }
    }
  }

  /** Every entry of the file that expires at or after `now` is kept. */
  lemma {:induction false} PurgeKeepsAllUnexpired(es: seq<StoredEntry>, now: int, i: nat)
    requires forall i :: 0 <= i < |es| ==> es[i].expiresOn.Some?
    requires i < |es| && es[i].expiresOn.value >= now
    ensures Purge(es, now).Some? && Parsed(es)[i] in Purge(es, now).value
  {
    var front, e := es[..|es| - 1], es[|es| - 1];
    assert forall j :: 0 <= j < |front| ==> front[j] == es[j];
    PurgeKeepsUnexpired(front, now);
    var kept := Purge(front, now).value;
    var entry := UserCacheEntry(e.name, e.uuid, e.expiresOn.value);
    assert Purge(es, now).value == if e.expiresOn.value < now then kept else kept + [entry];
    if i < |front| {
      PurgeKeepsAllUnexpired(front, now, i);
      ParsedSnoc(es);
      assert Parsed(front)[i] == Parsed(es)[i];
    } else {
      assert Parsed(es)[i] == entry;
      assert (kept + [entry])[|kept|] == entry;
    }
  }


  /** Writing the cache and loading it back gives the cache without its expired entries:
      the entries kept are in order, and an entry is kept exactly when it has not expired.
      A handle to a file that did not exist loads after the write, because the write
      created the file. */
  lemma WriteThenLoad(file: CacheFile, cache: seq<UserCacheEntry>, now: int)
    requires !file.NoHandle?
    ensures Loaded(WriteCache(file, cache), now).Returned?
    ensures var back := Loaded(WriteCache(file, cache), now).value;
      && Subsequence(back, cache)
      && forall e :: e in back <==> e in cache && e.expiresOn >= now
  {
    var es := WriteCache(file, cache).entries;
    assert Parsed(es) == cache;
    PurgeKeepsUnexpired(es, now);
    SubsequenceMembers(Purge(es, now).value, cache);
    forall e | e in cache && e.expiresOn >= now
      ensures e in Purge(es, now).value
    {
      var i :| 0 <= i < |cache| && cache[i] == e;
      PurgeKeepsAllUnexpired(es, now, i);
    }
  }

  /** `ReadUserCacheJSON`: the file's entries, with expired ones removed; it raises
      exactly for a handle to a file that does not exist. */
  method ReadUserCacheJSON(file: CacheFile, now: int) returns (r: Outcome<seq<UserCacheEntry>>)
    ensures r == Loaded(file, now)
    ensures r.Raised? <==> file.Absent?
    ensures file.NoHandle? || file.Malformed? ==> r == Returned([])
  {
    if file.Absent? {
      return Raised;
    }
    if !file.Stored? {
      return Returned([]);
    }
    var es := file.entries;
    var kept: seq<UserCacheEntry> := [];
    var i := 0;
    while i < |es|
      invariant 0 <= i <= |es|
      invariant Purge(es[..i], now) == Some(kept)
    {
      assert es[..i + 1][..i] == es[..i];
      match es[i].expiresOn {
        case None =>
          PurgeFails(es, now);
          return Returned([]);
        case Some(t) =>
          if t >= now {
            kept := kept + [UserCacheEntry(es[i].name, es[i].uuid, t)];
          }
      }
      i := i + 1;
    }
    assert es[..i] == es;
    r := Returned(kept);
  }

  /** The two ways the cache is searched: by name (`GetUserID`), and by name and
      identifier text (`UserCache_OnUserJoins`). */
  datatype Key = ByName(name: string) | ByUser(name: string, uid: string)

  predicate Matches(e: UserCacheEntry, key: Key)
  {
    match key
    case ByName(n) => e.name == n
    case ByUser(n, id) => e.name == n && e.uuid == id
  }

  /** The position of the first entry matching `key`, if any. */
  function FirstWhere(cache: seq<UserCacheEntry>, key: Key): (k: Option<nat>)
    ensures k.Some? ==> k.value < |cache| && Matches(cache[k.value], key)
    ensures k.Some? ==> forall j :: 0 <= j < k.value ==> !Matches(cache[j], key)
    ensures k.None? ==> forall j :: 0 <= j < |cache| ==> !Matches(cache[j], key)
  {
    if cache == [] then None
    else if Matches(cache[0], key) then Some(0)
    else match FirstWhere(cache[1..], key)
      case Some(k) => Some(k + 1)
      case None => None
  }

  /** `_cache.First(x => x.name == username)`, as a position. */
  function FirstNamed(cache: seq<UserCacheEntry>, name: string): Option<nat>
  {
    FirstWhere(cache, ByName(name))
  }

  /** A failed lookup of `name` less than five minutes ago blocks a new one. */
  predicate Blocked(misses: map<string, int>, name: string, now: int)
  {
    name in misses && misses[name] > now - MissWindow
  }

  /** The state `GetUserID` reads and changes: the cache, the failed-lookup times, and
      (as a record of what happened) every request sent to a web service. */
  datatype CacheState = CacheState(
    cache: seq<UserCacheEntry>,
    misses: map<string, int>,
    requests: seq<Request>)

  /** Where a `GetUserID` call stands when it first waits: answered already (a blocked
      name, or a cache hit), or waiting for the web service, whose answer is `reply`. */
  datatype Pending = Settled(answer: Outcome<Guid>) | Querying(reply: Outcome<Guid>)

  /** The part of `GetUserID` before its first wait: the miss check, the cache check and,
      for a name that passes both, the request sent to the service its prefix picks. */
  function Start(s: CacheState, b: Backends, name: string, prefix: string, clock: Clock)
    : (CacheState, Pending)
  {
    if Blocked(s.misses, name, clock.now) then (s, Settled(Returned(Empty)))
    else match FirstNamed(s.cache, name)
      case Some(k) =>
        (s, Settled(match ParseD(s.cache[k].uuid) case Some(g) => Returned(g) case None => Raised))
      case None =>
        (s.(requests := s.requests + [Route(name, prefix)]), Querying(GetUserID(b, name, prefix)))
  }

  /** The part of `GetUserID` after the reply: a non-empty identifier is appended to the
      cache; an empty one is recorded as a miss, and `Dictionary.Add` raises when the name
      already has a miss entry. */
  function Finish(s: CacheState, name: string, p: Pending, clock: Clock): (CacheState, Outcome<Guid>)
  {
    match p
    case Settled(r) => (s, r)
    case Querying(Raised) => (s, Raised)
    case Querying(Returned(g)) =>
      if g != Empty then (s.(cache := s.cache + [NewEntry(name, FormatD(g), clock)]), Returned(g))
      else if name in s.misses then (s, Raised)
      else (s.(misses := s.misses[name := clock.now]), Returned(Empty))
  }

  /** What one `GetUserID` call returns and leaves behind when no other lookup runs
      beside it. */
  function LookupStep(s: CacheState, b: Backends, name: string, prefix: string, clock: Clock)
    : (CacheState, Outcome<Guid>)
  {
    var (t, p) := Start(s, b, name, prefix, clock);
    Finish(t, name, p, clock)
  }

  /** A name that failed less than five minutes ago gives `Guid.Empty` at once: no
      request is sent and nothing changes. */
  lemma MissBlocksRetry(s: CacheState, b: Backends, name: string, prefix: string, clock: Clock)
    requires name in s.misses && s.misses[name] > clock.now - MissWindow
    ensures LookupStep(s, b, name, prefix, clock) == (s, Returned(Empty))
  {
  }

  /** A cached name is answered from its first entry: no request is sent and nothing
      changes; an entry the plugin stored (the "D" text of an identifier) gives back
      exactly that identifier. */
  lemma CacheHitAnswers(s: CacheState, b: Backends, name: string, prefix: string, clock: Clock,
                        k: nat, g: Guid)
    requires !Blocked(s.misses, name, clock.now)
    requires k < |s.cache| && s.cache[k].name == name && s.cache[k].uuid == FormatD(g)
    requires forall j :: 0 <= j < k ==> s.cache[j].name != name
    ensures LookupStep(s, b, name, prefix, clock) == (s, Returned(g))
  {
    ParseFormatD(g);
  }

  /** A name that is neither blocked nor cached is sent, routed by its prefix, as exactly
      one request; a non-empty identifier appends exactly one entry (for that name, with
      that identifier's "D" text) and leaves the misses alone; an empty one leaves the
      cache alone and records the miss at the current time, or raises when the name
      already had an (expired) miss. */
  lemma QueryUpdatesCache(s: CacheState, b: Backends, name: string, prefix: string, clock: Clock)
    requires !Blocked(s.misses, name, clock.now)
    requires forall j :: 0 <= j < |s.cache| ==> s.cache[j].name != name
    ensures var (t, r) := LookupStep(s, b, name, prefix, clock);
      && t.requests == s.requests + [Route(name, prefix)]
      && (r.Returned? && r.value != Empty ==>
            t.cache == s.cache + [UserCacheEntry(name, FormatD(r.value), clock.monthLater)]
            && t.misses == s.misses)
      && (r == Returned(Empty) ==>
            name !in s.misses && t.cache == s.cache && t.misses == s.misses[name := clock.now])
      && (r.Raised? ==>
            t.cache == s.cache && t.misses == s.misses
            && (GetUserID(b, name, prefix).Raised? || name in s.misses))
  {
  }

  /** One lookup never removes or alters a cache entry and adds at most one, and never
      forgets a failed lookup. */
  lemma LookupStepGrows(s: CacheState, b: Backends, name: string, prefix: string, clock: Clock)
    ensures var t := LookupStep(s, b, name, prefix, clock).0;
      && |s.cache| <= |t.cache| <= |s.cache| + 1 && t.cache[..|s.cache|] == s.cache
      && s.misses.Keys <= t.misses.Keys
      && |s.requests| <= |t.requests| <= |s.requests| + 1
  {
  }

  /** Right after a failed lookup, asking again within five minutes sends no request. */
  lemma MissThenBlocked(s: CacheState, b: Backends, name: string, prefix: string,
                        clock: Clock, later: Clock)
    requires LookupStep(s, b, name, prefix, clock).1 == Returned(Empty)
    requires !Blocked(s.misses, name, clock.now) && FirstNamed(s.cache, name).None?
    requires clock.now <= later.now < clock.now + MissWindow
    ensures var t := LookupStep(s, b, name, prefix, clock).0;
      LookupStep(t, b, name, prefix, later) == (t, Returned(Empty))
  {
  }

  /** Right after a successful query, asking again is a cache hit that gives the same
      identifier without a request. */
  lemma FoundThenCached(s: CacheState, b: Backends, name: string, prefix: string,
                        clock: Clock, later: Clock)
    requires !Blocked(s.misses, name, clock.now)
    requires forall j :: 0 <= j < |s.cache| ==> s.cache[j].name != name
    requires LookupStep(s, b, name, prefix, clock).1.Returned?
    requires LookupStep(s, b, name, prefix, clock).1.value != Empty
    requires !Blocked(s.misses, name, later.now)
    ensures var (t, r) := LookupStep(s, b, name, prefix, clock);
      LookupStep(t, b, name, prefix, later) == (t, r)
  {
    QueryUpdatesCache(s, b, name, prefix, clock);
    var (t, r) := LookupStep(s, b, name, prefix, clock);
    CacheHitAnswers(t, b, name, prefix, later, |s.cache|, r.value);
  }

  /** `LookupUsers` first starts the lookup of every name, in list order; each runs up to
      its first wait before the next one starts, so every lookup checks the misses and the
      cache as they were on entry, and only the requests pile up. */
  function StartAll(s: CacheState, b: Backends, users: seq<string>, prefix: string, clock: Clock)
    : (r: (CacheState, seq<Pending>))
    decreases |users|
    ensures |r.1| == |users|
    ensures r.0.cache == s.cache && r.0.misses == s.misses
    ensures forall i :: 0 <= i < |users| ==> r.1[i] == Start(s, b, users[i], prefix, clock).1
    ensures |s.requests| <= |r.0.requests| <= |s.requests| + |users|
  {
    if users == [] then (s, [])
    else
      var n := |users| - 1;
      var (mid, ps) := StartAll(s, b, users[..n], prefix, clock);
      var (t, p) := Start(mid, b, users[n], prefix, clock);
      (t, ps + [p])
  }

  /** Then the lookups finish, taken in list order: each one's reply is applied to the
      state the earlier ones left. */
  function FinishAll(s: CacheState, users: seq<string>, ps: seq<Pending>, clock: Clock)
    : (r: (CacheState, seq<Outcome<Guid>>))
    requires |ps| == |users|
    decreases |users|
    ensures |r.1| == |users|
    ensures r.0.requests == s.requests
  {
    if users == [] then (s, [])
    else
      var n := |users| - 1;
      var (mid, answers) := FinishAll(s, users[..n], ps[..n], clock);
      var (t, a) := Finish(mid, users[n], ps[n], clock);
      (t, answers + [a])
  }

  /** The answer of every lookup `LookupUsers` starts. */
  function Answers(s: CacheState, b: Backends, users: seq<string>, prefix: string, clock: Clock)
    : (answers: seq<Outcome<Guid>>)
    ensures |answers| == |users|
  {
    var (started, ps) := StartAll(s, b, users, prefix, clock);
    FinishAll(started, users, ps, clock).1
  }

  /** What `LookupUsers` does: the state after all lookups have finished, and the pairs
      collected from their answers (the call raises when any lookup raised). */
  function LookupAll(s: CacheState, b: Backends, users: seq<string>, prefix: string, clock: Clock)
    : (CacheState, Outcome<seq<SimpleUser>>)
  {
    var (started, ps) := StartAll(s, b, users, prefix, clock);
    (FinishAll(started, users, ps, clock).0, Collect(users, Answers(s, b, users, prefix, clock)))
  }

  /** The answer at position `i` is what finishing that lookup gives in the state the
      earlier lookups left. */
  lemma {:induction false} FinishAllAt(s: CacheState, users: seq<string>, ps: seq<Pending>,
                                       clock: Clock, i: nat)
    requires |ps| == |users| && i < |users|
    ensures FinishAll(s, users, ps, clock).1[i]
      == Finish(FinishAll(s, users[..i], ps[..i], clock).0, users[i], ps[i], clock).1
  {
    var n := |users| - 1;
    if i < n {
      FinishAllAt(s, users[..n], ps[..n], clock, i);
      assert users[..n][..i] == users[..i] && ps[..n][..i] == ps[..i];
    } else {
      assert users[..n] == users[..i] && ps[..n] == ps[..i];
    }
  }

  /** After the lookups finish, a name has a miss entry exactly when it had one before or
      some lookup of it got an empty reply from its service. */
  lemma {:induction false} FinishAllMisses(s: CacheState, users: seq<string>, ps: seq<Pending>,
                                           clock: Clock, name: string)
    requires |ps| == |users|
    ensures name in FinishAll(s, users, ps, clock).0.misses <==>
      name in s.misses
      || exists j :: 0 <= j < |users| && users[j] == name && ps[j] == Querying(Returned(Empty))
  {
    if users != [] {
      var n := |users| - 1;
      FinishAllMisses(s, users[..n], ps[..n], clock, name);
      assert forall j :: 0 <= j < n ==> users[..n][j] == users[j] && ps[..n][j] == ps[j];
    }
  }

  /** Finishing never removes or alters a cache entry and adds at most one per lookup. */
  lemma {:induction false} FinishAllGrows(s: CacheState, users: seq<string>, ps: seq<Pending>,
                                          clock: Clock)
    requires |ps| == |users|
    ensures var t := FinishAll(s, users, ps, clock).0;
      |s.cache| <= |t.cache| <= |s.cache| + |users| && t.cache[..|s.cache|] == s.cache
      && s.misses.Keys <= t.misses.Keys
  {
    if users != [] {
      var n := |users| - 1;
      FinishAllGrows(s, users[..n], ps[..n], clock);
    }
  }

  /** The answer of each lookup, in terms of the state on entry: a blocked or cached name
      is answered as a lone `GetUserID` would answer it; a queried name gets its service's
      answer, except that an empty reply raises when the name already had a miss entry or
      was queried earlier in the same list. */
  lemma AnswerAt(s: CacheState, b: Backends, users: seq<string>, prefix: string, clock: Clock,
                 i: nat)
    requires i < |users|
    ensures var a := Answers(s, b, users, prefix, clock)[i];
      var p := Start(s, b, users[i], prefix, clock).1;
      && (p.Settled? ==> a == p.answer)
      && (p.Querying? && p.reply != Returned(Empty) ==> a == p.reply)
      && (p == Querying(Returned(Empty)) ==>
            if users[i] !in s.misses && users[i] !in users[..i] then a == p.reply else a.Raised?)
  {
    var (started, ps) := StartAll(s, b, users, prefix, clock);
    var name := users[i];
    FinishAllAt(started, users, ps, clock, i);
    var mid := FinishAll(started, users[..i], ps[..i], clock).0;
    FinishAllMisses(started, users[..i], ps[..i], clock, name);
    if ps[i] == Querying(Returned(Empty)) {
      if name in users[..i] {
        var j :| 0 <= j < i && users[..i][j] == name;
        assert ps[..i][j] == ps[j] == Start(s, b, users[j], prefix, clock).1;
      } else {
        assert forall j :: 0 <= j < i ==> users[..i][j] == users[j];
      }
    }
  }

  /** A lookup that `LookupUsers` runs answers with a non-empty identifier exactly when a
      lone `GetUserID` from the state on entry would, and then with the same one. */
  lemma AnswerFoundAlone(s: CacheState, b: Backends, users: seq<string>, prefix: string,
                         clock: Clock, i: nat)
    requires i < |users|
    ensures var a := Answers(s, b, users, prefix, clock)[i];
      var alone := LookupStep(s, b, users[i], prefix, clock).1;
      (a.Returned? && a.value != Empty <==> alone.Returned? && alone.value != Empty)
      && (a.Returned? && a.value != Empty ==> a == alone)
  {
    AnswerAt(s, b, users, prefix, clock, i);
  }

  /** `LookupUsers` raises exactly when one of its lookups raises. */
  lemma LookupAllRaises(s: CacheState, b: Backends, users: seq<string>, prefix: string, clock: Clock)
    ensures LookupAll(s, b, users, prefix, clock).1.Raised? <==>
      exists i :: 0 <= i < |users| && Answers(s, b, users, prefix, clock)[i].Raised?
  {
    CollectRaises(users, Answers(s, b, users, prefix, clock));
  }

  /** Every pair `LookupUsers` returns carries a name it was given, in order, with the "D"
      text of the non-empty identifier a lone `GetUserID` of that name would answer from
      the state on entry; there are no more pairs than names. */
  lemma LookupAllSound(s: CacheState, b: Backends, users: seq<string>, prefix: string, clock: Clock)
    requires LookupAll(s, b, users, prefix, clock).1.Returned?
    ensures var found := LookupAll(s, b, users, prefix, clock).1.value;
      && Subsequence(Names(found), users) && |found| <= |users|
      && forall k :: 0 <= k < |found| ==>
           var alone := LookupStep(s, b, found[k].name, prefix, clock).1;
           alone.Returned? && alone.value != Empty && found[k].id == FormatD(alone.value)
  {
    var answers := Answers(s, b, users, prefix, clock);
    CollectSound(users, answers);
    var found := Collect(users, answers).value;
    forall k | 0 <= k < |found|
      ensures var alone := LookupStep(s, b, found[k].name, prefix, clock).1;
        alone.Returned? && alone.value != Empty && found[k].id == FormatD(alone.value)
    {
      var i :| 0 <= i < |users| && answers[i].Returned? && answers[i].value != Empty
        && found[k] == SimpleUser(users[i], FormatD(answers[i].value));
      AnswerFoundAlone(s, b, users, prefix, clock, i);
    }
  }

  /** Every name a lone `GetUserID` from the state on entry would find is returned with
      that identifier's "D" text, when `LookupUsers` returns. */
  lemma LookupAllComplete(s: CacheState, b: Backends, users: seq<string>, prefix: string,
                          clock: Clock, i: nat)
    requires LookupAll(s, b, users, prefix, clock).1.Returned?
    requires i < |users|
    requires LookupStep(s, b, users[i], prefix, clock).1.Returned?
    requires LookupStep(s, b, users[i], prefix, clock).1.value != Empty
    ensures SimpleUser(users[i], FormatD(LookupStep(s, b, users[i], prefix, clock).1.value))
      in LookupAll(s, b, users, prefix, clock).1.value
  {
    AnswerFoundAlone(s, b, users, prefix, clock, i);
    CollectComplete(users, Answers(s, b, users, prefix, clock), i);
  }

  /** Looking up a list of names never removes or alters a cache entry or a miss entry,
      and adds at most one cache entry and one request per name. */
  lemma LookupAllGrows(s: CacheState, b: Backends, users: seq<string>, prefix: string, clock: Clock)
    ensures var t := LookupAll(s, b, users, prefix, clock).0;
      && |s.cache| <= |t.cache| <= |s.cache| + |users| && t.cache[..|s.cache|] == s.cache
      && s.misses.Keys <= t.misses.Keys
      && |s.requests| <= |t.requests| <= |s.requests| + |users|
  {
    var (started, ps) := StartAll(s, b, users, prefix, clock);
    FinishAllGrows(started, users, ps, clock);
  }

  /** Starting the lookups of a name listed twice, unknown to the cache and not blocked:
      both send the same request, and both wait for the same reply. */
  lemma StartTwice(s: CacheState, b: Backends, name: string, prefix: string, clock: Clock)
    requires FirstNamed(s.cache, name).None? && !Blocked(s.misses, name, clock.now)
    ensures var started := StartAll(s, b, [name, name], prefix, clock);
      && started.0 == s.(requests := s.requests + [Route(name, prefix), Route(name, prefix)])
      && started.1 == [Querying(GetUserID(b, name, prefix)), Querying(GetUserID(b, name, prefix))]
  {
    var users, one, q := [name, name], [name], Route(name, prefix);
    assert users[..|users| - 1] == one && one[..|one| - 1] == [];
    var s1 := s.(requests := s.requests + [q]);
    assert StartAll(s, b, [], prefix, clock) == (s, []);
    assert StartAll(s, b, one, prefix, clock).0 == s1;
  }

  /** A name listed twice, unknown to the cache and the misses, whose service answers
      empty: both lookups send a request, the second one's `Dictionary.Add` raises, and so
      the whole call raises (one lone lookup after the other would instead be blocked). */
  lemma DuplicateMissRaises(s: CacheState, b: Backends, name: string, prefix: string, clock: Clock)
    requires FirstNamed(s.cache, name).None? && name !in s.misses
    requires GetUserID(b, name, prefix) == Returned(Empty)
    ensures LookupAll(s, b, [name, name], prefix, clock).1.Raised?
    ensures LookupAll(s, b, [name, name], prefix, clock).0.requests
      == s.requests + [Route(name, prefix), Route(name, prefix)]
    ensures LookupAll(s, b, [name, name], prefix, clock).0.misses == s.misses[name := clock.now]
  {
    StartTwice(s, b, name, prefix, clock);
    var users, one := [name, name], [name];
    var started := StartAll(s, b, users, prefix, clock).0;
    var p := Querying(Returned(Empty));
    var ps, p1 := [p, p], [p];
    assert users[..|users| - 1] == one && one[..|one| - 1] == [];
    assert ps[..|ps| - 1] == p1 && p1[..|p1| - 1] == [];
    var missed := started.(misses := s.misses[name := clock.now]);
    assert FinishAll(started, [], [], clock) == (started, []);
    assert FinishAll(started, one, p1, clock).0 == missed;
    assert FinishAll(started, users, ps, clock).0 == missed
      && FinishAll(started, users, ps, clock).1 == [Returned(Empty), Raised];
    assert Answers(s, b, users, prefix, clock)[1].Raised?;
    LookupAllRaises(s, b, users, prefix, clock);
  }

  /** Finishing two lookups of the same name that both got the same non-empty identifier
      appends two equal entries. */
  lemma FinishTwiceFound(s: CacheState, name: string, g: Guid, clock: Clock)
    requires g != Empty
    ensures var p := Querying(Returned(g));
      var e := NewEntry(name, FormatD(g), clock);
      && FinishAll(s, [name, name], [p, p], clock).0 == s.(cache := s.cache + [e, e])
      && FinishAll(s, [name, name], [p, p], clock).1 == [Returned(g), Returned(g)]
  {
    var users, one := [name, name], [name];
    var p := Querying(Returned(g));
    var ps, p1 := [p, p], [p];
    assert users[..|users| - 1] == one && one[..|one| - 1] == [];
    assert ps[..|ps| - 1] == p1 && p1[..|p1| - 1] == [];
    var e := NewEntry(name, FormatD(g), clock);
    assert FinishAll(s, [], [], clock) == (s, []);
    assert FinishAll(s, one, p1, clock).0 == s.(cache := s.cache + [e]);
  }

  /** Two non-empty answers for a name listed twice are collected as two equal pairs. */
  lemma CollectTwice(name: string, g: Guid)
    requires g != Empty
    ensures Collect([name, name], [Returned(g), Returned(g)])
      == Returned([SimpleUser(name, FormatD(g)), SimpleUser(name, FormatD(g))])
  {
    var users, one := [name, name], [name];
    var answers: seq<Outcome<Guid>>, a1: seq<Outcome<Guid>> := [Returned(g), Returned(g)], [Returned(g)];
    assert users[..|users| - 1] == one && one[..|one| - 1] == [];
    assert answers[..|answers| - 1] == a1 && a1[..|a1| - 1] == [];
    var u := SimpleUser(name, FormatD(g));
    assert Collect(one[..|one| - 1], a1[..|a1| - 1]) == Returned([]);
    assert a1[|a1| - 1] == Returned(g) && one[|one| - 1] == name;
    assert Collect(one, a1) == Returned([] + [u]);
    assert [] + [u] == [u];
    assert Collect(one, a1) == Returned([u]);
    assert answers[|answers| - 1] == Returned(g) && users[|users| - 1] == name;
    assert Collect(users[..|users| - 1], answers[..|answers| - 1]) == Returned([u]);
    assert Collect(users, answers) == Returned([u] + [u]);
    assert [u] + [u] == [u, u];
  }

  /** A name listed twice, unknown to the cache and not blocked, whose service finds it:
      both lookups send a request and both append a cache entry, and the name is
      returned twice. */
  lemma DuplicateFoundTwice(s: CacheState, b: Backends, name: string, prefix: string, clock: Clock)
    requires FirstNamed(s.cache, name).None? && !Blocked(s.misses, name, clock.now)
    requires GetUserID(b, name, prefix).Returned? && GetUserID(b, name, prefix).value != Empty
    ensures var g := GetUserID(b, name, prefix).value;
      var e := NewEntry(name, FormatD(g), clock);
      var t := LookupAll(s, b, [name, name], prefix, clock).0;
      && t.requests == s.requests + [Route(name, prefix), Route(name, prefix)]
      && t.cache == s.cache + [e, e]
    ensures var g := GetUserID(b, name, prefix).value;
      LookupAll(s, b, [name, name], prefix, clock).1
        == Returned([SimpleUser(name, FormatD(g)), SimpleUser(name, FormatD(g))])
  {
    var g := GetUserID(b, name, prefix).value;
    StartTwice(s, b, name, prefix, clock);
    FinishTwiceFound(StartAll(s, b, [name, name], prefix, clock).0, name, g, clock);
    CollectTwice(name, g);
  }

  /** The user that joined, if the event carried one: its name and identifier text. */
  datatype JoinedUser = JoinedUser(name: string, uid: string)

  /** The cache after `UserCache_OnUserJoins`. */
  function Joined(cache: seq<UserCacheEntry>, user: Option<JoinedUser>, clock: Clock)
    : seq<UserCacheEntry>
  {
    match user
    case None => cache
    case Some(u) =>
      match FirstWhere(cache, ByUser(u.name, u.uid))
      case Some(k) => cache[k := cache[k].(expiresOn := clock.monthLater)]
      case None => cache + [NewEntry(u.name, u.uid, clock)]
  }

  /** After a join the cache holds an entry for the user that expires a month from now;
      an existing entry for the same name and identifier has only its expiry changed,
      otherwise one entry is appended; no other entry changes. */
  lemma JoinRefreshesOrAppends(cache: seq<UserCacheEntry>, u: JoinedUser, clock: Clock)
    ensures var c := Joined(cache, Some(u), clock);
      && UserCacheEntry(u.name, u.uid, clock.monthLater) in c
      && (|c| == |cache| || c == cache + [UserCacheEntry(u.name, u.uid, clock.monthLater)])
      && forall j :: 0 <= j < |cache| && c[j] != cache[j] ==>
           c[j] == cache[j].(expiresOn := clock.monthLater)
           && cache[j].name == u.name && cache[j].uuid == u.uid
  {
    var c := Joined(cache, Some(u), clock);
    var k := FirstWhere(cache, ByUser(u.name, u.uid));
    if k.None? {
      assert c[|cache|] == UserCacheEntry(u.name, u.uid, clock.monthLater);
    } else {
      assert c[k.value] == UserCacheEntry(u.name, u.uid, clock.monthLater);
    }
  }

  /** A second join of the same user at the same time changes nothing more. */
  lemma JoinIdempotent(cache: seq<UserCacheEntry>, user: Option<JoinedUser>, clock: Clock)
    ensures Joined(Joined(cache, user, clock), user, clock) == Joined(cache, user, clock)
  {
    if user.Some? {
      var u := user.value;
      var p := ByUser(u.name, u.uid);
      var c := Joined(cache, user, clock);
      var k := FirstWhere(cache, p);
      var k2 := FirstWhere(c, p);
      if k.Some? {
        assert Matches(c[k.value], p);
        assert forall j :: 0 <= j < k.value ==> c[j] == cache[j];
        assert k2 == k;
      } else {
        assert Matches(c[|cache|], p);
        assert forall j :: 0 <= j < |cache| ==> c[j] == cache[j];
        assert k2 == Some(|cache|);
      }
    }
  }

  /** The cache object: `_cache`, `_lookupMisses`, and a record of the requests sent and
      of the lists written to the cache file. */
  class UserCache {
    var cache: seq<UserCacheEntry>
    var misses: map<string, int>
    var requests: seq<Request>
    var written: seq<seq<UserCacheEntry>>

    function State(): CacheState
      reads this
    {
      CacheState(cache, misses, requests)
    }

    /** The constructor loads the cache file; a load that raises leaves no object. */
    constructor (file: CacheFile, now: int)
      requires Loaded(file, now).Returned?
      ensures cache == Loaded(file, now).value
      ensures misses == map[] && requests == [] && written == []
    {
      var loaded := ReadUserCacheJSON(file, now);
      cache := loaded.value;
      misses := map[];
      requests := [];
      written := [];
    }

    /** `RefreshUserCache`: the cache is replaced by what the file holds now; when the
        read raises, the exception escapes before the assignment. */
    method RefreshUserCache(file: CacheFile, now: int) returns (r: Outcome<()>)
      modifies this`cache
      ensures r.Raised? <==> file.Absent?
      ensures r.Returned? ==> cache == Loaded(file, now).value
      ensures r.Raised? ==> cache == old(cache)
    {
      var loaded := ReadUserCacheJSON(file, now);
      if loaded.Raised? {
        return Raised;
      }
      cache := loaded.value;
      r := Returned(());
    }

    /** `WriteUserCacheJSON`: with a handle (to an existing file or not) the cache is
        written, and without one nothing happens. */
    method WriteUserCacheJSON(file: CacheFile) returns (after: CacheFile)
      modifies this`written
      ensures after == WriteCache(file, cache)
      ensures written == old(written) + if file.NoHandle? then [] else [cache]
    {
      after := file;
      if !file.NoHandle? {
        var c := cache;
        written := written + [c];
        after := Stored(seq(|c|, i requires 0 <= i < |c| =>
                              StoredEntry(c[i].name, c[i].uuid, Some(c[i].expiresOn))));
      }
    }

    /** `UserCache_OnUserJoins`. */
    method OnUserJoins(user: Option<JoinedUser>, clock: Clock)
      modifies this`cache
      ensures cache == Joined(old(cache), user, clock)
    {
      if user.None? {
        return;
      }
      var u := user.value;
      ghost var p := ByUser(u.name, u.uid);
      var i := 0;
      while i < |cache| && !(cache[i].name == u.name && cache[i].uuid == u.uid)
        invariant 0 <= i <= |cache|
        invariant forall j :: 0 <= j < i ==> !Matches(cache[j], p)
      {
        i := i + 1;
      }
      ghost var k := FirstWhere(cache, p);
      if i < |cache| {
        assert Matches(cache[i], p);
        cache := cache[i := cache[i].(expiresOn := clock.monthLater)];
      } else {
        cache := cache + [NewEntry(u.name, u.uid, clock)];
      }
    }

    /** The part of `GetUserID` before its first wait. */
    method StartLookup(b: Backends, username: string, prefix: string, clock: Clock)
      returns (p: Pending)
      modifies this`requests
      ensures (State(), p) == Start(old(State()), b, username, prefix, clock)
    {
      if username in misses && misses[username] > clock.now - MissWindow {
        return Settled(Returned(Empty));
      }
      var i := 0;
      while i < |cache| && cache[i].name != username
        invariant 0 <= i <= |cache|
        invariant forall j :: 0 <= j < i ==> cache[j].name != username
      {
        i := i + 1;
      }
      ghost var key := ByName(username);
      ghost var k := FirstWhere(cache, key);
      if i < |cache| {
        assert Matches(cache[i], key);
        var parsed := ParseD(cache[i].uuid);
        return Settled(if parsed.Some? then Returned(parsed.value) else Raised);
      }
      requests := requests + [Route(username, prefix)];
      p := Querying(ManagementUtils.GetUserID(b, username, prefix));
    }

    /** The part of `GetUserID` after the reply. */
    method FinishLookup(username: string, p: Pending, clock: Clock) returns (r: Outcome<Guid>)
      modifies this`cache, this`misses
      ensures (State(), r) == Finish(old(State()), username, p, clock)
    {
      if p.Settled? {
        return p.answer;
      }
      if p.reply.Raised? {
        return Raised;
      }
      var g := p.reply.value;
      if g != Empty {
        cache := cache + [NewEntry(username, FormatD(g), clock)];
      } else if username in misses {
        return Raised;
      } else {
        misses := misses[username := clock.now];
      }
      r := Returned(g);
    }

    /** `GetUserID`. */
    method GetUserID(b: Backends, username: string, prefix: string, clock: Clock)
      returns (r: Outcome<Guid>)
      modifies this`cache, this`misses, this`requests
      ensures (State(), r) == LookupStep(old(State()), b, username, prefix, clock)
    {
      var p := StartLookup(b, username, prefix, clock);
      r := FinishLookup(username, p, clock);
    }

    /** The first half of `LookupUsers`: the lookup of every name is started, in list
        order. */
    method StartLookups(b: Backends, users: seq<string>, prefix: string, clock: Clock)
      returns (pending: seq<Pending>)
      modifies this`requests
      ensures (State(), pending) == StartAll(old(State()), b, users, prefix, clock)
    {
      pending := [];
      var i := 0;
      while i < |users|
        invariant 0 <= i <= |users|
        invariant (State(), pending) == StartAll(old(State()), b, users[..i], prefix, clock)
      {
        assert users[..i + 1][..i] == users[..i];
        var p := StartLookup(b, users[i], prefix, clock);
        pending := pending + [p];
        i := i + 1;
      }
      assert users[..i] == users;
    }

    /** The second half of `LookupUsers`: each lookup finishes and its non-empty
        identifier is collected. */
    method FinishLookups(users: seq<string>, pending: seq<Pending>, clock: Clock)
      returns (answers: seq<Outcome<Guid>>, found: Outcome<seq<SimpleUser>>)
      requires |pending| == |users|
      modifies this`cache, this`misses
      ensures (State(), answers) == FinishAll(old(State()), users, pending, clock)
      ensures found == Collect(users, answers)
    {
      answers := [];
      var collected: seq<SimpleUser> := [];
      var faulted := false;
      var i := 0;
      while i < |users|
        invariant 0 <= i <= |users|
        invariant (State(), answers) == FinishAll(old(State()), users[..i], pending[..i], clock)
        invariant (if faulted then Raised else Returned(collected)) == Collect(users[..i], answers)
      {
        assert users[..i + 1][..i] == users[..i] && pending[..i + 1][..i] == pending[..i];
        var a := FinishLookup(users[i], pending[i], clock);
        answers := answers + [a];
        assert answers[..i] == answers[..|answers| - 1];
        if a.Raised? {
          faulted := true;
        } else if a.value != Empty {
          collected := collected + [SimpleUser(users[i], FormatD(a.value))];
        }
        i := i + 1;
      }
      assert users[..i] == users && pending[..i] == pending;
      found := if faulted then Raised else Returned(collected);
    }

    /** `LookupUsers`: every lookup is started, then each finishes and its non-empty
        identifier is collected; the cache file is written once afterwards, unless a
        lookup raised. */
    method LookupUsers(b: Backends, users: seq<string>, prefix: string, clock: Clock,
                       file: CacheFile)
      returns (r: Outcome<seq<SimpleUser>>)
      modifies this`cache, this`misses, this`requests, this`written
      ensures (State(), r) == LookupAll(old(State()), b, users, prefix, clock)
      ensures written == old(written) + if r.Returned? && !file.NoHandle? then [cache] else []
    {
      var pending := StartLookups(b, users, prefix, clock);
      var answers, found := FinishLookups(users, pending, clock);
      assert answers == Answers(old(State()), b, users, prefix, clock);
      if found.Raised? {
        return Raised;
      }
      var _ := WriteUserCacheJSON(file);
      r := found;
    }
  }
}
