/** Values shared by the plugin's components: optional values, exceptions that escape a
    call, the host's action results and setting values, and the name/id pairs the
    identity lookups produce. */
module Common {

  datatype Option<+T> = None | Some(value: T)
  {
    function GetOr(default: T): T
    {
      match this
      case Some(v) => v
      case None => default
    }
  }

  /** The result of a call that may end in an exception the code does not catch. */
  datatype Outcome<+T> = Returned(value: T) | Raised

  /** The host's `ActionResult`: `ActionResult.Success` or `ActionResult.FailureReason(..)`. */
  datatype ActionResult = Success | FailureReason(reason: string)

  /** The host's `MCConfig.ServerType` enum; only Forge and NeoForge are distinguished
      by the plugin, every other member is carried by name. */
  datatype ServerType = Forge | NeoForge | OtherServerType(name: string)

  /** A value placed in a settings dictionary pushed to the host and the UI. */
  datatype SettingValue =
    | Flag(enabled: bool)
    | Text(text: string)
    | NameList(names: seq<string>)
    | ServerTypeSetting(serverType: ServerType)

  /** `SimpleUser`: a player name with the textual form of its identifier. */
  datatype SimpleUser = SimpleUser(name: string, id: string)

  function Names(users: seq<SimpleUser>): (names: seq<string>)
    ensures |names| == |users|
    ensures forall i :: 0 <= i < |users| ==> names[i] == users[i].name
  {
    if users == [] then [] else [users[0].name] + Names(users[1..])
  }

  /** `a` can be obtained from `b` by deleting elements, keeping the order of the rest. */
  predicate Subsequence<T(==)>(a: seq<T>, b: seq<T>)
    decreases |b|
  {
    if a == [] then true
    else if b == [] then false
    else if a[0] == b[0] then Subsequence(a[1..], b[1..])
    else Subsequence(a, b[1..])
  }

  lemma {:induction false} SubsequenceLength<T>(a: seq<T>, b: seq<T>)
    requires Subsequence(a, b)
    ensures |a| <= |b|
  {
    if a != [] {
      if a[0] == b[0] {
        SubsequenceLength(a[1..], b[1..]);
      } else {
        SubsequenceLength(a, b[1..]);
      }
    }
  }

  lemma {:induction false} SubsequenceMembers<T>(a: seq<T>, b: seq<T>)
    requires Subsequence(a, b)
    ensures forall x :: x in a ==> x in b
  {
    if a != [] {
      if a[0] == b[0] {
        SubsequenceMembers(a[1..], b[1..]);
        assert forall x :: x in a ==> x == a[0] || x in a[1..];
      } else {
        SubsequenceMembers(a, b[1..]);
      }
    }
  }

  /** Dropping the next element of `b` keeps `a` a subsequence. */
  lemma {:induction false} SubsequenceSkip<T>(a: seq<T>, b: seq<T>, x: T)
    requires Subsequence(a, b)
    ensures Subsequence(a, b + [x])
  {
    if a != [] {
      assert (b + [x])[0] == b[0];
      assert (b + [x])[1..] == b[1..] + [x];
      if a[0] == b[0] {
        SubsequenceSkip(a[1..], b[1..], x);
      } else {
        SubsequenceSkip(a, b[1..], x);
      }
    }
  }

  /** Keeping the next element of `b` extends the subsequence by that element. */
  lemma {:induction false} SubsequenceKeep<T>(a: seq<T>, b: seq<T>, x: T)
    requires Subsequence(a, b)
    ensures Subsequence(a + [x], b + [x])
    decreases |b|
  {
    if a == [] {
      SubsequenceOfOne(b, x);
      assert a + [x] == [x];
    } else {
      assert (a + [x])[0] == a[0] && (a + [x])[1..] == a[1..] + [x];
      assert (b + [x])[0] == b[0] && (b + [x])[1..] == b[1..] + [x];
      if a[0] == b[0] {
        SubsequenceKeep(a[1..], b[1..], x);
      } else {
        SubsequenceKeep(a, b[1..], x);
      }
    }
  }

  lemma {:induction false} SubsequenceOfOne<T>(b: seq<T>, x: T)
    ensures Subsequence([x], b + [x])
    decreases |b|
  {
    if b != [] {
      assert (b + [x])[1..] == b[1..] + [x];
      if x != b[0] {
        SubsequenceOfOne(b[1..], x);
      }
    } else {
      assert b + [x] == [x];
    }
  }

  /** Dropping the first element of `b` keeps a subsequence of its tail a subsequence. */
  lemma SubsequenceDropHead<T>(a: seq<T>, b: seq<T>)
    requires b != [] && Subsequence(a, b[1..])
    ensures Subsequence(a, b)
    decreases |b|, 0
  {
    if a != [] && a[0] == b[0] {
      SubsequenceTail(a, b[1..]);
    }
  }

  lemma {:induction false} SubsequenceTail<T>(a: seq<T>, b: seq<T>)
    requires a != [] && Subsequence(a, b)
    ensures Subsequence(a[1..], b)
    decreases |b|, 1
  {
    if a[0] == b[0] {
      SubsequenceDropHead(a[1..], b);
    } else {
      SubsequenceTail(a, b[1..]);
      SubsequenceDropHead(a[1..], b);
    }
  }
}
