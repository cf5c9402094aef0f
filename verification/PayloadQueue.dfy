/** The agent's queue of relayed payloads and the scan that takes one kind out of it. */
module PayloadQueue {
  import opened Protocol
  import opened Base58
  import opened Envelope

  /** The cipher suite and session key a queue is read with. */
  datatype Reader = Reader(suite: Suite, key: bytes)

  /** The kind of an entry; None if any step of reading it throws. */
  function KindAt(r: Reader, p: Sealed): Option<Kind> {
    match Peek(r.suite, r.key, p.payload)
    case None => None
    case Some(e) => Some(KindOf(e))
  }

  /** The entries that decode, in order. */
  function Kept(r: Reader, q: seq<Sealed>): (kept: seq<Sealed>)
    ensures |kept| <= |q|
  {
    if q == [] then []
    else if KindAt(r, q[|q| - 1]).Some? then Kept(r, q[..|q| - 1]) + [q[|q| - 1]]
    else Kept(r, q[..|q| - 1])
  }

  /** Exactly the readable entries stay, as often as they were there and in their order. */
  lemma {:induction false} KeptMeans(r: Reader, q: seq<Sealed>, x: Sealed, y: Sealed)
    ensures multiset(Kept(r, q))[x] == if KindAt(r, x).Some? then multiset(q)[x] else 0
    ensures KindAt(r, x).Some? && KindAt(r, y).Some? ==> Kept(r, q + [x] + [y]) == Kept(r, q) + [x] + [y]
  {
    hide KindAt;
    if q != [] {
      KeptMeans(r, q[..|q| - 1], x, y);
      assert q == q[..|q| - 1] + [q[|q| - 1]];
    }
    KeptConcat(r, q + [x], [y]);
    KeptConcat(r, q, [x]);
    KeptOne(r, x);
    KeptOne(r, y);
  }

  predicate NoneWanted(r: Reader, q: seq<Sealed>, want: Kind) {
    forall i :: 0 <= i < |q| ==> KindAt(r, q[i]) != Some(want)
  }

  /** Index of the first wanted entry, or the length. */
  function First(r: Reader, q: seq<Sealed>, want: Kind): (j: nat)
    ensures j <= |q|
    ensures j < |q| ==> KindAt(r, q[j]) == Some(want)
    ensures forall i :: 0 <= i < j ==> KindAt(r, q[i]) != Some(want)
  {
    if q == [] || KindAt(r, q[0]) == Some(want) then 0 else 1 + First(r, q[1..], want)
  }

  /** One scan: the first wanted entry leaves the queue, and so do the unreadable
      ones passed on the way; everything else stays in order. */
  function Scan(r: Reader, q: seq<Sealed>, want: Kind): (Option<Sealed>, seq<Sealed>) {
    var j := First(r, q, want);
    if j < |q| then (Some(q[j]), Kept(r, q[..j]) + q[j + 1..]) else (None, Kept(r, q))
  }

  lemma ScanFinds(r: Reader, a: seq<Sealed>, x: Sealed, b: seq<Sealed>, want: Kind)
    requires NoneWanted(r, a, want) && KindAt(r, x) == Some(want)
    ensures First(r, a + [x] + b, want) == |a|
    ensures Scan(r, a + [x] + b, want) == (Some(x), Kept(r, a) + b)
  {
    hide KindAt, Kept;
    var q := a + [x] + b;
    var j := First(r, q, want);
    assert q[|a|] == x;
    assert forall n :: 0 <= n < |a| ==> q[n] == a[n];
    assert q[..|a|] == a && q[|a| + 1..] == b;
  }

  lemma ScanFindsNone(r: Reader, q: seq<Sealed>, want: Kind)
    requires NoneWanted(r, q, want)
    ensures First(r, q, want) == |q|
    ensures Scan(r, q, want) == (None, Kept(r, q))
  {
    hide KindAt, Kept;
  }

  lemma {:induction false} KeptConcat(r: Reader, a: seq<Sealed>, b: seq<Sealed>)
    ensures Kept(r, a + b) == Kept(r, a) + Kept(r, b)
  {
    hide KindAt;
    if b == [] {
      assert a + b == a;
    } else {
      assert (a + b)[..|a + b| - 1] == a + b[..|b| - 1];
      KeptConcat(r, a, b[..|b| - 1]);
    }
  }

  lemma KeptOne(r: Reader, x: Sealed)
    ensures Kept(r, [x]) == if KindAt(r, x).Some? then [x] else []
  {
    hide KindAt;
    assert [x][..0] == [];
  }

  lemma {:induction false} KeptTwice(r: Reader, q: seq<Sealed>)
    ensures Kept(r, Kept(r, q)) == Kept(r, q)
  {
    hide KindAt;
    if q != [] {
      KeptTwice(r, q[..|q| - 1]);
      var last := q[|q| - 1];
      KeptConcat(r, Kept(r, q[..|q| - 1]), [last]);
      KeptOne(r, last);
    }
  }

  lemma {:induction false} KeptHasNone(r: Reader, q: seq<Sealed>, want: Kind)
    requires NoneWanted(r, q, want)
    ensures NoneWanted(r, Kept(r, q), want)
  {
    hide KindAt;
    if q != [] {
      KeptHasNone(r, q[..|q| - 1], want);
    }
  }

  /** Scanning again after more has arrived is scanning everything at once. */
  lemma ScanAgain(r: Reader, a: seq<Sealed>, b: seq<Sealed>, want: Kind)
    requires NoneWanted(r, a, want)
    ensures Scan(r, Kept(r, a) + b, want) == Scan(r, a + b, want)
  {
    hide KindAt, Kept, Scan, NoneWanted;
    KeptHasNone(r, a, want);
    KeptTwice(r, a);
    var j := First(r, b, want);
    NoneBeforeFirst(r, b, want);
    if j < |b| {
      ScanPast(r, a, b[..j], b[j], b[j + 1..], want);
      ScanPast(r, Kept(r, a), b[..j], b[j], b[j + 1..], want);
      assert b == b[..j] + [b[j]] + b[j + 1..];
    } else {
      assert b == b[..j];
      NoneInConcat(r, a, b, want);
      NoneInConcat(r, Kept(r, a), b, want);
      ScanFindsNone(r, a + b, want);
      ScanFindsNone(r, Kept(r, a) + b, want);
      KeptConcat(r, a, b);
      KeptConcat(r, Kept(r, a), b);
    }
  }

  lemma NoneBeforeFirst(r: Reader, q: seq<Sealed>, want: Kind)
    ensures NoneWanted(r, q[..First(r, q, want)], want)
  {
    hide KindAt;
  }

  lemma NoneInConcat(r: Reader, a: seq<Sealed>, b: seq<Sealed>, want: Kind)
    ensures NoneWanted(r, a + b, want) <==> NoneWanted(r, a, want) && NoneWanted(r, b, want)
  {
    hide KindAt;
    assert forall n :: 0 <= n < |a| ==> (a + b)[n] == a[n];
    assert forall n :: 0 <= n < |b| ==> (a + b)[|a| + n] == b[n];
  }

  lemma NoneInOne(r: Reader, x: Sealed, want: Kind)
    ensures NoneWanted(r, [x], want) <==> KindAt(r, x) != Some(want)
  {
    hide KindAt;
    assert [x][0] == x;
  }

  lemma NothingKept(r: Reader, want: Kind)
    ensures Kept(r, []) == [] && NoneWanted(r, [], want)
  {
  }

  lemma ScanPast(r: Reader, a: seq<Sealed>, pre: seq<Sealed>, x: Sealed, post: seq<Sealed>, want: Kind)
    requires NoneWanted(r, a, want) && NoneWanted(r, pre, want) && KindAt(r, x) == Some(want)
    ensures Scan(r, a + (pre + [x] + post), want) == (Some(x), Kept(r, a) + Kept(r, pre) + post)
  {
    hide KindAt, Kept, Scan, NoneWanted;
    NoneInConcat(r, a, pre, want);
    ScanFinds(r, a + pre, x, post, want);
    KeptConcat(r, a, pre);
    assert a + (pre + [x] + post) == a + pre + [x] + post;
  }

  lemma SplitAround(q: seq<Sealed>, j: nat)
    requires j < |q|
    ensures q == q[..j] + [q[j]] + q[j + 1..] && q[..j + 1] == q[..j] + [q[j]]
  {
  }

  lemma OneMoreLooked(r: Reader, q: seq<Sealed>, k: nat, want: Kind)
    requires k < |q|
    ensures q == q[..k] + [q[k]] + q[k + 1..]
    ensures Kept(r, q[..k + 1]) == Kept(r, q[..k]) + if KindAt(r, q[k]).Some? then [q[k]] else []
    ensures NoneWanted(r, q[..k + 1], want) <==> NoneWanted(r, q[..k], want) && KindAt(r, q[k]) != Some(want)
  {
    hide KindAt, Kept, NoneWanted;
    SplitAround(q, k);
    KeptConcat(r, q[..k], [q[k]]);
    KeptOne(r, q[k]);
    NoneInConcat(r, q[..k], [q[k]], want);
    NoneInOne(r, q[k], want);
  }

  /** `q` is split around its first wanted entry `x`, and a scan leaves `rest`. */
  ghost predicate TakenFrom(r: Reader, q: seq<Sealed>, want: Kind, x: Sealed, rest: seq<Sealed>,
                            a: seq<Sealed>, b: seq<Sealed>)
  {
    && q == a + [x] + b && NoneWanted(r, a, want) && KindAt(r, x) == Some(want)
    && Kept(r, q) == Kept(r, a) + [x] + Kept(r, b)
    && rest == Kept(r, a) + b
  }

  /** A scan finds something exactly when a wanted entry is queued: the first one.
      Of the readable entries it removes that one and nothing else. */
  lemma ScanConserves(r: Reader, q: seq<Sealed>, want: Kind)
    ensures var (found, rest) := Scan(r, q, want);
            && (found.None? <==> NoneWanted(r, q, want))
            && (found.None? ==> rest == Kept(r, q))
            && (found.Some? ==> exists a, b :: TakenFrom(r, q, want, found.value, rest, a, b))
  {
    hide KindAt, Kept, NoneWanted, First;
    var j := First(r, q, want);
    if j < |q| {
      var a, b := q[..j], q[j + 1..];
      SplitAround(q, j);
      KeptConcat(r, a + [q[j]], b);
      KeptConcat(r, a, [q[j]]);
      KeptOne(r, q[j]);
      NoneBeforeFirst(r, q, want);
      WantedIsWanted(r, q, j, want);
      assert TakenFrom(r, q, want, q[j], Kept(r, a) + b, a, b);
    } else {
      assert q[..j] == q;
      NoneBeforeFirst(r, q, want);
    }
  }

  lemma WantedIsWanted(r: Reader, q: seq<Sealed>, j: nat, want: Kind)
    requires j < |q| && KindAt(r, q[j]) == Some(want)
    ensures !NoneWanted(r, q, want)
  {
    hide KindAt;
  }

  /** Scanning for `k1` and then `k2`, or the other way round, finds the same entries
      and leaves the same queue. */
  predicate Commute(r: Reader, q: seq<Sealed>, k1: Kind, k2: Kind) {
    var (x1, q1) := Scan(r, q, k1);
    var (x2, q2) := Scan(r, q, k2);
    Scan(r, q1, k2).0 == x2 && Scan(r, q2, k1).0 == x1 && Scan(r, q1, k2).1 == Scan(r, q2, k1).1
  }

  /** Two waiters for different kinds get the same entries, or nothing, and leave the
      same queue, whichever scans first. */
  lemma ScansCommute(r: Reader, q: seq<Sealed>, k1: Kind, k2: Kind)
    requires k1 != k2
    ensures Commute(r, q, k1, k2)
  {
    hide KindAt, First, Scan, Kept;
    var i, j := First(r, q, k1), First(r, q, k2);
    if i < |q| && j < |q| {
      if i < j {
        BothQueued(r, q, k1, k2);
      } else {
        BothQueued(r, q, k2, k1);
      }
    } else if i < |q| {
      OneQueued(r, q, k1, k2);
    } else if j < |q| {
      OneQueued(r, q, k2, k1);
    } else {
      NeitherQueued(r, q, k1, k2);
    }
  }

  lemma NeitherQueued(r: Reader, q: seq<Sealed>, k1: Kind, k2: Kind)
    requires First(r, q, k1) == First(r, q, k2) == |q|
    ensures Commute(r, q, k1, k2)
  {
    hide KindAt, Kept, Scan, First;
    NoneBeforeFirst(r, q, k1);
    NoneBeforeFirst(r, q, k2);
    assert q[..|q|] == q;
    KeptHasNone(r, q, k1);
    KeptHasNone(r, q, k2);
    ScanFindsNone(r, q, k1);
    ScanFindsNone(r, q, k2);
    ScanFindsNone(r, Kept(r, q), k1);
    ScanFindsNone(r, Kept(r, q), k2);
  }

  /** A kind that is not queued is not found, before or after the other is taken. */
  lemma OneQueued(r: Reader, q: seq<Sealed>, k1: Kind, k2: Kind)
    requires First(r, q, k1) < |q| == First(r, q, k2)
    ensures Commute(r, q, k1, k2)
  {
    hide KindAt, Kept, Scan, First, NoneWanted;
    var i := First(r, q, k1);
    var a, x, b := q[..i], q[i], q[i + 1..];
    SplitAround(q, i);
    NoneBeforeFirst(r, q, k1);
    NoneBeforeFirst(r, q, k2);
    assert q[..|q|] == q;
    NoneInConcat(r, a + [x], b, k2);
    NoneInConcat(r, a, [x], k2);
    ScanFinds(r, a, x, b, k1);
    ScanFindsNone(r, q, k2);
    KeptHasNone(r, a, k2);
    KeptHasNone(r, a, k1);
    KeptTwice(r, a);
    NoneInConcat(r, Kept(r, a), b, k2);
    ScanFindsNone(r, Kept(r, a) + b, k2);
    KeptConcat(r, Kept(r, a), b);
    KeptConcat(r, a + [x], b);
    KeptConcat(r, a, [x]);
    KeptOne(r, x);
    ScanFinds(r, Kept(r, a), x, Kept(r, b), k1);
  }

  lemma BothQueued(r: Reader, q: seq<Sealed>, k1: Kind, k2: Kind)
    requires First(r, q, k1) < First(r, q, k2) < |q|
    ensures Commute(r, q, k1, k2)
  {
    hide KindAt, Kept, Scan, First;
    var i, j := First(r, q, k1), First(r, q, k2);
    var a, x, b, y, rest := q[..i], q[i], q[i + 1..j], q[j], q[j + 1..];
    assert q == a + [x] + (b + [y] + rest);
    assert q == (a + [x] + b) + [y] + rest;
    assert a + [x] + b == q[..j] && a == q[..i];
    NoneBeforeFirst(r, q, k1);
    NoneBeforeFirst(r, q, k2);
    NoneInConcat(r, a + [x], b, k2);
    NoneInConcat(r, a, [x], k2);
    ScanFinds(r, a, x, b + [y] + rest, k1);
    ScanFinds(r, a + [x] + b, y, rest, k2);
    SecondScans(r, a, x, b, y, rest, k1, k2);
  }

  lemma SecondScans(r: Reader, a: seq<Sealed>, x: Sealed, b: seq<Sealed>, y: Sealed, rest: seq<Sealed>, k1: Kind, k2: Kind)
    requires NoneWanted(r, a, k1) && KindAt(r, x) == Some(k1)
    requires NoneWanted(r, a, k2) && NoneWanted(r, b, k2) && KindAt(r, y) == Some(k2)
    ensures Scan(r, Kept(r, a) + (b + [y] + rest), k2) == (Some(y), Kept(r, a) + Kept(r, b) + rest)
    ensures Scan(r, Kept(r, a + [x] + b) + rest, k1) == (Some(x), Kept(r, a) + Kept(r, b) + rest)
  {
    hide KindAt, Kept, Scan, NoneWanted;
    KeptHasNone(r, a, k2);
    KeptHasNone(r, a, k1);
    KeptTwice(r, a);
    ScanPast(r, Kept(r, a), b, y, rest, k2);
    KeptConcat(r, a + [x], b);
    KeptConcat(r, a, [x]);
    KeptOne(r, x);
    ScanFinds(r, Kept(r, a), x, Kept(r, b) + rest, k1);
    assert Kept(r, a + [x] + b) + rest == Kept(r, a) + [x] + (Kept(r, b) + rest);
    assert Kept(r, a) + (Kept(r, b) + rest) == Kept(r, a) + Kept(r, b) + rest;
  }

  datatype TakeResult = Taken(payload: Sealed) | TimedOut | StillWaiting

  const TAKE_TIMEOUT_MS := 30_000

  class PendingPayloads {
    var entries: seq<Sealed>

    constructor (queued: seq<Sealed>)
      ensures entries == queued
    {
      entries := queued;
    }

    method Push(p: Sealed)
      modifies this
      ensures entries == old(entries) + [p]
    {
      entries := entries + [p];
    }

    /** Remove one entry in place. */
    method Splice(i: nat)
      requires i < |entries|
      modifies this
      ensures entries == old(entries)[..i] + old(entries)[i + 1..]
    {
      entries := entries[..i] + entries[i + 1..];
    }

    /** Of the queue as it was, `q`, the first `k` entries have been looked at. */
    ghost predicate Looked(r: Reader, want: Kind, q: seq<Sealed>, k: int, i: int)
      reads this
    {
      && 0 <= k <= |q| && i == |Kept(r, q[..k])|
      && entries == Kept(r, q[..k]) + q[k..] && NoneWanted(r, q[..k], want)
    }

    /** The wanted entry is spliced out. */
    method Hit(r: Reader, want: Kind, i: nat, ghost q: seq<Sealed>, ghost k: nat)
      requires Looked(r, want, q, k, i) && k < |q| && KindAt(r, q[k]) == Some(want)
      modifies this
      ensures (Some(q[k]), entries) == Scan(r, q, want)
    {
      hide Kept, First, Scan, KindAt, NoneWanted;
      Splice(i);
      SplitAround(q, k);
      ScanFinds(r, q[..k], q[k], q[k + 1..], want);
      assert entries == Kept(r, q[..k]) + q[k + 1..];
    }

    /** Another entry: an unreadable one is spliced out and the index steps back. */
    method Pass(r: Reader, ghost want: Kind, i: nat, kind: Option<Kind>, ghost q: seq<Sealed>, ghost k: nat) returns (next: nat)
      requires Looked(r, want, q, k, i) && k < |q| && kind == KindAt(r, q[k]) != Some(want)
      modifies this
      ensures Looked(r, want, q, k + 1, next)
      ensures |entries| - next == old(|entries|) - i - 1
    {
      hide Kept, First, Scan, KindAt, NoneWanted;
      OneMoreLooked(r, q, k, want);
      assert q[k..] == [q[k]] + q[k + 1..];
      if kind.None? {
        Splice(i);
        assert entries == Kept(r, q[..k]) + q[k + 1..];
        return i;
      }
      return i + 1;
    }

    /** The index loop with splice-and-decrement. */
    method ScanOnce(r: Reader, want: Kind) returns (found: Option<Sealed>)
      modifies this
      ensures (found, entries) == Scan(r, old(entries), want)
    {
      hide Kept, First, Scan, KindAt, NoneWanted;
      ghost var q, k := entries, 0;
      var i := 0;
      assert q[..0] == [];
      NothingKept(r, want);
      while i < |entries|
        invariant Looked(r, want, q, k, i)
        decreases |entries| - i
      {
        var p := entries[i];
        assert p == q[k];
        var kind := KindAt(r, p);
        if kind == Some(want) {
          Hit(r, want, i, q, k);
          return Some(p);
        }
        i := Pass(r, want, i, kind, q, k);
        k := k + 1;
      }
      assert |entries| == i + |q[k..]|;
      assert q[..k] == q && q[k..] == [];
      assert entries == Kept(r, q);
      ScanFindsNone(r, q, want);
      return None;
    }
  }
}
