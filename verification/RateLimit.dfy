/** The fixed-window limit on WebSocket connections per address, call by call and
    over whole arrival sequences. */
module RateLimit {
  import opened Protocol

  const WS_RATE_WINDOW_MS := 60_000
  const WS_RATE_MAX := 30

  datatype WsRateState = WsRateState(count: nat, windowStart: int)

  /** One arrival at one address: the new counter and whether it is refused. */
  function Arrive(cur: Option<WsRateState>, now: int): (WsRateState, bool) {
    if cur.None? || now - cur.value.windowStart > WS_RATE_WINDOW_MS then (WsRateState(1, now), false)
    else
      var next := cur.value.(count := cur.value.count + 1);
      (next, next.count > WS_RATE_MAX)
  }

  // ---------- Whole sequences of arrivals at one address ----------

  predicate Ascending(times: seq<int>) {
    forall i, j :: 0 <= i <= j < |times| ==> times[i] <= times[j]
  }

  /** The counter after the arrivals. */
  function After(times: seq<int>): Option<WsRateState> {
    if times == [] then None
    else Some(Arrive(After(times[..|times| - 1]), times[|times| - 1]).0)
  }

  predicate Admitted(times: seq<int>, i: nat)
    requires i < |times|
  {
    !Arrive(After(times[..i]), times[i]).1
  }

  /** How many of the arrivals from index `a` on were admitted. */
  function AdmittedFrom(times: seq<int>, a: nat): nat
    requires a <= |times|
  {
    if |times| == a then 0
    else
      var last := |times| - 1;
      AdmittedFrom(times[..last], a) + if Admitted(times, last) then 1 else 0
  }

  // ---------- The limiter over all addresses ----------

  /** A connection attempt; one without an address, or with an empty one, is never counted. */
  datatype Arrival = Arrival(ip: Option<string>, now: int)

  predicate Counted(a: Arrival) {
    a.ip.Some? && a.ip.value != ""
  }

  /** The arrival times of one address, in order. */
  function TimesOf(arrivals: seq<Arrival>, ip: string): seq<int> {
    if arrivals == [] then []
    else
      var last := arrivals[|arrivals| - 1];
      TimesOf(arrivals[..|arrivals| - 1], ip) + if Counted(last) && last.ip.value == ip then [last.now] else []
  }

  class WsRateLimiter {
    var wsRate: map<string, WsRateState>
    ghost var arrivals: seq<Arrival>

    constructor ()
      ensures Valid() && arrivals == []
    {
      wsRate := map[];
      arrivals := [];
    }

    function StateOf(ip: string): Option<WsRateState>
      reads this
    {
      if ip in wsRate then Some(wsRate[ip]) else None
    }

    /** Every address's counter is what its own arrivals alone make it, however the
        addresses interleave. */
    ghost predicate Valid()
      reads this
    {
      forall ip :: StateOf(ip) == After(TimesOf(arrivals, ip))
    }

    /** Refused exactly when the address's own arrivals refuse it; never without an address. */
    method LimitExceeded(ip: Option<string>, now: int) returns (exceeded: bool)
      requires Valid()
      modifies this
      ensures Valid() && arrivals == old(arrivals) + [Arrival(ip, now)]
      ensures ip.None? || ip.value == "" ==> !exceeded && wsRate == old(wsRate)
      ensures exceeded <==>
                Counted(Arrival(ip, now)) && var times := TimesOf(arrivals, ip.value); !Admitted(times, |times| - 1)
    {
      hide Arrive, After, TimesOf;
      ghost var before := arrivals;
      arrivals := arrivals + [Arrival(ip, now)];
      forall x
        ensures TimesOf(arrivals, x) ==
                if Counted(Arrival(ip, now)) && ip.value == x then TimesOf(before, x) + [now] else TimesOf(before, x)
      {
        TimesOfOneMore(before, Arrival(ip, now), x);
      }
      if ip.None? || ip.value == "" {
        return false;
      }
      ghost var times := TimesOf(before, ip.value);
      OneMoreArrival(times, now);
      ArriveMeans(StateOf(ip.value), now);
      if ip.value !in wsRate || now - wsRate[ip.value].windowStart > WS_RATE_WINDOW_MS {
        wsRate := wsRate[ip.value := WsRateState(1, now)];
        return false;
      }
      wsRate := wsRate[ip.value := wsRate[ip.value].(count := wsRate[ip.value].count + 1)];
      return wsRate[ip.value].count > WS_RATE_MAX;
    }
  }

  lemma TimesOfOneMore(arrivals: seq<Arrival>, a: Arrival, ip: string)
    ensures TimesOf(arrivals + [a], ip) ==
            if Counted(a) && a.ip.value == ip then TimesOf(arrivals, ip) + [a.now] else TimesOf(arrivals, ip)
  {
    assert (arrivals + [a])[..|arrivals|] == arrivals;
  }

  lemma OneMoreArrival(times: seq<int>, now: int)
    ensures After(times + [now]) == Some(Arrive(After(times), now).0)
    ensures Admitted(times + [now], |times|) <==> !Arrive(After(times), now).1
  {
    assert (times + [now])[..|times|] == times;
  }

  lemma ArriveMeans(cur: Option<WsRateState>, now: int)
    ensures var fresh_ := cur.None? || now - cur.value.windowStart > WS_RATE_WINDOW_MS;
            Arrive(cur, now) ==
            if fresh_ then (WsRateState(1, now), false)
            else (cur.value.(count := cur.value.count + 1), cur.value.count + 1 > WS_RATE_MAX)
  {
  }

  /** The arrival that opened the window in force. */
  function Opener(times: seq<int>): (w: nat)
    requires times != []
    ensures w < |times|
  {
    var last := |times| - 1;
    if last == 0 || times[last] - times[Opener(times[..last])] > WS_RATE_WINDOW_MS then last
    else Opener(times[..last])
  }

  /** The counter holds the opener's time and the arrivals since; the last arrival
      was admitted exactly if it is among the first 30 of its window. */
  lemma {:induction false} CounterMeans(times: seq<int>)
    requires times != []
    ensures var w := Opener(times);
            && After(times) == Some(WsRateState(|times| - w, times[w]))
            && (Admitted(times, |times| - 1) <==> |times| - w <= WS_RATE_MAX)
  {
    if |times| > 1 {
      CounterMeans(times[..|times| - 1]);
    }
  }

  /** Every arrival since the opener is in its window. */
  lemma {:induction false} SameWindow(times: seq<int>, i: nat)
    requires times != [] && Opener(times) <= i < |times|
    ensures Opener(times[..i + 1]) == Opener(times)
    ensures times[i] - times[Opener(times)] <= WS_RATE_WINDOW_MS
  {
    if i < |times| - 1 {
      SameWindow(times[..|times| - 1], i);
      assert times[..|times| - 1][..i + 1] == times[..i + 1];
    } else {
      assert times[..i + 1] == times;
    }
  }

  /** Counted from inside the window in force, the admitted arrivals are those among
      its first 30. */
  lemma {:induction false} AdmittedInWindow(times: seq<int>, a: nat)
    requires times != [] && Opener(times) <= a <= |times|
    ensures var end := Opener(times) + WS_RATE_MAX;
            AdmittedFrom(times, a) == if a >= end then 0 else (if |times| < end then |times| else end) - a
    decreases |times| - a
  {
    hide Admitted;
    if a < |times| {
      CounterMeans(times);
      if a < |times| - 1 {
        var before := times[..|times| - 1];
        SameWindow(times, |times| - 2);
        assert Opener(before) == Opener(times);
        AdmittedInWindow(before, a);
      } else {
        assert AdmittedFrom(times[..|times| - 1], a) == 0;
      }
    }
  }

  lemma {:induction false} AdmittedAdds(times: seq<int>, a: nat, b: nat)
    requires a <= b <= |times|
    ensures AdmittedFrom(times, a) == AdmittedFrom(times[..b], a) + AdmittedFrom(times, b)
  {
    hide Admitted;
    if b == |times| {
      assert times[..b] == times;
    } else {
      var before := times[..|times| - 1];
      assert before[..b] == times[..b];
      AdmittedAdds(before, a, b);
    }
  }

  /** With a clock that never runs back, no interval of 60 000 ms admits more than 59
      connections from one address. */
  lemma AtMost59(times: seq<int>, a: nat)
    requires Ascending(times) && a < |times|
    requires times[|times| - 1] - times[a] <= WS_RATE_WINDOW_MS
    ensures AdmittedFrom(times, a) <= 59
  {
    hide Admitted;
    AdmittedExactly(times, a);
  }

  /** How many of the arrivals with indices `a` to `n` are among the first 30 of the
      window that arrival `w` opened. */
  function FirstThirty(w: nat, a: nat, n: nat): nat {
    var end := if n < w + WS_RATE_MAX then n else w + WS_RATE_MAX;
    if a < end then end - a else 0
  }

  /** The exact number admitted in an interval of at most 60 000 ms: at most one
      window opens inside it, and each window admits its own first 30. */
  lemma AdmittedExactly(times: seq<int>, a: nat)
    requires Ascending(times) && a < |times|
    requires times[|times| - 1] - times[a] <= WS_RATE_WINDOW_MS
    ensures var w := Opener(times);
            && (w <= a ==> AdmittedFrom(times, a) == FirstThirty(w, a, |times|))
            && (w > a ==> Opener(times[..w]) < a
                          && AdmittedFrom(times, a) == FirstThirty(Opener(times[..w]), a, w) + FirstThirty(w, w, |times|))
  {
    hide Admitted;
    var w := Opener(times);
    if w <= a {
      AdmittedInWindow(times, a);
    } else {
      AdmittedInWindow(times, w);
      AdmittedAdds(times, a, w);
      WindowsAreApart(times);
      AdmittedInWindow(times[..w], a);
    }
  }

  /** The limit the program documents, 30 in 60 000 ms, is kept by an interval exactly
      when no window opens inside it, or what is left of the window before and the
      window that opens do not together admit more. */
  lemma KeepsToThirtyExactly(times: seq<int>, a: nat)
    requires Ascending(times) && a < |times|
    requires times[|times| - 1] - times[a] <= WS_RATE_WINDOW_MS
    ensures AdmittedFrom(times, a) <= WS_RATE_MAX
       <==> var w := Opener(times);
            w <= a || FirstThirty(Opener(times[..w]), a, w) + FirstThirty(w, w, |times|) <= WS_RATE_MAX
  {
    hide Admitted, AdmittedFrom;
    AdmittedExactly(times, a);
  }

  /** The same for arrivals in the middle of a sequence. */
  lemma AnyIntervalKeepsToThirtyExactly(times: seq<int>, a: nat, b: nat)
    requires Ascending(times) && a < b <= |times|
    requires times[b - 1] - times[a] <= WS_RATE_WINDOW_MS
    ensures AdmittedFrom(times[..b], a) <= WS_RATE_MAX
       <==> var w := Opener(times[..b]);
            w <= a || FirstThirty(Opener(times[..w]), a, w) + FirstThirty(w, w, b) <= WS_RATE_MAX
  {
    KeepsToThirtyExactly(times[..b], a);
    assert times[..b][..Opener(times[..b])] == times[..Opener(times[..b])];
  }

  /** A new window opens more than 60 000 ms after the one before it. */
  lemma {:induction false} WindowsAreApart(times: seq<int>)
    requires times != [] && Opener(times) > 0
    ensures var w := Opener(times); times[w] - times[Opener(times[..w])] > WS_RATE_WINDOW_MS
  {
    var last := |times| - 1;
    if Opener(times) < last {
      WindowsAreApart(times[..last]);
      assert times[..last][..Opener(times)] == times[..Opener(times)];
    }
  }

  /** The same for arrivals in the middle of a sequence. */
  lemma AtMost59InAnyInterval(times: seq<int>, a: nat, b: nat)
    requires Ascending(times) && a < b <= |times|
    requires times[b - 1] - times[a] <= WS_RATE_WINDOW_MS
    ensures AdmittedFrom(times[..b], a) <= 59
  {
    AtMost59(times[..b], a);
  }

  /** 59 is reached: one arrival, 29 at the very end of its window, 30 just after. */
  const BURST: seq<int> := [0] + seq(29, i => 60_000) + seq(30, i => 60_001)

  lemma FiftyNineIsReached()
    ensures Ascending(BURST) && |BURST| == 60
    ensures BURST[59] - BURST[1] <= 1 && AdmittedFrom(BURST, 1) == 59
  {
    hide Admitted, AdmittedFrom;
    OpenerStays(BURST[..30], 0, 30);
    assert BURST[..30][..30] == BURST[..30];
    OpensAt(BURST, 30);
    OpenerStays(BURST, 30, 60);
    assert BURST[..60] == BURST;
    AdmittedInWindow(BURST, 30);
    AdmittedInWindow(BURST[..30], 1);
    AdmittedAdds(BURST, 1, 30);
  }

  lemma OpensAt(times: seq<int>, w: nat)
    requires 0 < w < |times| && times[w] - times[Opener(times[..w])] > WS_RATE_WINDOW_MS
    ensures Opener(times[..w + 1]) == w
  {
    assert times[..w + 1][..w] == times[..w];
  }

  lemma {:induction false} OpenerStays(times: seq<int>, w: nat, n: nat)
    requires w < n <= |times|
    requires w == 0 || Opener(times[..w + 1]) == w
    requires forall i :: w <= i < n ==> times[i] - times[w] <= WS_RATE_WINDOW_MS
    ensures Opener(times[..n]) == w
  {
    if n > w + 1 {
      OpenerStays(times, w, n - 1);
      assert times[..n][..n - 1] == times[..n - 1];
    }
  }

  /** A connection is refused only if 30 from that address were admitted within the
      60 000 ms before it. */
  lemma RefusedOnlyAfter30(times: seq<int>)
    requires times != [] && !Admitted(times, |times| - 1)
    ensures exists a :: 0 <= a < |times| && times[|times| - 1] - times[a] <= WS_RATE_WINDOW_MS
                        && AdmittedFrom(times, a) == WS_RATE_MAX
  {
    hide Admitted;
    CounterMeans(times);
    SameWindow(times, |times| - 1);
    AdmittedInWindow(times, Opener(times));
  }
}
