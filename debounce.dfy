/**
 * The flush goroutine of fsnotify.go: a `flush` flag that a qualifying event
 * sets and that a timer tick turns into one refresh signal. The goroutine's
 * select over its two channels becomes a fold over the sequence of inputs it
 * receives, in the order it receives them.
 */
module Debounce {

  /** An input of the select: a signal on eventChan, or a tick of the timer. */
  datatype Pulse = Event | Tick

  /** One pass of the select: the new flag, and whether `refresh <- true` is sent. */
  function Step(flush: bool, p: Pulse): (r: (bool, bool))
    ensures r.0 <==> p == Event
    ensures r.1 <==> p == Tick && flush
  {
    match p
    case Event => (true, false)
    case Tick => (false, flush)
  }

  /** The refresh decision for each input, starting from the given flag. */
  function Refreshes(flush: bool, ps: seq<Pulse>): (out: seq<bool>)
    ensures |out| == |ps|
    decreases ps
  {
    if ps == [] then []
    else
      var (flush', sent) := Step(flush, ps[0]);
      [sent] + Refreshes(flush', ps[1..])
  }

  /** The number of refresh signals sent. */
  function CountSent(bs: seq<bool>): nat
  {
    if bs == [] then 0 else (if bs[0] then 1 else 0) + CountSent(bs[1..])
  }

  /** The number of inputs of one kind. */
  function CountOf(ps: seq<Pulse>, p: Pulse): nat
  {
    if ps == [] then 0 else (if ps[0] == p then 1 else 0) + CountOf(ps[1..], p)
  }

  /** n copies of a sequence. */
  function Repeat(ps: seq<Pulse>, n: nat): seq<Pulse>
  {
    if n == 0 then [] else ps + Repeat(ps, n - 1)
  }

  /**
   * The flush goroutine itself: `flush` starts false; an event sets it; a
   * tick sends a refresh and clears it only when it was set.
   */
  method FlushLoop(inputs: seq<Pulse>) returns (sent: seq<bool>)
    ensures sent == Refreshes(false, inputs)
  {
    var flush := false;
    sent := [];
    var i := 0;
    while i < |inputs|
      invariant 0 <= i <= |inputs|
      invariant Refreshes(false, inputs) == sent + Refreshes(flush, inputs[i..])
    {
      assert inputs[i..][1..] == inputs[i + 1..];
      match inputs[i] {
        case Event =>
          flush := true;
          sent := sent + [false];
        case Tick =>
          if flush {
            sent := sent + [true];
            flush := false;
          } else {
            sent := sent + [false];
          }
      }
      i := i + 1;
    }
    assert inputs[i..] == [];
  }

  /**
   * A refresh is sent at input i exactly when input i is a tick and the
   * input before it was an event (for the first input: the flag was set).
   */
  lemma {:induction false} RefreshAt(flush: bool, ps: seq<Pulse>, i: nat)
    requires i < |ps|
    ensures Refreshes(flush, ps)[i] <==> ps[i] == Tick && (if i == 0 then flush else ps[i - 1] == Event)
    decreases i
  {
    if i > 0 {
      var flush' := Step(flush, ps[0]).0;
      RefreshAt(flush', ps[1..], i - 1);
      assert Refreshes(flush, ps)[i] == Refreshes(flush', ps[1..])[i - 1];
      if i > 1 {
        assert ps[1..][i - 2] == ps[i - 1];
      }
    }
  }

  /** Two refreshes always have an event strictly between them, and the first has one before it. */
  lemma NoRefreshWithoutEvent(ps: seq<Pulse>, i: nat, k: nat)
    requires i < k < |ps|
    requires Refreshes(false, ps)[k]
    ensures exists j :: 0 <= j < k && ps[j] == Event
    ensures Refreshes(false, ps)[i] ==> exists j :: i < j < k && ps[j] == Event
  {
    RefreshAt(false, ps, k);
    RefreshAt(false, ps, i);
    assert ps[k - 1] == Event;
  }

  /** Refreshes are sent only at ticks, so there is at most one per tick. */
  lemma {:induction false} AtMostOnePerTick(flush: bool, ps: seq<Pulse>)
    ensures CountSent(Refreshes(flush, ps)) <= CountOf(ps, Tick)
    decreases ps
  {
    if ps != [] {
      AtMostOnePerTick(Step(flush, ps[0]).0, ps[1..]);
    }
  }

  /** Never more refreshes than events (plus one for a flag that starts set). */
  lemma {:induction false} AtMostOnePerEvent(flush: bool, ps: seq<Pulse>)
    ensures CountSent(Refreshes(flush, ps)) <= CountOf(ps, Event) + (if flush then 1 else 0)
    decreases ps
  {
    if ps != [] {
      AtMostOnePerEvent(Step(flush, ps[0]).0, ps[1..]);
    }
  }

  /** A burst of events sets the flag and sends nothing. */
  lemma {:induction false} BurstSetsFlag(flush: bool, n: nat, rest: seq<Pulse>)
    requires n >= 1
    ensures Refreshes(flush, Repeat([Event], n) + rest) == Repeat1(false, n) + Refreshes(true, rest)
    decreases n
  {
    var ps := Repeat([Event], n) + rest;
    assert ps[0] == Event;
    if n == 1 {
      assert ps[1..] == rest;
    } else {
      assert ps[1..] == Repeat([Event], n - 1) + rest;
      BurstSetsFlag(true, n - 1, rest);
    }
  }

  /** n copies of one boolean. */
  function Repeat1(b: bool, n: nat): (r: seq<bool>)
    ensures |r| == n && forall i :: 0 <= i < n ==> r[i] == b
  {
    if n == 0 then [] else [b] + Repeat1(b, n - 1)
  }

  lemma {:induction false} CountSentFalses(n: nat)
    ensures CountSent(Repeat1(false, n)) == 0
  {
    if n > 0 {
      assert Repeat1(false, n)[1..] == Repeat1(false, n - 1);
      CountSentFalses(n - 1);
    }
  }

  lemma {:induction false} CountSentAppend(a: seq<bool>, b: seq<bool>)
    ensures CountSent(a + b) == CountSent(a) + CountSent(b)
  {
    if a == [] {
      assert a + b == b;
    } else {
      assert (a + b)[1..] == a[1..] + b;
      CountSentAppend(a[1..], b);
    }
  }

  /** Any number of events followed by one tick collapse to exactly one refresh, sent at the tick. */
  lemma BurstCollapses(n: nat)
    requires n >= 1
    ensures Refreshes(false, Repeat([Event], n) + [Tick]) == Repeat1(false, n) + [true]
    ensures CountSent(Refreshes(false, Repeat([Event], n) + [Tick])) == 1
  {
    BurstSetsFlag(false, n, [Tick]);
    assert Refreshes(true, [Tick]) == [true];
    CountSentFalses(n);
    CountSentAppend(Repeat1(false, n), [true]);
  }

  /** Events each followed by a tick produce one refresh apiece. */
  lemma {:induction false} SeparatedEventsEachRefresh(flush: bool, n: nat)
    ensures CountSent(Refreshes(flush, Repeat([Event, Tick], n))) == n
    decreases n
  {
    if n > 0 {
      var ps := Repeat([Event, Tick], n);
      assert ps[1..][1..] == Repeat([Event, Tick], n - 1);
      SeparatedEventsEachRefresh(false, n - 1);
      assert Refreshes(flush, ps) == [false, true] + Refreshes(false, Repeat([Event, Tick], n - 1));
      CountSentAppend([false, true], Refreshes(false, Repeat([Event, Tick], n - 1)));
    }
  }
}
