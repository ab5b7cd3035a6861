/**
 * The completion guard of `runStream`: an `AtomicBoolean sseCompleted` that
 * every terminating path claims with `compareAndSet(false, true)` before it
 * signals the emitter. `safeComplete` and `safeCompleteWithError` signal only
 * when they win the claim; the completion callback claims without signalling.
 * Threads are not modelled: each call runs to its end before the next starts.
 */
module Completion {
  import opened AgentTypes

  /** The three ways a path can try to end the stream. */
  datatype GuardEvent =
    | SafeComplete
    | SafeCompleteWithError(cause: Option<string>)
    | MarkCompleted

  /** The flag and the terminal signals the emitter has received. */
  datatype Guard = Guard(completed: bool, signals: seq<Signal>)

  const Fresh: Guard := Guard(false, [])

  /** At most one terminal signal, and none while the flag is still clear. */
  predicate Valid(g: Guard) {
    |g.signals| <= 1 && (!g.completed ==> g.signals == [])
  }

  /** The signal an event sends when it wins the claim. */
  function SignalOf(e: GuardEvent): seq<Signal> {
    match e
    case SafeComplete => [Complete]
    case SafeCompleteWithError(cause) => [CompleteWithError(cause)]
    case MarkCompleted => []
  }

  /**
   * One terminating call: `compareAndSet(false, true)`, and the call's signal
   * only if it won. Whatever the call, the flag is set afterwards, a valid
   * guard stays valid, and at most one signal is added.
   */
  function Claim(g: Guard, e: GuardEvent): (g': Guard)
    ensures g'.completed
    ensures Valid(g) ==> Valid(g')
    ensures g.signals <= g'.signals && |g'.signals| <= |g.signals| + 1
  {
    if g.completed then g else Guard(true, g.signals + SignalOf(e))
  }

  /** The guard after a sequence of terminating calls, in order. */
  function Replay(g: Guard, es: seq<GuardEvent>): Guard
    decreases |es|
  {
    if es == [] then g else Replay(Claim(g, es[0]), es[1..])
  }

  /** Once set, the flag stays set and nothing more is signalled. */
  lemma {:induction false} CompletedIsFinal(g: Guard, es: seq<GuardEvent>)
    requires g.completed
    ensures Replay(g, es) == g
    decreases |es|
  {
    if es != [] {
      CompletedIsFinal(Claim(g, es[0]), es[1..]);
    }
  }

  /**
   * The first terminating call wins: from a clear flag, only the first event of
   * any sequence gets to signal, and after any event the flag is set.
   */
  lemma FirstClaimWins(g: Guard, es: seq<GuardEvent>)
    requires !g.completed
    ensures es == [] ==> Replay(g, es) == g
    ensures es != [] ==> Replay(g, es) == Guard(true, g.signals + SignalOf(es[0]))
  {
    if es != [] {
      CompletedIsFinal(Claim(g, es[0]), es[1..]);
    }
  }

  /** Whatever sequence of terminating calls happens, the emitter gets at most one terminal signal. */
  lemma AtMostOneSignal(g: Guard, es: seq<GuardEvent>)
    requires Valid(g)
    ensures Valid(Replay(g, es))
    ensures |Replay(g, es).signals| <= 1
  {
    if g.completed {
      CompletedIsFinal(g, es);
    } else {
      FirstClaimWins(g, es);
    }
  }

  /** Running two sequences of calls one after the other is running their concatenation. */
  lemma {:induction false} ReplayConcat(g: Guard, a: seq<GuardEvent>, b: seq<GuardEvent>)
    ensures Replay(g, a + b) == Replay(Replay(g, a), b)
    decreases |a|
  {
    if a != [] {
      assert (a + b)[0] == a[0] && (a + b)[1..] == a[1..] + b;
      ReplayConcat(Claim(g, a[0]), a[1..], b);
    } else {
      assert a + b == b;
    }
  }

  /**
   * Three rounds of terminating calls on a fresh guard, the middle one opened
   * by a call that signals: the emitter ends with at most one terminal signal,
   * and with exactly one unless the first round opened with a bare claim.
   */
  lemma OneTerminalSignal(first: seq<GuardEvent>, middle: seq<GuardEvent>, last: seq<GuardEvent>)
    requires middle != [] && !middle[0].MarkCompleted?
    ensures var g := Replay(Replay(Replay(Fresh, first), middle), last);
      && Valid(g)
      && (first == [] || !first[0].MarkCompleted? ==> |g.signals| == 1)
  {
    var g1 := Replay(Fresh, first);
    FirstClaimWins(Fresh, first);
    var g2 := Replay(g1, middle);
    if g1.completed {
      CompletedIsFinal(g1, middle);
    } else {
      FirstClaimWins(g1, middle);
    }
    CompletedIsFinal(g2, last);
  }

  /** The guard object shared by the streaming task and the emitter callbacks. */
  class CompletionGuard {
    var completed: bool
    var signals: seq<Signal>

    function View(): Guard
      reads this
    {
      Guard(completed, signals)
    }

    /** `new AtomicBoolean(false)` on a fresh emitter. */
    constructor ()
      ensures View() == Fresh
    {
      completed := false;
      signals := [];
    }

    /** Claims the flag; if this call won, completes the emitter normally. */
    method SafeComplete()
      modifies this
      ensures View() == Claim(old(View()), GuardEvent.SafeComplete)
    {
      if !completed {
        completed := true;
        signals := signals + [Complete];
      }
    }

    /** Claims the flag; if this call won, completes the emitter with the given error. */
    method SafeCompleteWithError(cause: Option<string>)
      modifies this
      ensures View() == Claim(old(View()), GuardEvent.SafeCompleteWithError(cause))
    {
      if !completed {
        completed := true;
        signals := signals + [CompleteWithError(cause)];
      }
    }

    /** Claims the flag without signalling (the emitter has already completed on its own). */
    method MarkCompleted()
      modifies this
      ensures View() == Claim(old(View()), GuardEvent.MarkCompleted)
    {
      completed := true;
    }
  }
}
