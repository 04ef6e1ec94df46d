/** One connection attempt, and the chain of attempts that reconnecting makes of it. */
module Reconnect {
  import opened Bytes
  import opened Packets

  const MILLISECOND := 1_000_000

  const CODE_SUCCESS: byte := 0
  const CODE_UNSUPPORTED_PROTO_VERSION: byte := 132
  const CODE_FAILURE: byte := 255

  /** Backoff settings, in nanoseconds; the factor is the fraction `num / den`. */
  datatype Options = Options(protoVersion: byte, protoCompromise: bool, firstDelay: nat, maxDelay: nat,
                             num: nat, den: nat, autoReconnect: bool, hasHandler: bool)

  /** The settings after the option that sets them was applied. */
  function WithBackoffStrategy(o: Options, firstDelay: int, maxDelay: int, num: nat, den: nat): (r: Options)
    requires den > 0
    ensures Sanitised(r)
    ensures r.firstDelay == if firstDelay >= 1_000_000 then firstDelay else 1_000_000
    ensures r.maxDelay == if maxDelay >= r.firstDelay then maxDelay else r.firstDelay
    ensures num < den ==> r.num == r.den
    ensures MILLISECOND <= firstDelay <= maxDelay && den <= num ==>
              r == o.(firstDelay := firstDelay, maxDelay := maxDelay, num := num, den := den)
    ensures r == o.(firstDelay := r.firstDelay, maxDelay := r.maxDelay, num := r.num, den := r.den)
  {
    var first: nat := if firstDelay < MILLISECOND then MILLISECOND else firstDelay;
    var max: nat := if maxDelay < first then first else maxDelay;
    o.(firstDelay := first, maxDelay := max,
       num := if num < den then 1 else num, den := if num < den then 1 else den)
  }

  predicate Sanitised(o: Options) {
    o.firstDelay <= o.maxDelay && 0 < o.den <= o.num
  }

  function Scaled(o: Options, delay: nat): nat
    requires o.den > 0
  {
    var d := delay * o.num / o.den;
    if d > o.maxDelay then o.maxDelay else d
  }

  /** How far an attempt got. */
  datatype Outcome =
    | DialFailed
    | ClosedAfterDial
    | SendFailed
    | NoAnswer
    | Answered(code: byte)
    | WrongAnswer
    | StoppedWaiting

  /** What happens around an attempt: how far it got; whether the client is closing by then, or later,
      when it is asked whether to go on; whether this connection is being left on purpose; and whether
      the pause before the next attempt is cut short. A closing client starts nothing any more, no
      handler and no attempt. */
  datatype Event = Event(outcome: Outcome, closed: bool, closesLater: bool, leaving: bool, pauseCut: bool)

  predicate Closing(e: Event) {
    e.closed || e.closesLater
  }

  datatype Attempt = Attempt(version: byte, delay: nat)

  /** The codes the connect handler was called with, and the next attempt. */
  datatype Ending = Ending(calls: seq<byte>, next: Option<Attempt>)

  predicate FallsBack(o: Options, a: Attempt, e: Event) {
    e.outcome == Answered(CODE_UNSUPPORTED_PROTO_VERSION) && a.version > V311 && o.protoCompromise
  }

  function Call(o: Options, e: Event, code: byte): seq<byte> {
    if o.hasHandler && !e.closed then [code] else []
  }

  /** Pausing before the next attempt. */
  function Pause(o: Options, a: Attempt, e: Event): Option<Attempt>
    requires o.den > 0
  {
    if e.pauseCut then None else Some(a.(delay := Scaled(o, a.delay)))
  }

  function AfterFailure(o: Options, a: Attempt, e: Event): Option<Attempt>
    requires o.den > 0
  {
    if o.autoReconnect && !Closing(e) then Pause(o, a, e) else None
  }

  function Outcomes(o: Options, a: Attempt, e: Event): Ending
    requires o.den > 0
  {
    match e.outcome
    case DialFailed => Ending(Call(o, e, CODE_FAILURE), AfterFailure(o, a, e))
    case ClosedAfterDial => Ending([], None)
    case SendFailed => Ending([], AfterFailure(o, a, e))
    case NoAnswer => Ending(Call(o, e, CODE_FAILURE), AfterFailure(o, a, e))
    case Answered(code) =>
      if code == CODE_SUCCESS then
        Ending(Call(o, e, CODE_SUCCESS), if Closing(e) || e.leaving then None else Pause(o, a, e))
      else if FallsBack(o, a, e) then
        Ending([], if e.closed then None else Some(a.(version := a.version - 1)))
      else Ending(Call(o, e, code), AfterFailure(o, a, e))
    case WrongAnswer => Ending(Call(o, e, CODE_FAILURE), AfterFailure(o, a, e))
    case StoppedWaiting => Ending([], AfterFailure(o, a, e))
  }

  /** The procedure: every early exit either returns or jumps to the pause at the end. */
  method Connect(o: Options, a: Attempt, e: Event) returns (calls: seq<byte>, next: Option<Attempt>)
    requires o.den > 0
    ensures Ending(calls, next) == Outcomes(o, a, e)
  {
    calls, next := [], None;
    label reconnect: {
      if e.outcome.DialFailed? {
        if o.hasHandler && !e.closed { calls := calls + [CODE_FAILURE]; }
        if o.autoReconnect && !Closing(e) { break reconnect; }
        return;
      }
      if e.outcome.ClosedAfterDial? {
        return;
      }
      if e.outcome.SendFailed? {
        if o.autoReconnect && !Closing(e) { break reconnect; }
        return;
      }
      match e.outcome {
        case NoAnswer =>
          if o.hasHandler && !e.closed { calls := calls + [CODE_FAILURE]; }
          if o.autoReconnect && !Closing(e) { break reconnect; }
          return;
        case Answered(code) =>
          if code != CODE_SUCCESS {
            if a.version > V311 && o.protoCompromise && code == CODE_UNSUPPORTED_PROTO_VERSION {
              if !e.closed { next := Some(Attempt(a.version - 1, a.delay)); }
              return;
            }
            if o.hasHandler && !e.closed { calls := calls + [code]; }
            if o.autoReconnect && !Closing(e) { break reconnect; }
            return;
          }
        case WrongAnswer =>
          if o.hasHandler && !e.closed { calls := calls + [CODE_FAILURE]; }
          if o.autoReconnect && !Closing(e) { break reconnect; }
          return;
        case StoppedWaiting =>
          if o.autoReconnect && !Closing(e) { break reconnect; }
          return;
      }
      if o.hasHandler && !e.closed { calls := calls + [CODE_SUCCESS]; }
      if Closing(e) || e.leaving {
        return;
      }
    }
    if e.pauseCut {
      return;
    }
    var reconnectDelay := a.delay * o.num / o.den;
    if reconnectDelay > o.maxDelay {
      reconnectDelay := o.maxDelay;
    }
    next := Some(Attempt(a.version, reconnectDelay));
  }

  /** Each attempt calls the handler at most once, and not at all when it falls back a version or the
      client is closing. */
  lemma HandlerCalledOnce(o: Options, a: Attempt, e: Event)
    requires o.den > 0
    ensures |Outcomes(o, a, e).calls| <= 1
    ensures FallsBack(o, a, e) || e.closed ==> Outcomes(o, a, e).calls == []
  {
  }

  /** With reconnecting off there is a next attempt exactly after a fallback, unless the client is
      closing by then, and after a connection that was established and then lost, unless the client is
      closing or leaving or the pause is cut. */
  lemma {:induction false} ReconnectsUnasked(o: Options, a: Attempt, e: Event)
    requires o.den > 0 && !o.autoReconnect
    ensures Outcomes(o, a, e).next.Some?
            <==> (FallsBack(o, a, e) && !e.closed)
                 || (e.outcome == Answered(CODE_SUCCESS) && !Closing(e) && !e.leaving && !e.pauseCut)
  {
  }

  /** A closing client makes no further attempt, whatever happens. */
  lemma {:induction false} ClosedStops(o: Options, a: Attempt, e: Event)
    requires o.den > 0 && e.closed
    ensures Outcomes(o, a, e) == Ending([], None)
  {
  }

  /** Code 132 sends a client that may compromise from version 5 to version 4. */
  predicate Compromises(o: Options, a: Attempt, e: Event) {
    e.outcome == Answered(132) && a.version > 4 && o.protoCompromise
  }

  /** A handler is told 255 of a failed dial and of a missing or wrong answer, and otherwise the code the
      server gave, 0 being success; it is told nothing else, nothing of a compromise, and nothing by a
      client that is closing. */
  lemma {:induction false} HandlerTold(o: Options, a: Attempt, e: Event, code: byte)
    requires o.den > 0
    ensures |Outcomes(o, a, e).calls| <= 1
    ensures code in Outcomes(o, a, e).calls
            <==> o.hasHandler && !e.closed && !Compromises(o, a, e)
                 && (e.outcome == Answered(code)
                     || (code == 255 && e.outcome in {DialFailed, NoAnswer, WrongAnswer}))
  {
  }

  /** Whether a next attempt is made: after a compromise unless the client is closing by then; after a
      connection that was established unless it is being left; after anything else if reconnecting is
      on; and but for the compromise only if the client is not closing and the pause not cut. */
  lemma {:induction false} NextAttemptIff(o: Options, a: Attempt, e: Event)
    requires o.den > 0
    ensures Outcomes(o, a, e).next.Some?
            <==> if Compromises(o, a, e) then !e.closed
                 else && !e.closed && !e.closesLater && !e.pauseCut && e.outcome != ClosedAfterDial
                      && if e.outcome == Answered(0) then !e.leaving else o.autoReconnect
    ensures Outcomes(o, a, e).next.Some? ==>
              var next := Outcomes(o, a, e).next.value;
              if Compromises(o, a, e) then next == Attempt(a.version - 1, a.delay)
              else
                && next.version == a.version
                && var d := a.delay * o.num / o.den;
                next.delay == if d <= o.maxDelay then d else o.maxDelay
  {
  }

  // Chains of attempts.

  ghost predicate Chain(o: Options, attempts: seq<Attempt>, events: seq<Event>)
    requires o.den > 0
  {
    && |attempts| == |events| + 1
    && attempts[0] == Attempt(o.protoVersion, o.firstDelay)
    && forall i :: 0 <= i < |events| ==> Outcomes(o, attempts[i], events[i]).next == Some(attempts[i + 1])
  }

  predicate Disturbed(e: Event) {
    e.closed || e.closesLater || e.leaving || e.pauseCut || e.outcome == ClosedAfterDial
  }

  /** With reconnecting on, attempts follow each other for as long as nobody closes or leaves. */
  lemma {:induction false} KeepsTrying(o: Options, events: seq<Event>) returns (attempts: seq<Attempt>)
    requires o.den > 0 && o.autoReconnect && forall i :: 0 <= i < |events| ==> !Disturbed(events[i])
    ensures Chain(o, attempts, events)
    decreases |events|
  {
    hide Outcomes;
    if events == [] {
      attempts := [Attempt(o.protoVersion, o.firstDelay)];
    } else {
      var before, last := events[..|events| - 1], events[|events| - 1];
      attempts := KeepsTrying(o, before);
      var next := Outcomes(o, attempts[|before|], last).next;
      NextAttemptIff(o, attempts[|before|], last);
      attempts := attempts + [next.value];
      forall i | 0 <= i < |events| ensures Outcomes(o, attempts[i], events[i]).next == Some(attempts[i + 1]) {
        if i < |before| {
          assert before[i] == events[i];
        }
      }
    }
  }

  lemma DivAtLeast(x: nat, q: nat, den: nat)
    requires den > 0 && x >= q * den
    ensures x / den >= q
  {
    if x / den < q {
      MulMonotone(x / den + 1, q, den);
    }
  }

  lemma MulMonotone(a: nat, b: nat, k: nat)
    requires a <= b
    ensures a * k <= b * k
  {
  }

  lemma ScaledBounds(o: Options, delay: nat)
    requires Sanitised(o) && delay <= o.maxDelay
    ensures delay <= Scaled(o, delay) <= o.maxDelay
  {
    MulMonotone(o.den, o.num, delay);
    DivAtLeast(delay * o.num, delay, o.den);
  }

  /** Along any chain, delays stay between the first and the largest and never go down, and the
      version never goes up. */
  lemma {:induction false} ChainBounds(o: Options, attempts: seq<Attempt>, events: seq<Event>, i: nat, j: nat)
    requires Sanitised(o) && Chain(o, attempts, events) && i <= j < |attempts|
    ensures o.firstDelay <= attempts[i].delay <= attempts[j].delay <= o.maxDelay
    ensures attempts[i].version >= attempts[j].version
    decreases j
  {
    if j == 0 {
    } else {
      var k := if i < j then i else j - 1;
      ChainBounds(o, attempts, events, k, j - 1);
      assert Outcomes(o, attempts[j - 1], events[j - 1]).next == Some(attempts[j]);
      ScaledBounds(o, attempts[j - 1].delay);
    }
  }

  /** Number of attempts that made the next one fall back a version. */
  function Fallbacks(o: Options, attempts: seq<Attempt>, events: seq<Event>): nat
    requires |attempts| >= |events|
  {
    if events == [] then 0
    else (if FallsBack(o, attempts[0], events[0]) then 1 else 0) + Fallbacks(o, attempts[1..], events[1..])
  }

  /** From one of the two protocol versions, the version falls at most once in a whole chain. */
  lemma {:induction false} VersionFallsOnce(o: Options, attempts: seq<Attempt>, events: seq<Event>)
    requires o.den > 0 && |attempts| == |events| + 1 && V311 <= attempts[0].version <= V5
    requires forall i :: 0 <= i < |events| ==> Outcomes(o, attempts[i], events[i]).next == Some(attempts[i + 1])
    ensures Fallbacks(o, attempts, events) == attempts[0].version - attempts[|events|].version <= 1
    ensures V311 <= attempts[|events|].version
  {
    hide Scaled;
    if events != [] {
      assert Outcomes(o, attempts[0], events[0]).next == Some(attempts[1]);
      VersionFallsOnce(o, attempts[1..], events[1..]);
    }
  }

  // How the delay grows.

  /** The delay after `k` pauses in a row. */
  function DelayAfter(o: Options, k: nat): nat
    requires o.den > 0
  {
    if k == 0 then o.firstDelay else Scaled(o, DelayAfter(o, k - 1))
  }

  /** The first pause lengthens the delay. */
  predicate Grows(o: Options)
    requires o.den > 0
  {
    o.firstDelay * o.num / o.den > o.firstDelay
  }

  lemma GainAtLeast(first: nat, num: nat, den: nat)
    requires 0 < den <= num && first * num / den > first
    ensures first * (num - den) >= den
  {
    var gain := first * (num - den);
    assert first * num == first * den + gain;
    if gain < den {
      DivModUnique(first * num, den, first, gain);
    }
  }

  lemma GainGrows(first: nat, delay: nat, num: nat, den: nat)
    requires 0 < den <= num && first * (num - den) >= den && first <= delay
    ensures delay * num / den >= delay + 1
  {
    MulMonotone(first, delay, num - den);
    assert delay * num == delay * den + delay * (num - den);
    assert (delay + 1) * den == delay * den + den;
    DivAtLeast(delay * num, delay + 1, den);
  }

  lemma ScaledGrows(o: Options, delay: nat)
    requires Sanitised(o) && Grows(o) && o.firstDelay <= delay < o.maxDelay
    ensures Scaled(o, delay) > delay
  {
    GainAtLeast(o.firstDelay, o.num, o.den);
    GainGrows(o.firstDelay, delay, o.num, o.den);
  }

  lemma {:induction false} DelayBounds(o: Options, k: nat)
    requires Sanitised(o)
    ensures o.firstDelay <= DelayAfter(o, k) <= o.maxDelay
  {
    if k > 0 {
      DelayBounds(o, k - 1);
      ScaledBounds(o, DelayAfter(o, k - 1));
    }
  }

  lemma {:induction false} DelayClimbs(o: Options, k: nat)
    requires Sanitised(o) && Grows(o)
    ensures DelayAfter(o, k) == o.maxDelay || DelayAfter(o, k) >= o.firstDelay + k
  {
    if k > 0 {
      DelayClimbs(o, k - 1);
      DelayBounds(o, k - 1);
      var d := DelayAfter(o, k - 1);
      if d == o.maxDelay {
        ScaledBounds(o, d);
      } else {
        ScaledGrows(o, d);
      }
    }
  }

  lemma {:induction false} DelayStays(o: Options, k: nat)
    requires Sanitised(o) && !Grows(o)
    ensures DelayAfter(o, k) == o.firstDelay
  {
    if k > 0 {
      DelayStays(o, k - 1);
      ScaledBounds(o, o.firstDelay);
    }
  }

  /** The delay reaches the largest one, within a known number of pauses, exactly when it starts
      there or the first pause already lengthens it; otherwise it never moves. */
  lemma {:induction false} ReachesMaxIff(o: Options)
    requires Sanitised(o)
    ensures (exists k: nat :: DelayAfter(o, k) == o.maxDelay) <==> o.firstDelay == o.maxDelay || Grows(o)
    ensures Grows(o) ==> DelayAfter(o, o.maxDelay - o.firstDelay) == o.maxDelay
  {
    if Grows(o) {
      DelayClimbs(o, o.maxDelay - o.firstDelay);
      DelayBounds(o, o.maxDelay - o.firstDelay);
    } else if k: nat :| DelayAfter(o, k) == o.maxDelay {
      DelayStays(o, k);
    }
    assert DelayAfter(o, 0) == o.firstDelay;
  }

  /** In a chain the delay depends only on how many pauses were made, one for every event that was
      not a fallback. */
  lemma {:induction false} ChainDelay(o: Options, attempts: seq<Attempt>, events: seq<Event>, k: nat)
    requires o.den > 0 && |attempts| == |events| + 1 && attempts[0].delay == DelayAfter(o, k)
    requires forall i :: 0 <= i < |events| ==> Outcomes(o, attempts[i], events[i]).next == Some(attempts[i + 1])
    ensures Fallbacks(o, attempts, events) <= |events|
    ensures attempts[|events|].delay == DelayAfter(o, k + |events| - Fallbacks(o, attempts, events))
    decreases |events|
  {
    if events != [] {
      assert Outcomes(o, attempts[0], events[0]).next == Some(attempts[1]);
      ChainDelay(o, attempts[1..], events[1..], if FallsBack(o, attempts[0], events[0]) then k else k + 1);
    }
  }

  lemma {:induction false} MaxStays(o: Options, k: nat, more: nat)
    requires Sanitised(o) && DelayAfter(o, k) == o.maxDelay
    ensures DelayAfter(o, k + more) == o.maxDelay
    decreases more
  {
    if more > 0 {
      MaxStays(o, k, more - 1);
      ScaledBounds(o, o.maxDelay);
    }
  }

  /** So every chain that goes on for long enough waits the largest delay, provided the first pause
      lengthens it. */
  lemma {:induction false} ChainReachesMax(o: Options, attempts: seq<Attempt>, events: seq<Event>)
    requires Sanitised(o) && Grows(o) && Chain(o, attempts, events) && V311 <= o.protoVersion <= V5
    requires |events| > o.maxDelay - o.firstDelay
    ensures attempts[|events|].delay == o.maxDelay
  {
    var pauses := |events| - Fallbacks(o, attempts, events);
    VersionFallsOnce(o, attempts, events);
    ChainDelay(o, attempts, events, 0);
    ReachesMaxIff(o);
    MaxStays(o, o.maxDelay - o.firstDelay, pauses - (o.maxDelay - o.firstDelay));
  }
}
