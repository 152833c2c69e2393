/**
 * The single-flight gate of the `/webhook` handler.
 *
 * A process-wide flag says whether a notification cycle is running. An
 * arrival while the flag is set is dropped and answered at once; otherwise
 * the flag is set, the cycle runs, the flag is cleared and the call is
 * answered. The check of the flag and the setting of it happen with no
 * suspension in between, so the handler is modelled as discrete steps: the
 * pure machine `Step`/`Run` over an event history, and the class
 * `WebhookGate` whose methods update the flag in place and keep it tied to
 * that history.
 */
module Gate {
  import opened Wrappers
  import opened Expenses

  /** The status every webhook call is answered with. */
  const StatusOk: int := 200

  /** What happens to the gate: a webhook call arrives, or a running cycle ends. */
  datatype Event = Arrival | Completion

  /** What a step does. */
  datatype Effect =
    | Dropped   // arrival while busy: answered with 200 at once, no cycle
    | Started   // arrival while idle: the flag is set and a cycle begins
    | Finished  // a cycle ended: the flag is cleared and its call answered with 200

  /** One step of the flag machine: the new flag and the effect. */
  function Step(busy: bool, e: Event): (r: (bool, Effect))
    ensures r.0 <==> e == Arrival
    ensures r.1 == Dropped <==> busy && e == Arrival
    ensures r.1 == Started <==> !busy && e == Arrival
  {
    match e
    case Arrival => if busy then (true, Dropped) else (true, Started)
    case Completion => (false, Finished)
  }

  /** The flag after a history of events from start-up, and the effect of each event. */
  function Run(es: seq<Event>): (r: (bool, seq<Effect>))
    ensures |r.1| == |es|
  {
    if es == [] then (false, [])
    else
      var before := Run(es[..|es| - 1]);
      var after := Step(before.0, es[|es| - 1]);
      (after.0, before.1 + [after.1])
  }

  /** A completion only ever ends a cycle that is running. */
  predicate WellFormed(es: seq<Event>) {
    forall k :: 0 <= k < |es| && es[k] == Completion ==> Run(es[..k]).0
  }

  function CountEffect(fx: seq<Effect>, f: Effect): nat {
    if fx == [] then 0
    else CountEffect(fx[..|fx| - 1], f) + (if fx[|fx| - 1] == f then 1 else 0)
  }

  function CountEvent(es: seq<Event>, e: Event): nat {
    if es == [] then 0
    else CountEvent(es[..|es| - 1], e) + (if es[|es| - 1] == e then 1 else 0)
  }

  lemma WellFormedPrefix(es: seq<Event>)
    requires es != [] && WellFormed(es)
    ensures WellFormed(es[..|es| - 1])
  {
  }

  lemma WellFormedExtend(es: seq<Event>, e: Event)
    requires WellFormed(es)
    requires e == Completion ==> Run(es).0
    ensures WellFormed(es + [e])
    ensures (Run(es + [e]).0, Run(es + [e]).1[|es|]) == Step(Run(es).0, e)
  {
    var ext := es + [e];
    assert ext[..|es|] == es;
    forall k | 0 <= k < |ext| && ext[k] == Completion ensures Run(ext[..k]).0 {
      if k < |es| {
        assert ext[..k] == es[..k];
      }
    }
  }

  /**
   * Single flight: over any history, started cycles never outnumber finished
   * ones by more than one, and the flag is set exactly while one is running.
   */
  lemma {:induction false} SingleFlight(es: seq<Event>)
    requires WellFormed(es)
    ensures var r := Run(es);
      var started, finished := CountEffect(r.1, Started), CountEffect(r.1, Finished);
      && finished <= started <= finished + 1
      && (r.0 <==> started == finished + 1)
  {
    if es != [] {
      var init := es[..|es| - 1];
      WellFormedPrefix(es);
      SingleFlight(init);
      var fx := Run(es).1;
      assert fx[..|fx| - 1] == Run(init).1;
    }
  }

  /**
   * Every webhook call is answered with 200: after any history, the answers
   * given are all the arrivals except the one whose cycle is still running.
   */
  lemma {:induction false} EveryArrivalAnswered(es: seq<Event>)
    requires WellFormed(es)
    ensures var r := Run(es);
      CountEffect(r.1, Dropped) + CountEffect(r.1, Finished)
        == CountEvent(es, Arrival) - (if r.0 then 1 else 0)
  {
    ArrivalsDroppedOrStarted(es);
    SingleFlight(es);
  }

  lemma {:induction false} ArrivalsDroppedOrStarted(es: seq<Event>)
    ensures var fx := Run(es).1;
      CountEffect(fx, Dropped) + CountEffect(fx, Started) == CountEvent(es, Arrival)
  {
    if es != [] {
      ArrivalsDroppedOrStarted(es[..|es| - 1]);
      var fx := Run(es).1;
      assert fx[..|fx| - 1] == Run(es[..|es| - 1]).1;
    }
  }

  /** The process-wide `isProcessing` flag and the handler that consults it. */
  class WebhookGate {
    var isProcessing: bool
    /** The events the gate has seen since start-up. */
    ghost var history: seq<Event>

    ghost predicate Valid()
      reads this
    {
      WellFormed(history) && isProcessing == Run(history).0
    }

    /** Start-up: no cycle is running. */
    constructor ()
      ensures Valid() && !isProcessing && history == []
    {
      isProcessing := false;
      history := [];
    }

    /**
     * A webhook call arrives. When busy it is dropped and answered with 200
     * now; when idle the flag is set before the cycle starts and the answer
     * waits for `Complete`.
     */
    method Arrive() returns (start: bool, reply: Option<int>)
      requires Valid()
      modifies this
      ensures Valid() && history == old(history) + [Arrival]
      ensures isProcessing
      ensures start <==> !old(isProcessing)
      ensures reply == if old(isProcessing) then Some(StatusOk) else None
    {
      WellFormedExtend(history, Arrival);
      history := history + [Arrival];
      if isProcessing {
        return false, Some(StatusOk);
      }
      isProcessing := true;
      start, reply := true, None;
    }

    /** The running cycle has ended (it never throws): clear the flag and answer 200. */
    method Complete() returns (reply: int)
      requires Valid() && isProcessing
      modifies this
      ensures Valid() && history == old(history) + [Completion]
      ensures !isProcessing
      ensures reply == StatusOk
    {
      WellFormedExtend(history, Completion);
      history := history + [Completion];
      isProcessing := false;
      reply := StatusOk;
    }

    /**
     * The whole handler run as one sequence of steps: a call that finds the
     * gate idle runs the cycle and leaves it idle again; one that finds it
     * busy changes nothing. Either way the answer is 200.
     */
    method HandleWebhook(response: StatementResponse, localTime: string)
      returns (reply: int, outbound: Option<string>)
      requires Valid()
      modifies this
      ensures Valid()
      ensures reply == StatusOk
      ensures isProcessing == old(isProcessing)
      ensures outbound == if old(isProcessing) then None else Notification(response, localTime)
      ensures history == old(history) + if old(isProcessing) then [Arrival] else [Arrival, Completion]
    {
      var start, early := Arrive();
      if !start {
        return early.value, None;
      }
      outbound := PerformCycle(response, localTime);
      reply := Complete();
    }
  }
}
