/**
 * The messaging boundary the processors talk to (`IMessagingService`): four operations,
 * each of which a processor's call records as one event, in call order.
 */
module Boundary {
  import opened Wrappers
  import opened CaseLogs
  import opened SupportCases
  import opened MessagingServices

  /**
   * One call on the boundary, with its arguments and the state of the case at the moment
   * of the call (`seen`); `Log` keeps the record the call would log.
   */
  datatype Event =
    | Respond(target: SupportCase, seen: CaseState)
    | Escalate(target: SupportCase, seen: CaseState)
    | Log(target: SupportCase, entry: CaseLog)
    | Lock(isLocked: bool)

  /** Which of the four operations an event is a call of. */
  datatype Operation = RespondCall | EscalateCall | LogCall | LockCall

  function OperationOf(e: Event): Operation {
    match e
    case Respond(_, _) => RespondCall
    case Escalate(_, _) => EscalateCall
    case Log(_, _) => LogCall
    case Lock(_) => LockCall
  }

  /** How many calls of operation `op` the trace `t` holds. */
  function Count(t: seq<Event>, op: Operation): (n: nat)
    ensures n <= |t|
    ensures n == 0 <==> forall i :: 0 <= i < |t| ==> OperationOf(t[i]) != op
  {
    if t == [] then 0
    else (if OperationOf(t[0]) == op then 1 else 0) + Count(t[1..], op)
  }

  /** Counting distributes over a trace that one run appends to another. */
  lemma {:induction false} CountAppend(t: seq<Event>, u: seq<Event>, op: Operation)
    ensures Count(t + u, op) == Count(t, op) + Count(u, op)
  {
    if t == [] {
      assert t + u == u;
    } else {
      assert (t + u)[1..] == t[1..] + u;
      CountAppend(t[1..], u, op);
    }
  }

  /** A single call counts once, for its own operation only. */
  lemma CountSingle(e: Event, op: Operation)
    ensures Count([e], op) == if OperationOf(e) == op then 1 else 0
  {
  }

  /** What one closing call did: how it returned, the case's state afterwards, and the calls it made. */
  datatype Closing = Closing(result: Outcome<Exception>, state: CaseState, calls: seq<Event>)

  /**
   * An implementation of the boundary that records every call made on it, as the
   * tests' mocks do; the trace is what the processors' contracts are stated over.
   */
  class RecordingMessaging {
    var trace: seq<Event>

    constructor ()
      ensures trace == []
    {
      trace := [];
    }

    method RespondToClient(c: SupportCase)
      modifies this
      ensures trace == old(trace) + [Respond(c, c.State())]
    {
      trace := trace + [Respond(c, c.State())];
    }

    method EscalateToManagement(c: SupportCase)
      modifies this
      ensures trace == old(trace) + [Escalate(c, c.State())]
    {
      trace := trace + [Escalate(c, c.State())];
    }

    /** The record is taken from the case as it is at the moment of the call. */
    method WriteToLog(c: SupportCase)
      modifies this
      ensures trace == old(trace) + [Log(c, LogOf(c.State()))]
    {
      trace := trace + [Log(c, LogOf(c.State()))];
    }

    method Lock(isLocked: bool)
      modifies this
      ensures trace == old(trace) + [Event.Lock(isLocked)]
    {
      trace := trace + [Event.Lock(isLocked)];
    }
  }
}
