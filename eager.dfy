/** The eager policy (`EagerSupportCaseProcessor`): lock, respond and escalate always; close without asking. */
module EagerPolicy {
  import opened Wrappers
  import opened SystemClock
  import opened SupportCases
  import opened MessagingServices
  import opened Boundary

  /** The calls `Process` makes on case `c` in state `s`, whatever that state is. */
  function ProcessCalls(c: SupportCase, s: CaseState): seq<Event> {
    [Event.Lock(true), Respond(c, s), Escalate(c, s), Event.Lock(false)]
  }

  /** The lock bracket encloses exactly one response and one escalation, escalated or not. */
  lemma ProcessCallsShape(c: SupportCase, s: CaseState)
    ensures ProcessCalls(c, s)[0] == Event.Lock(true)
    ensures ProcessCalls(c, s)[|ProcessCalls(c, s)| - 1] == Event.Lock(false)
    ensures Count(ProcessCalls(c, s), LockCall) == 2
    ensures Count(ProcessCalls(c, s), RespondCall) == 1
    ensures Count(ProcessCalls(c, s), EscalateCall) == 1
    ensures Count(ProcessCalls(c, s), LogCall) == 0
  {
    var t := ProcessCalls(c, s);
    assert t == [t[0]] + [t[1]] + [t[2]] + [t[3]];
    forall op: Operation
      ensures Count(t, op) == Count([t[0]], op) + Count([t[1]], op) + Count([t[2]], op) + Count([t[3]], op)
    {
      CountAppend([t[0]] + [t[1]] + [t[2]], [t[3]], op);
      CountAppend([t[0]] + [t[1]], [t[2]], op);
      CountAppend([t[0]], [t[1]], op);
    }
    forall op: Operation, i | 0 <= i < 4 ensures Count([t[i]], op) == if OperationOf(t[i]) == op then 1 else 0 {
      CountSingle(t[i], op);
    }
  }

  /** Closing: finalize from the state `s` at clock reading `now`, then respond, then log. */
  function Close(c: SupportCase, s: CaseState, finalizer: string, message: string, now: Instant): Closing {
    var closed := Finalized(s, finalizer, message, now);
    Closing(Pass, closed, [Respond(c, closed), Log(c, LogOf(closed))])
  }

  /**
   * The case is finalized before the response: the response sees the finalized case, and
   * the logged record shows it finalized by `finalizer` with `message` at `now`.
   */
  lemma CloseLogsFinalizedRecord(c: SupportCase, s: CaseState, finalizer: string, message: string, now: Instant)
    ensures var k := Close(c, s, finalizer, message, now);
      && k.calls[0].Respond? && k.calls[0].seen == k.state && k.calls[0].seen.isFinalized
      && var log := k.calls[1].entry;
      && log.isFinalized && log.finalizer == Some(finalizer) && log.finalizeMessage == Some(message)
      && log.dateFinalized == Some(now) && log.description == s.description && log.isEscalated == s.isEscalated
  {
  }

  /**
   * There is no guard against a second close: it finalizes again, with the second
   * call's arguments and clock reading, and logs again.
   */
  lemma CloseTwiceFinalizesTwice(c: SupportCase, s: CaseState, f1: string, m1: string, t1: Instant,
                                 f2: string, m2: string, t2: Instant)
    ensures var first := Close(c, s, f1, m1, t1);
      var second := Close(c, first.state, f2, m2, t2);
      && second.state == Finalized(s, f2, m2, t2)
      && Count(first.calls + second.calls, LogCall) == 2
      && Count(first.calls + second.calls, RespondCall) == 2
  {
    var first := Close(c, s, f1, m1, t1);
    var second := Close(c, first.state, f2, m2, t2);
    FinalizeTwiceOverwrites(s, f1, m1, t1, f2, m2, t2);
    forall op: Operation ensures Count(first.calls + second.calls, op) == Count(first.calls, op) + Count(second.calls, op) {
      CountAppend(first.calls, second.calls, op);
    }
    forall k: Closing, op: Operation | k == first || k == second
      ensures Count(k.calls, op) == Count([k.calls[0]], op) + Count([k.calls[1]], op)
    {
      assert k.calls == [k.calls[0]] + [k.calls[1]];
      CountAppend([k.calls[0]], [k.calls[1]], op);
    }
    forall e: Event, op: Operation ensures Count([e], op) == if OperationOf(e) == op then 1 else 0 {
      CountSingle(e, op);
    }
  }

  method Process(m: RecordingMessaging, c: SupportCase)
    modifies m
    ensures m.trace == old(m.trace) + ProcessCalls(c, c.State())
  {
    m.Lock(true);
    m.RespondToClient(c);
    m.EscalateToManagement(c);
    m.Lock(false);
  }

  method MarkAsClosed(m: RecordingMessaging, c: SupportCase, finalizer: string, message: string)
    modifies m, c
    ensures var k := Close(c, old(c.State()), finalizer, message, c.clock.now);
      c.State() == k.state && m.trace == old(m.trace) + k.calls
  {
    c.Finalize(finalizer, message);
    m.RespondToClient(c);
    m.WriteToLog(c);
  }
}
