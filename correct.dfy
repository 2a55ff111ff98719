/**
 * The correct policy (`CorrectSupportCaseProcessor`): escalate only escalated cases;
 * close only cases the verifier calls resolved, and only once.
 */
module CorrectPolicy {
  import opened Wrappers
  import opened SystemClock
  import opened SupportCases
  import opened MessagingServices
  import opened Boundary
  import opened Verification

  /** The message of the exception thrown for a case the verifier does not call resolved. */
  const NotResolvedMessage := "Case has not been verified as resolved."

  /** The calls `Process` makes on case `c` in state `s`. */
  function ProcessCalls(c: SupportCase, s: CaseState): seq<Event> {
    [Respond(c, s)] + (if s.isEscalated then [Escalate(c, s)] else [])
  }

  /** A response first, then an escalation if and only if the case is escalated; never a lock or a log. */
  lemma ProcessCallsShape(c: SupportCase, s: CaseState)
    ensures ProcessCalls(c, s)[0] == Respond(c, s)
    ensures Count(ProcessCalls(c, s), RespondCall) == 1
    ensures Count(ProcessCalls(c, s), EscalateCall) == if s.isEscalated then 1 else 0
    ensures Escalate(c, s) in ProcessCalls(c, s) <==> s.isEscalated
    ensures Count(ProcessCalls(c, s), LockCall) == 0
    ensures Count(ProcessCalls(c, s), LogCall) == 0
  {
  }

  /**
   * Closing from state `s` when the verifier's answer is `resolved` and the clock reads
   * `now`: the verifier is asked first, then the finalized flag, then the case is
   * finalized, answered and logged.
   */
  function Close(c: SupportCase, s: CaseState, resolved: bool, finalizer: string, message: string, now: Instant): Closing {
    if !resolved then Closing(Fail(ApplicationException(NotResolvedMessage)), s, [])
    else if s.isFinalized then Closing(Pass, s, [])
    else
      var closed := Finalized(s, finalizer, message, now);
      Closing(Pass, closed, [Respond(c, closed), Log(c, LogOf(closed))])
  }

  /** An unresolved case is refused, finalized or not, with no call and no change. */
  lemma CloseRefusesUnresolved(c: SupportCase, s: CaseState, finalizer: string, message: string, now: Instant)
    ensures Close(c, s, false, finalizer, message, now)
         == Closing(Fail(ApplicationException(NotResolvedMessage)), s, [])
  {
  }

  /** A resolved case that is already finalized is left as it is, and the call returns normally. */
  lemma CloseSkipsFinalized(c: SupportCase, s: CaseState, finalizer: string, message: string, now: Instant)
    requires s.isFinalized
    ensures Close(c, s, true, finalizer, message, now) == Closing(Pass, s, [])
  {
  }

  /**
   * A resolved open case is finalized with the given finalizer, message and date, then
   * answered, then logged with a record of the finalized case.
   */
  lemma CloseFinalizesResolvedOpenCase(c: SupportCase, s: CaseState, finalizer: string, message: string, now: Instant)
    requires !s.isFinalized
    ensures var k := Close(c, s, true, finalizer, message, now);
      && k.result == Pass
      && k.state.isFinalized && k.state.finalizer == Some(finalizer)
      && k.state.finalizeMessage == Some(message) && k.state.dateFinalized == Some(now)
      && k.calls == [Respond(c, k.state), Log(c, LogOf(k.state))]
      && k.calls[0].seen.isFinalized && k.calls[1].entry.isFinalized
  {
  }

  /**
   * Closing is idempotent: whatever the verifier answers the second time, a second
   * close makes no call and keeps the first finalizer, message and date.
   */
  lemma CloseIsIdempotent(c: SupportCase, s: CaseState, r1: bool, f1: string, m1: string, t1: Instant,
                          r2: bool, f2: string, m2: string, t2: Instant)
    requires Close(c, s, r1, f1, m1, t1).result == Pass
    ensures var first := Close(c, s, r1, f1, m1, t1);
      var second := Close(c, first.state, r2, f2, m2, t2);
      && second.state == first.state && second.calls == []
      && (r2 <==> second.result == Pass)
  {
  }

  /** The only way a close can fail is the verifier's refusal. */
  lemma CloseFailsOnlyWhenUnresolved(c: SupportCase, s: CaseState, resolved: bool, finalizer: string, message: string, now: Instant)
    ensures Close(c, s, resolved, finalizer, message, now).result.Fail? <==> !resolved
  {
  }

  method Process(m: RecordingMessaging, c: SupportCase)
    modifies m
    ensures m.trace == old(m.trace) + ProcessCalls(c, c.State())
  {
    m.RespondToClient(c);
    if c.isEscalated {
      m.EscalateToManagement(c);
    }
  }

  method MarkAsClosed(m: RecordingMessaging, v: Verifier, c: SupportCase, finalizer: string, message: string)
    returns (r: Outcome<Exception>)
    modifies m, v, c
    ensures v.queries == old(v.queries) + [c]
    ensures var k := Close(c, old(c.State()), v.judge(old(c.State())), finalizer, message, c.clock.now);
      r == k.result && c.State() == k.state && m.trace == old(m.trace) + k.calls
  {
    var resolved := v.IsResolved(c);
    if !resolved {
      return Fail(ApplicationException(NotResolvedMessage));
    }
    if c.isFinalized {
      return Pass;
    }
    c.Finalize(finalizer, message);
    m.RespondToClient(c);
    m.WriteToLog(c);
    r := Pass;
  }
}
