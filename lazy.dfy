/** The lazy policy (`LazySupportCaseProcessor`): respond only, and never close. */
module LazyPolicy {
  import opened Wrappers
  import opened SupportCases
  import opened Boundary

  /** The calls `Process` makes on case `c` in state `s`: one response. */
  function ProcessCalls(c: SupportCase, s: CaseState): seq<Event> {
    [Respond(c, s)]
  }

  /** No escalation, no lock and no log, whether or not the case is escalated. */
  lemma ProcessCallsShape(c: SupportCase, s: CaseState)
    ensures Count(ProcessCalls(c, s), RespondCall) == 1
    ensures Count(ProcessCalls(c, s), EscalateCall) == 0
    ensures Count(ProcessCalls(c, s), LockCall) == 0
    ensures Count(ProcessCalls(c, s), LogCall) == 0
  {
  }

  /** Closing does nothing: the state is kept and no call is made. */
  function Close(s: CaseState): Closing {
    Closing(Pass, s, [])
  }

  /** After a lazy close an open case is still open and nothing was logged. */
  lemma CloseLeavesCaseOpen(s: CaseState)
    requires !s.isFinalized
    ensures !Close(s).state.isFinalized && Close(s).state == s
    ensures Count(Close(s).calls, LogCall) == 0
  {
  }

  method Process(m: RecordingMessaging, c: SupportCase)
    modifies m
    ensures m.trace == old(m.trace) + ProcessCalls(c, c.State())
  {
    m.RespondToClient(c);
  }

  /** An empty method: it may change nothing, so the trace and the case stay as they were. */
  method MarkAsClosed(m: RecordingMessaging, c: SupportCase, finalizer: string, message: string)
    ensures var k := Close(old(c.State()));
      c.State() == k.state && m.trace == old(m.trace) + k.calls
  {
  }
}
