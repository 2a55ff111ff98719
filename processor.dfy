/**
 * The processor base (`SupportCaseProcessor`): three collaborators held from construction,
 * case creation, and `Process`/`MarkAsClosed` dispatched to the policy chosen at
 * construction (one per subclass of the abstract base).
 */
module Processors {
  import opened Wrappers
  import opened SystemClock
  import opened SupportCases
  import opened Boundary
  import opened Verification
  import EagerPolicy
  import LazyPolicy
  import CorrectPolicy

  /** The three concrete processors. */
  datatype Policy = Eager | Lazy | Correct

  /** The calls `Process` makes under policy `p` on case `c` in state `s`. */
  function ProcessCalls(p: Policy, c: SupportCase, s: CaseState): seq<Event> {
    match p
    case Eager => EagerPolicy.ProcessCalls(c, s)
    case Lazy => LazyPolicy.ProcessCalls(c, s)
    case Correct => CorrectPolicy.ProcessCalls(c, s)
  }

  /** What `MarkAsClosed` does under policy `p` (only the correct policy uses the verifier's answer). */
  function Close(p: Policy, c: SupportCase, s: CaseState, resolved: bool,
                 finalizer: string, message: string, now: Instant): Closing {
    match p
    case Eager => EagerPolicy.Close(c, s, finalizer, message, now)
    case Lazy => LazyPolicy.Close(s)
    case Correct => CorrectPolicy.Close(c, s, resolved, finalizer, message, now)
  }

  /**
   * How many times each policy escalates one `Process` call: the eager one always, the
   * lazy one never, the correct one exactly when the case is escalated.
   */
  lemma EscalationsByPolicy(p: Policy, c: SupportCase, s: CaseState)
    ensures Count(ProcessCalls(p, c, s), EscalateCall)
         == match p
            case Eager => 1
            case Lazy => 0
            case Correct => if s.isEscalated then 1 else 0
  {
    match p
    case Eager => EagerPolicy.ProcessCallsShape(c, s);
    case Lazy => LazyPolicy.ProcessCallsShape(c, s);
    case Correct => CorrectPolicy.ProcessCallsShape(c, s);
  }

  /**
   * Management is notified of an escalated case by every policy but the lazy one, and of a
   * case that is not escalated only by the eager one.
   */
  lemma NotifiesManagement(p: Policy, c: SupportCase, s: CaseState)
    ensures Count(ProcessCalls(p, c, s), EscalateCall) > 0
        <==> (p == Eager || (p == Correct && s.isEscalated))
  {
    EscalationsByPolicy(p, c, s);
  }

  /** Only the eager policy locks, and it locks twice; no policy logs while processing. */
  lemma LocksAndLogsByPolicy(p: Policy, c: SupportCase, s: CaseState)
    ensures Count(ProcessCalls(p, c, s), LockCall) == if p == Eager then 2 else 0
    ensures Count(ProcessCalls(p, c, s), LogCall) == 0
    ensures Count(ProcessCalls(p, c, s), RespondCall) == 1
  {
    match p
    case Eager => EagerPolicy.ProcessCallsShape(c, s);
    case Lazy => LazyPolicy.ProcessCallsShape(c, s);
    case Correct => CorrectPolicy.ProcessCallsShape(c, s);
  }

  /** On a resolved case that is still open, the correct policy closes exactly as the eager one does. */
  lemma CorrectClosesLikeEagerWhenAllowed(c: SupportCase, s: CaseState, finalizer: string, message: string, now: Instant)
    requires !s.isFinalized
    ensures Close(Correct, c, s, true, finalizer, message, now) == Close(Eager, c, s, false, finalizer, message, now)
  {
  }

  class SupportCaseProcessor {
    const policy: Policy
    const messaging: RecordingMessaging
    const verifier: Verifier
    const clock: Clock

    /** Stores the three collaborators unchanged; every operation uses these instances. */
    constructor (policy: Policy, messaging: RecordingMessaging, verifier: Verifier, clock: Clock)
      ensures this.policy == policy && this.messaging == messaging
      ensures this.verifier == verifier && this.clock == clock
    {
      this.policy := policy;
      this.messaging := messaging;
      this.verifier := verifier;
      this.clock := clock;
    }

    /** A new open, unescalated case on the processor's clock, dated now; no collaborator is called. */
    method InitiateSupportCase(description: string) returns (c: SupportCase)
      ensures fresh(c) && c.clock == clock
      ensures c.State() == Created(description, clock.now)
      ensures messaging.trace == old(messaging.trace) && verifier.queries == old(verifier.queries)
    {
      c := new SupportCase(description, clock);
    }

    method Process(c: SupportCase)
      modifies messaging
      ensures messaging.trace == old(messaging.trace) + ProcessCalls(policy, c, c.State())
      ensures verifier.queries == old(verifier.queries)
    {
      match policy
      case Eager => EagerPolicy.Process(messaging, c);
      case Lazy => LazyPolicy.Process(messaging, c);
      case Correct => CorrectPolicy.Process(messaging, c);
    }

    /** Only the correct policy asks the verifier, and only it can fail. */
    method MarkAsClosed(c: SupportCase, finalizer: string, message: string) returns (r: Outcome<Exception>)
      modifies messaging, verifier, c
      ensures verifier.queries == old(verifier.queries) + (if policy == Correct then [c] else [])
      ensures var k := Close(policy, c, old(c.State()), verifier.judge(old(c.State())), finalizer, message, c.clock.now);
        r == k.result && c.State() == k.state && messaging.trace == old(messaging.trace) + k.calls
    {
      match policy
      case Eager =>
        EagerPolicy.MarkAsClosed(messaging, c, finalizer, message);
        r := Pass;
      case Lazy =>
        LazyPolicy.MarkAsClosed(messaging, c, finalizer, message);
        r := Pass;
      case Correct =>
        r := CorrectPolicy.MarkAsClosed(messaging, verifier, c, finalizer, message);
    }
  }
}
