/**
 * Client runs in the shape of the repository's tests, checked against the contracts
 * alone: what a caller can conclude from them.
 */
module Scenarios {
  import opened Wrappers
  import opened SystemClock
  import opened CaseLogs
  import opened SupportCases
  import opened MessagingServices
  import opened Boundary
  import opened Verification
  import opened Processors

  /** Finalize on a stubbed date, then log: the logger gets one record that matches the case. */
  method LogAFinalizedCase(created: Instant, finalizeDate: Instant) {
    var clock := new Clock(created);
    var logger := new Logger();
    var service := new MessagingService(logger);
    var c := new SupportCase("Looking at the logs", clock);
    clock.Set(finalizeDate);
    c.Finalize("finalizer", "this is done");
    service.WriteToLog(c);
    assert |logger.written| == 1;
    assert logger.written[0]
        == CaseLog(true, Some("finalizer"), Some(finalizeDate), "Looking at the logs", false, Some("this is done"));
    assert c.dateCreated == created && c.dateFinalized == Some(finalizeDate);
  }

  /** Each policy processing an escalated case, then an unescalated one. */
  method ProcessUnderEachPolicy(p: Policy) {
    var clock := new Clock(0);
    var messaging := new RecordingMessaging();
    var verifier := new Verifier(s => true);
    var processor := new SupportCaseProcessor(p, messaging, verifier, clock);
    var c := processor.InitiateSupportCase("Make the corners rounded.");
    c.isEscalated := true;
    processor.Process(c);
    assert messaging.trace == ProcessCalls(p, c, c.State());
    NotifiesManagement(p, c, c.State());
    assert Count(messaging.trace, EscalateCall) > 0 <==> p != Lazy;
    if p == Eager {
      assert messaging.trace == [Event.Lock(true), Respond(c, c.State()), Escalate(c, c.State()), Event.Lock(false)];
    }

    var d := processor.InitiateSupportCase("Make the corners rounded.");
    var before := messaging.trace;
    processor.Process(d);
    NotifiesManagement(p, d, d.State());
    CountAppend(before, ProcessCalls(p, d, d.State()), EscalateCall);
    assert Count(messaging.trace, EscalateCall) > Count(before, EscalateCall) <==> p == Eager;
  }

  /** The correct policy closes a resolved case once: the second close is a no-op. */
  method CloseTwiceWithTheCorrectPolicy(f1: string, f2: string) {
    var clock := new Clock(1);
    var messaging := new RecordingMessaging();
    var verifier := new Verifier(s => true);
    var processor := new SupportCaseProcessor(Correct, messaging, verifier, clock);
    var c := processor.InitiateSupportCase("Close me");
    clock.Set(2);
    var r1 := processor.MarkAsClosed(c, f1, "done");
    assert r1 == Pass && c.finalizer == Some(f1) && c.dateFinalized == Some(2);
    assert |messaging.trace| == 2 && messaging.trace[0] == Respond(c, c.State()) && messaging.trace[0].seen.isFinalized;
    clock.Set(3);
    var r2 := processor.MarkAsClosed(c, f2, "again");
    assert r2 == Pass && c.finalizer == Some(f1) && c.dateFinalized == Some(2);
    assert |messaging.trace| == 2;
  }

  /** The correct policy refuses a case its verifier does not call resolved. */
  method CloseUnresolvedWithTheCorrectPolicy() {
    var clock := new Clock(1);
    var messaging := new RecordingMessaging();
    var verifier := new Verifier(s => false);
    var processor := new SupportCaseProcessor(Correct, messaging, verifier, clock);
    var c := processor.InitiateSupportCase("Not done yet");
    var r := processor.MarkAsClosed(c, "Alice", "Resolved");
    assert r == Fail(ApplicationException("Case has not been verified as resolved."));
    assert messaging.trace == [] && !c.isFinalized;
  }

  /** The lazy policy's close leaves the case open and logs nothing. */
  method CloseWithTheLazyPolicy() {
    var clock := new Clock(1);
    var messaging := new RecordingMessaging();
    var verifier := new Verifier(s => true);
    var processor := new SupportCaseProcessor(Lazy, messaging, verifier, clock);
    var c := processor.InitiateSupportCase("Corners rounded");
    var r := processor.MarkAsClosed(c, "Bob", "done");
    assert !c.isFinalized && messaging.trace == [] && verifier.queries == [];
  }
}
