# Support-case processing and try/finally worker, modelled in Dafny

This project models two parts of the repository.

**The support-case engine** (`MocksAndStubs/SystemUnderTest`). A `SupportCase` is created
from a description and a clock. Callers set its `IsEscalated` flag. `Finalize` closes it,
stamping the finalizer, the message and the clock's current time. A processor creates cases
and then processes or closes them. Each processor makes a fixed sequence of calls on a
four-operation messaging boundary: respond, escalate, write to log, and lock. There are
three policies:

- eager: lock, respond, escalate, unlock; closing always finalizes, responds and logs;
- lazy: respond only; closing does nothing;
- correct: respond, then escalate only escalated cases; closing asks the verifier first,
  skips a case that is already finalized, and otherwise finalizes, responds and logs.

The concrete `MessagingService` turns a case into a `CaseLog` record for the logger and
keeps a lock flag. Its respond and escalate operations throw "not implemented".

**The try/catch/finally `Worker`** (`TryFinally/SupportingPlayers.cs`). Five methods call an
interactor and a closer around try/catch/finally blocks. What they return, how often they
close and which exception escapes depend only on whether each collaborator throws.

## How the model is built

- `SupportCase` is a class. `State()` gives its seven public properties as a `CaseState`
  value. `Finalize` is specified by the pure function `Finalized`. The invariant
  `Consistent` says the three finalize fields are set exactly when the case is finalized.
- `CaseLog` is a datatype with the six audit fields. It has no creation date and no link to
  the case. C# `null` strings and `DateTime?` values without a value are `Option` values.
- A processor uses the boundary through `Boundary.RecordingMessaging`. This is an
  implementation of the four operations that records each call as an `Event` in the
  sequence `trace`, as the tests' mocks do. A respond or escalate event also records the
  state of the case at the moment of the call, so the trace shows that a closing policy
  finalizes the case before it responds. Each policy module has a pure function for the
  calls `Process` appends and a pure function `Close` for what `MarkAsClosed` does (its
  outcome, the case's new state and the calls made). Each method is proved to append
  exactly those calls and to leave exactly that state. Lemmas then prove the properties
  about the functions: counts, order, conditional escalation, failure with no side
  effects, and idempotence.
- The clock is a `Clock` object whose `now` field is what `Now` returns; callers move it on.
  The verifier's decision is an uninterpreted function `judge` of the case's state. The
  `Verifier` also records which cases it was asked about.
- The abstract base class and its three subclasses become one class,
  `Processors.SupportCaseProcessor`, tagged with a `Policy`. Its `Process` and
  `MarkAsClosed` dispatch to the policy modules.
- The thrown `ApplicationException` is a value: `Fail(ApplicationException(message))`.
- In `Worker`, each collaborator's behaviour is a constant, `Returns` or `Throws`. Each
  method steps through the try, catch and finally blocks and keeps the pending completion
  (normal, return or throw) in a variable. `AfterFinally` states C#'s rule: an exception
  thrown in a finally block replaces whatever was pending.
- `Scenarios` holds client runs shaped like the repository's tests. They are checked
  against the contracts alone.

`SupportCase.Finalize` has no guard, so a second call overwrites all four finalize fields
and reads the clock again (`SupportCases.FinalizeTwiceOverwrites`).

## Model

| member | source | states |
|---|---|---|
| `SupportCases.SupportCase.constructor` | MocksAndStubs/SystemUnderTest/SupportCase.cs:16-21 | keeps the clock; the description is stored and `DateCreated` is the clock's `Now` at construction; the case is not finalized and not escalated, and its finalize date, finalizer and message are unset |
| `SupportCases.SupportCase.Finalize` | MocksAndStubs/SystemUnderTest/SupportCase.cs:23-29 | the new state is `Finalized` of the old one with the given finalizer, the given message and the clock's `Now` at the moment of the call |
| `SupportCases.Finalized` | MocksAndStubs/SystemUnderTest/SupportCase.cs:23-29 | finalizing sets `IsFinalized`, `Finalizer`, `FinalizeMessage` and `DateFinalized`, leaves the result consistent, and keeps the description, creation date and escalation flag |
| `SupportCases.FinalizeTwiceOverwrites` | MocksAndStubs/SystemUnderTest/SupportCase.cs:23-29 | with no guard, a second finalize replaces the first one's finalizer, message and date |
| `MessagingServices.LogOf` | MocksAndStubs/SystemUnderTest/MessagingService.cs:28-36 | each of the six logged fields equals the case's field; for a consistent case the log has a finalize date exactly when it says finalized |
| `MessagingServices.LogOfFinalized` | MocksAndStubs/SystemUnderTest/MessagingService.cs:25-37 | the log of a just-finalized case says finalized, with the stamped finalizer, date and message and the case's description and escalation flag |
| `MessagingServices.LogOfOpenCase` | MocksAndStubs/SystemUnderTest/MessagingService.cs:30-34 | the log of an open case says not finalized and has no finalize date, finalizer or message |
| `MessagingServices.MessagingService.constructor` | MocksAndStubs/SystemUnderTest/MessagingService.cs:10-13 | stores the logger; the lock flag starts false |
| `MessagingServices.MessagingService.RespondToClient` | MocksAndStubs/SystemUnderTest/MessagingService.cs:15-18 | always fails with not-implemented |
| `MessagingServices.MessagingService.EscalateToManagement` | MocksAndStubs/SystemUnderTest/MessagingService.cs:20-23 | always fails with not-implemented |
| `MessagingServices.MessagingService.WriteToLog` | MocksAndStubs/SystemUnderTest/MessagingService.cs:25-37 | the logger gets exactly one new record, built from the case as it is now; the case and the lock flag are unchanged |
| `MessagingServices.MessagingService.Lock` | MocksAndStubs/SystemUnderTest/MessagingService.cs:39-42 | the flag becomes the argument, so the last call wins; the logger is not called |
| `Boundary.RecordingMessaging.RespondToClient` | MocksAndStubs/SystemUnderTest/IMessagingService.cs:5 | a call appends one `Respond` event for the case, carrying the case's state at the moment of the call |
| `Boundary.RecordingMessaging.EscalateToManagement` | MocksAndStubs/SystemUnderTest/IMessagingService.cs:6 | a call appends one `Escalate` event for the case, carrying the case's state at the moment of the call |
| `Boundary.RecordingMessaging.WriteToLog` | MocksAndStubs/SystemUnderTest/IMessagingService.cs:7 | a call appends one `Log` event carrying the record of the case at the moment of the call |
| `Boundary.RecordingMessaging.Lock` | MocksAndStubs/SystemUnderTest/IMessagingService.cs:8 | a call appends one `Lock` event with its argument |
| `Verification.Verifier.IsResolved` | MocksAndStubs/SystemUnderTest/CorrectSupportCaseProcessor.cs:23 | the answer is the verifier's judgement of the case's current state, and the query is recorded |
| `Processors.SupportCaseProcessor.constructor` | MocksAndStubs/SystemUnderTest/SupportCaseProcessor.cs:11-16 | stores the three collaborators unchanged; every operation uses those instances |
| `Processors.SupportCaseProcessor.InitiateSupportCase` | MocksAndStubs/SystemUnderTest/SupportCaseProcessor.cs:18-21 | returns a fresh case on the processor's clock, with the description, created at the clock's `Now`, not finalized and not escalated; no messaging or verifier call is made |
| `Processors.SupportCaseProcessor.Process` | MocksAndStubs/SystemUnderTest/SupportCaseProcessor.cs:23 | appends exactly the calls of the processor's policy and does not consult the verifier |
| `Processors.SupportCaseProcessor.MarkAsClosed` | MocksAndStubs/SystemUnderTest/SupportCaseProcessor.cs:24 | result, new case state and appended calls are the policy's `Close` (so a closing policy finalizes before it responds, and the response sees the finalized case); the verifier is asked once under the correct policy and never under the others |
| `Processors.EscalationsByPolicy` | MocksAndStubs/SupportCaseProcessorTester.cs:17-35 | one `Process` escalates once under the eager policy, never under the lazy one, and under the correct one exactly when the case is escalated |
| `Processors.NotifiesManagement` | MocksAndStubs/SupportCaseProcessorTester.cs:17-35 | management hears of an escalated case from every policy but the lazy one, and of an unescalated case only from the eager one, which therefore fails the "not notified" test |
| `Processors.LocksAndLogsByPolicy` | MocksAndStubs/SupportCaseProcessorTester.cs:66-98 | only the eager policy locks, and twice; each policy responds once and none logs while processing |
| `Processors.CorrectClosesLikeEagerWhenAllowed` | MocksAndStubs/SystemUnderTest/CorrectSupportCaseProcessor.cs:31-33 | on a resolved open case the correct policy's close is the eager one's |
| `EagerPolicy.ProcessCallsShape` | MocksAndStubs/SystemUnderTest/EagerSupportCaseProcessor.cs:10-16 | the calls start with lock(true) and end with lock(false); there are two locks, one response, one escalation and no log |
| `EagerPolicy.Process` | MocksAndStubs/SystemUnderTest/EagerSupportCaseProcessor.cs:10-16 | appends exactly lock(true), respond, escalate, lock(false), whatever the escalation flag, and leaves the case alone |
| `EagerPolicy.MarkAsClosed` | MocksAndStubs/SystemUnderTest/EagerSupportCaseProcessor.cs:18-23 | finalizes the case at the clock's `Now`, then appends a respond that sees the finalized case and a log of it; the verifier is not in its frame |
| `EagerPolicy.CloseLogsFinalizedRecord` | MocksAndStubs/SystemUnderTest/EagerSupportCaseProcessor.cs:20-22 | the response sees the case already finalized; the logged record says finalized, with the given finalizer and message, the date and the case's description and flag |
| `EagerPolicy.CloseTwiceFinalizesTwice` | MocksAndStubs/SystemUnderTest/EagerSupportCaseProcessor.cs:18-23 | two closes finalize twice (the second one's values win) and respond and log twice |
| `LazyPolicy.ProcessCallsShape` | MocksAndStubs/SystemUnderTest/LazySupportCaseProcessor.cs:10-13 | one response; no escalation, lock or log |
| `LazyPolicy.Process` | MocksAndStubs/SystemUnderTest/LazySupportCaseProcessor.cs:10-13 | appends exactly one respond call |
| `LazyPolicy.MarkAsClosed` | MocksAndStubs/SystemUnderTest/LazySupportCaseProcessor.cs:15-17 | changes nothing: no call is appended and the case keeps its state |
| `LazyPolicy.CloseLeavesCaseOpen` | MocksAndStubs/SystemUnderTest/LazySupportCaseProcessor.cs:15-17 | an open case stays open after a lazy close, and nothing is logged |
| `CorrectPolicy.ProcessCallsShape` | MocksAndStubs/SystemUnderTest/CorrectSupportCaseProcessor.cs:12-19 | a response first, then an escalation if and only if the case is escalated; no lock and no log |
| `CorrectPolicy.Process` | MocksAndStubs/SystemUnderTest/CorrectSupportCaseProcessor.cs:12-19 | appends respond, then escalate exactly when the case is escalated |
| `CorrectPolicy.MarkAsClosed` | MocksAndStubs/SystemUnderTest/CorrectSupportCaseProcessor.cs:21-34 | asks the verifier once; the result, new case state and appended calls are `Close` of the old state and the verifier's answer, so it finalizes before it responds |
| `CorrectPolicy.CloseRefusesUnresolved` | MocksAndStubs/SystemUnderTest/CorrectSupportCaseProcessor.cs:23-26 | unresolved cases, finalized or not, fail with "Case has not been verified as resolved.", make no call and keep their state |
| `CorrectPolicy.CloseSkipsFinalized` | MocksAndStubs/SystemUnderTest/CorrectSupportCaseProcessor.cs:27-30 | a resolved, already finalized case returns normally with no call and no change |
| `CorrectPolicy.CloseFinalizesResolvedOpenCase` | MocksAndStubs/SystemUnderTest/CorrectSupportCaseProcessor.cs:31-33 | a resolved open case is finalized with the given finalizer, message and date; the response then sees the finalized case, and the log records it as finalized |
| `CorrectPolicy.CloseIsIdempotent` | MocksAndStubs/SystemUnderTest/CorrectSupportCaseProcessor.cs:23-33 | after a successful close, a second one makes no call and keeps the first finalizer, message and date; it succeeds exactly when the verifier again says resolved |
| `CorrectPolicy.CloseFailsOnlyWhenUnresolved` | MocksAndStubs/SystemUnderTest/CorrectSupportCaseProcessor.cs:23-30 | a close fails if and only if the verifier says not resolved |
| `TryFinally.Worker.constructor` | TryFinally/SupportingPlayers.cs:10-14 | stores the interactor and the closer |
| `TryFinally.Worker.ReturnDirectly` | TryFinally/SupportingPlayers.cs:16-33 | closes once; returns `Try` or `Catch` as `React` returns or throws when `Close` returns; raises the closer's exception when `Close` throws; never `EndOfMethod` |
| `TryFinally.Worker.ReturnAtEnd_FavoringFinally` | TryFinally/SupportingPlayers.cs:35-67 | closes once; returns `Try` or `Finally` (never `Catch`) when `Close` returns; raises the closer's exception when `Close` throws |
| `TryFinally.Worker.ReturnAtEnd_FavoringCatch` | TryFinally/SupportingPlayers.cs:69-101 | closes once; returns `Try` or `Finally` (never `Catch`) when `Close` returns; raises the closer's exception when `Close` throws |
| `TryFinally.Worker.ClosingTwice` | TryFinally/SupportingPlayers.cs:103-120 | closes once if `React` returns and twice if it throws; returns `Try` or `Catch` when `Close` returns; raises the closer's exception when `Close` throws |
| `TryFinally.Worker.Incrementor` | TryFinally/SupportingPlayers.cs:122-140 | returns 3 whether or not `React` throws, and never closes |

## Left out

- The processors are modelled against a call-recording implementation of the messaging
  interface, as in the tests. Running them against the concrete `MessagingService`, whose
  respond call throws, is not modelled. Neither is any other collaborator failure passing
  through a processor.
- `Lock` is a flag or an event only. Blocking, mutual exclusion and concurrency are not
  modelled.
- `DateTime` is an integer instant. The clock is an object whose `now` the caller sets.
  Of the clock, verifier and logger collaborators, the model keeps only the members the code
  calls: `Now`, `IsResolved` and `WriteCase`.
- The verifier's decision procedure is an uninterpreted function of the case's state. The
  logger's durability is not modelled; the `Logger` only keeps the records it was given.
- The private setters of `SupportCase` cannot be expressed in Dafny. `Description` and
  `DateCreated` are constants. The finalize fields are fields that only `Finalize` assigns.
- `null` arguments (description, finalizer, message) are not modelled; they are always
  strings.
- Respond and escalate have no effect in the model beyond the recorded event.
- In `Worker`, each collaborator behaves the same way on every call, as the tests' stubs
  do. The `bool` that `React` returns is ignored by every method and is not modelled.
- The stream helpers (`StreamsAndFiles`), the object-comparison tests
  (`ExpectedObjectsAssertions`) and the mocking library's mechanics are not part of this
  model.
