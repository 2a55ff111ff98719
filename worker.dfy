/**
 * The try/catch/finally worker (`TryFinally.Worker`). Its two collaborators either
 * return or throw; each method reports how it left (a value or an exception) and how
 * many times it called `Close`.
 */
module TryFinally {
  import opened Wrappers

  /** The value the worker's methods return. */
  datatype ExitedFrom = Try | Catch | Finally | EndOfMethod

  /** What a collaborator call does, the same on every call. */
  datatype Behaviour = Returns | Throws

  /** The exception each collaborator throws. */
  datatype Failure = InteractorFailure | CloserFailure

  /** How a method left: by returning a value or by letting an exception escape. */
  datatype Exit<T> = Returned(value: T) | Raised(error: Failure)

  /** The completion still pending when a finally block starts. */
  datatype Completion<T> = Normal | Return(value: T) | Throw(error: Failure)

  /** The exception a call of a collaborator with behaviour `b` throws, if any. */
  function CallOf(b: Behaviour, failure: Failure): Option<Failure> {
    if b == Throws then Some(failure) else None
  }

  /**
   * The completion after a finally block (which C# does not let return) ends with
   * `thrown`: an exception thrown there replaces whatever was pending, a pending return
   * or a pending exception alike; otherwise the pending completion resumes.
   */
  function AfterFinally<T>(pending: Completion<T>, thrown: Option<Failure>): Completion<T> {
    if thrown.Some? then Throw(thrown.value) else pending
  }

  /** How a completion leaves the method; `Normal` falls through to the statement `orElse` returns. */
  function Leave<T>(c: Completion<T>, orElse: T): Exit<T> {
    match c
    case Normal => Returned(orElse)
    case Return(v) => Returned(v)
    case Throw(e) => Raised(e)
  }

  class Worker {
    const interactor: Behaviour
    const closer: Behaviour

    constructor (interactor: Behaviour, closer: Behaviour)
      ensures this.interactor == interactor && this.closer == closer
    {
      this.interactor := interactor;
      this.closer := closer;
    }

    /** Returns from the try or the catch, closing once in the finally; a closer exception wins. */
    method ReturnDirectly() returns (r: Exit<ExitedFrom>, closes: nat)
      ensures r != Returned(EndOfMethod)
      ensures closes == 1
      ensures closer == Throws ==> r == Raised(CloserFailure)
      ensures closer == Returns ==> r == Returned(if interactor == Returns then Try else Catch)
    {
      closes := 0;
      var pending: Completion<ExitedFrom>;
      // The try block: React, then return Try.
      var reacted := CallOf(interactor, InteractorFailure);
      pending := if reacted.Some? then Throw(reacted.value) else Return(Try);
      // The handler turns a pending exception into a return of Catch.
      if pending.Throw? {
        pending := Return(Catch);
      }
      // The finally block: Close.
      var closed := CallOf(closer, CloserFailure);
      closes := closes + 1;
      pending := AfterFinally(pending, closed);
      r := Leave(pending, EndOfMethod);
    }

    /**
     * Records in flags how far it got and decides after the try statement, testing
     * `finishedTry`, then `reachedFinally`, then `caught`.
     */
    method ReturnAtEnd_FavoringFinally() returns (r: Exit<ExitedFrom>, closes: nat)
      ensures r != Returned(EndOfMethod)
      ensures closes == 1
      ensures closer == Throws ==> r == Raised(CloserFailure)
      ensures closer == Returns ==> r == Returned(if interactor == Returns then Try else Finally)
    {
      closes := 0;
      var finishedTry, caught, reachedFinally := false, false, false;
      var pending: Completion<ExitedFrom> := Normal;
      // The try block: React, then mark the try finished.
      var reacted := CallOf(interactor, InteractorFailure);
      if reacted.Some? {
        pending := Throw(reacted.value);
      } else {
        finishedTry := true;
      }
      // The handler marks the exception caught and completes normally.
      if pending.Throw? {
        caught := true;
        pending := Normal;
      }
      // The finally block: Close, then mark the finally reached.
      var closed := CallOf(closer, CloserFailure);
      closes := closes + 1;
      if closed.None? {
        reachedFinally := true;
      }
      pending := AfterFinally(pending, closed);
      if !pending.Normal? {
        r := Leave(pending, EndOfMethod);
        return;
      }
      if finishedTry {
        return Returned(Try), closes;
      }
      if reachedFinally {
        return Returned(Finally), closes;
      }
      if caught {
        return Returned(Catch), closes;
      }
      r := Returned(EndOfMethod);
    }

    /** The same flags, testing `finishedTry`, then `caught && !reachedFinally`, then `reachedFinally`. */
    method ReturnAtEnd_FavoringCatch() returns (r: Exit<ExitedFrom>, closes: nat)
      ensures r != Returned(EndOfMethod)
      ensures closes == 1
      ensures closer == Throws ==> r == Raised(CloserFailure)
      ensures closer == Returns ==> r == Returned(if interactor == Returns then Try else Finally)
    {
      closes := 0;
      var finishedTry, caught, reachedFinally := false, false, false;
      var pending: Completion<ExitedFrom> := Normal;
      // The try block: React, then mark the try finished.
      var reacted := CallOf(interactor, InteractorFailure);
      if reacted.Some? {
        pending := Throw(reacted.value);
      } else {
        finishedTry := true;
      }
      // The handler marks the exception caught and completes normally.
      if pending.Throw? {
        caught := true;
        pending := Normal;
      }
      // The finally block: Close, then mark the finally reached.
      var closed := CallOf(closer, CloserFailure);
      closes := closes + 1;
      if closed.None? {
        reachedFinally := true;
      }
      pending := AfterFinally(pending, closed);
      if !pending.Normal? {
        r := Leave(pending, EndOfMethod);
        return;
      }
      if finishedTry {
        return Returned(Try), closes;
      }
      if caught && !reachedFinally {
        return Returned(Catch), closes;
      }
      if reachedFinally {
        return Returned(Finally), closes;
      }
      r := Returned(EndOfMethod);
    }

    /**
     * Closes in the catch and again in the finally: once when `React` returns, twice when
     * it throws; a closer exception escapes either way.
     */
    method ClosingTwice() returns (r: Exit<ExitedFrom>, closes: nat)
      ensures r != Returned(EndOfMethod)
      ensures closes == if interactor == Returns then 1 else 2
      ensures closer == Throws ==> r == Raised(CloserFailure)
      ensures closer == Returns ==> r == Returned(if interactor == Returns then Try else Catch)
    {
      closes := 0;
      var pending: Completion<ExitedFrom>;
      // The try block: React, then return Try.
      var reacted := CallOf(interactor, InteractorFailure);
      pending := if reacted.Some? then Throw(reacted.value) else Return(Try);
      // The handler closes, then returns Catch unless that close threw.
      if pending.Throw? {
        var closedInCatch := CallOf(closer, CloserFailure);
        closes := closes + 1;
        pending := if closedInCatch.Some? then Throw(closedInCatch.value) else Return(Catch);
      }
      // The finally block: Close.
      var closed := CallOf(closer, CloserFailure);
      closes := closes + 1;
      pending := AfterFinally(pending, closed);
      r := Leave(pending, EndOfMethod);
    }

    /** Counts its way through the blocks: 3 whether or not `React` throws; it never closes. */
    method Incrementor() returns (i: int, closes: nat)
      ensures i == 3 && closes == 0
    {
      closes := 0;
      i := 0;
      // The try block counts once before React and once after it.
      i := i + 1;
      var reacted := CallOf(interactor, InteractorFailure);
      if reacted.None? {
        i := i + 1;
      } else {
        // The handler counts once instead.
        i := i + 1;
      }
      // The finally block counts once more.
      i := i + 1;
    }
  }
}
