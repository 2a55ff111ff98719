/** The concrete messaging service (`MessagingService`) and the logger it writes to. */
module MessagingServices {
  import opened Wrappers
  import opened CaseLogs
  import opened SupportCases
  import opened SystemClock

  /**
   * The projection `WriteToLog` performs: a fresh record holding the case's current
   * audit fields, one for one.
   */
  function LogOf(s: CaseState): (log: CaseLog)
    ensures log.isFinalized == s.isFinalized && log.finalizer == s.finalizer
    ensures log.dateFinalized == s.dateFinalized && log.description == s.description
    ensures log.isEscalated == s.isEscalated && log.finalizeMessage == s.finalizeMessage
    ensures Consistent(s) ==> (log.dateFinalized.Some? <==> log.isFinalized)
  {
    CaseLog(s.isFinalized, s.finalizer, s.dateFinalized, s.description, s.isEscalated, s.finalizeMessage)
  }

  /** The log of a just-finalized case reports exactly what `Finalize` stamped. */
  lemma LogOfFinalized(s: CaseState, f: string, m: string, t: Instant)
    ensures LogOf(Finalized(s, f, m, t))
         == CaseLog(true, Some(f), Some(t), s.description, s.isEscalated, Some(m))
  {
  }

  /** A log of a case that was never finalized carries no finalize date, finalizer or message. */
  lemma LogOfOpenCase(s: CaseState)
    requires Consistent(s) && !s.isFinalized
    ensures LogOf(s).dateFinalized == None && LogOf(s).finalizer == None
    ensures LogOf(s).finalizeMessage == None && !LogOf(s).isFinalized
  {
  }

  /** The audit sink (`ILogger`): only `WriteCase`, kept as the records it was given, in order. */
  class Logger {
    var written: seq<CaseLog>

    constructor ()
      ensures written == []
    {
      written := [];
    }

    method WriteCase(log: CaseLog)
      modifies this
      ensures written == old(written) + [log]
    {
      written := written + [log];
    }
  }

  class MessagingService {
    const logger: Logger
    var isLocked: bool

    constructor (logger: Logger)
      ensures this.logger == logger && !isLocked
    {
      this.logger := logger;
      isLocked := false;
    }

    /** Not implemented in this class: every call throws. */
    method RespondToClient(c: SupportCase) returns (r: Outcome<Exception>)
      ensures r == Fail(NotImplementedException)
    {
      r := Fail(NotImplementedException);
    }

    /** Not implemented in this class: every call throws. */
    method EscalateToManagement(c: SupportCase) returns (r: Outcome<Exception>)
      ensures r == Fail(NotImplementedException)
    {
      r := Fail(NotImplementedException);
    }

    /** One logger call, with a record built from the case as it is now; the case and the lock flag are untouched. */
    method WriteToLog(c: SupportCase)
      modifies logger
      ensures logger.written == old(logger.written) + [LogOf(c.State())]
      ensures isLocked == old(isLocked)
      ensures c.State() == old(c.State())
    {
      logger.WriteCase(LogOf(c.State()));
    }

    /** Only the flag changes: the last call wins and the logger is not called. */
    method Lock(isLocked: bool)
      modifies this
      ensures this.isLocked == isLocked
      ensures logger.written == old(logger.written)
    {
      this.isLocked := isLocked;
    }
  }
}
