/** A support case (`SupportCase`) and the values that describe its state. */
module SupportCases {
  import opened Wrappers
  import opened SystemClock

  /** The observable state of a case: its seven public properties. */
  datatype CaseState = CaseState(
    description: string,
    dateCreated: Instant,
    isEscalated: bool,
    isFinalized: bool,
    dateFinalized: Option<Instant>,
    finalizer: Option<string>,
    finalizeMessage: Option<string>)

  /** The three finalize fields are set together, exactly when the case is finalized. */
  predicate Consistent(s: CaseState) {
    && s.dateFinalized.Some? == s.isFinalized
    && s.finalizer.Some? == s.isFinalized
    && s.finalizeMessage.Some? == s.isFinalized
  }

  /** The state the constructor leaves: description and creation date set, all else at its default. */
  function Created(description: string, now: Instant): (s: CaseState)
    ensures Consistent(s) && !s.isFinalized && !s.isEscalated
    ensures s.dateFinalized == None && s.finalizer == None && s.finalizeMessage == None
    ensures s.description == description && s.dateCreated == now
  {
    CaseState(description, now, false, false, None, None, None)
  }

  /**
   * The state `Finalize(finalizer, finalizeMessage)` leaves when the clock reads `now`:
   * the four finalize fields are overwritten, whatever they held, and the rest is kept.
   */
  function Finalized(s: CaseState, finalizer: string, finalizeMessage: string, now: Instant): (r: CaseState)
    ensures Consistent(r) && r.isFinalized
    ensures r.finalizer == Some(finalizer) && r.finalizeMessage == Some(finalizeMessage)
    ensures r.dateFinalized == Some(now)
    ensures r.description == s.description && r.dateCreated == s.dateCreated
    ensures r.isEscalated == s.isEscalated
  {
    s.(isFinalized := true, dateFinalized := Some(now),
       finalizer := Some(finalizer), finalizeMessage := Some(finalizeMessage))
  }

  /** `Finalize` has no guard: a second call replaces every trace of the first. */
  lemma FinalizeTwiceOverwrites(s: CaseState, f1: string, m1: string, t1: Instant,
                                f2: string, m2: string, t2: Instant)
    ensures Finalized(Finalized(s, f1, m1, t1), f2, m2, t2) == Finalized(s, f2, m2, t2)
  {
  }

  /**
   * A support case. `description` and `dateCreated` have private setters that only the
   * constructor uses, so they are constants; `isEscalated` is the one property the
   * callers set; the finalize fields change only through `Finalize`.
   */
  class SupportCase {
    const clock: Clock
    const description: string
    const dateCreated: Instant
    var isEscalated: bool
    var isFinalized: bool
    var dateFinalized: Option<Instant>
    var finalizer: Option<string>
    var finalizeMessage: Option<string>

    /** The case's public properties, as a value. */
    function State(): CaseState
      reads this
    {
      CaseState(description, dateCreated, isEscalated, isFinalized, dateFinalized, finalizer, finalizeMessage)
    }

    /** Reads the clock once, to stamp the creation date. */
    constructor (description: string, clock: Clock)
      ensures this.clock == clock
      ensures State() == Created(description, clock.now)
    {
      this.clock := clock;
      this.description := description;
      this.dateCreated := clock.now;
      isEscalated := false;
      isFinalized := false;
      dateFinalized := None;
      finalizer := None;
      finalizeMessage := None;
    }

    /** Closes the case, reading the clock again at the moment of the call. */
    method Finalize(finalizer: string, finalizeMessage: string)
      modifies this
      ensures State() == Finalized(old(State()), finalizer, finalizeMessage, clock.now)
    {
      isFinalized := true;
      dateFinalized := Some(clock.now);
      this.finalizer := Some(finalizer);
      this.finalizeMessage := Some(finalizeMessage);
    }
  }
}
