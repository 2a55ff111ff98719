/** The verifier collaborator (`IVerifier`): only `IsResolved`, the one call the code makes. */
module Verification {
  import opened SupportCases

  /**
   * A verifier whose decision is an uninterpreted function of the case's state.
   * `queries` records which cases it was asked about, so that a policy that never
   * consults it can say so.
   */
  class Verifier {
    const judge: CaseState -> bool
    var queries: seq<SupportCase>

    constructor (judge: CaseState -> bool)
      ensures this.judge == judge && queries == []
    {
      this.judge := judge;
      queries := [];
    }

    method IsResolved(c: SupportCase) returns (resolved: bool)
      modifies this
      ensures resolved == judge(c.State())
      ensures queries == old(queries) + [c]
    {
      resolved := judge(c.State());
      queries := queries + [c];
    }
  }
}
