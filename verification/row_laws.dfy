/** Laws of the row writes that hold of every request any caller can make, in
    any order and with any arguments, not only of the ones the engine makes. */
module RowLaws {
  import opened Options
  import opened Rows
  import opened RowWrites

  /** No write changes what a run is, the outcome of a run that is over, or a
      receipt that was already set. */
  lemma TerminalIsFinal(r: Row, last: Option<Entry>, q: Request, now: Time)
    requires Serve(r, last, q, now).Wrote?
    ensures var b := Serve(r, last, q, now).row;
      b.about == r.about && ReceiptsEvolve(r, b) && (Terminal(r.state) ==> SameOutcome(r, b))
  {
  }

  /** Every change of state is documented by exactly one entry, which says so. */
  lemma EveryWriteDocuments(r: Row, last: Option<Entry>, q: Request, now: Time)
    ensures Documents(r, Serve(r, last, q, now))
  {
  }

  /** The requests that may move a run past admission on their own authority. */
  predicate Forces(q: Request) {
    q.DoDecide? || (q.DoTransition? && !(q.from.Running? && q.to.Settled?))
  }

  /** Nothing else makes an inactive run active, moves its disk claim, or brings
      one back from the queue. */
  lemma OnlyAdmissionActivates(r: Row, last: Option<Entry>, q: Request, now: Time)
    requires !Forces(q) && Serve(r, last, q, now).Wrote?
    ensures var b := Serve(r, last, q, now).row;
      b.disk == r.disk && (Active(b.state) ==> Active(r.state)) && (b.state.Accepted? ==> r.state.Accepted?)
  {
  }

  predicate ByOwner(q: Request, owner: Token) {
    (q.DoRenew? || q.DoSavePlan? || q.DoSavePartialReceipt? || q.DoSaveReceipt? || q.DoConfirmStarting? || q.DoFinishClaim?) &&
    q.owner == owner
  }

  /** Finish and Transition compare the state and the effect owner only. */
  predicate IgnoresLease(q: Request) {
    q.DoFinishRun? || q.DoTransition?
  }

  /** A live provisioning claim is exclusive: until it lapses, only its owner
      changes the state, the workspace plan or the claim, or starts an effect
      on the row, apart from the two writes that do not look at leases. */
  lemma LiveClaimIsExclusive(r: Row, last: Option<Entry>, q: Request, now: Time)
    requires (r.state.Provisioning? || r.state.Starting?) && r.lease.owner != 0 && r.lease.until > now
    requires NoEffectFields(r)
    requires Serve(r, last, q, now).Wrote? && !ByOwner(q, r.lease.owner) && !IgnoresLease(q)
    requires !(q.DoClaimLate? && q.owner == r.lease.owner)
    ensures var b := Serve(r, last, q, now).row;
      b.state == r.state && b.lease == r.lease && b.place == r.place && b.effect == r.effect && b.result == r.result
  {
  }

  predicate ByHolder(q: Request, e: Effect) {
    q.DoFinishEffect? && q.owner == e.owner && q.claim == e.claim && q.kind == e.kind
  }

  /** A live effect claim is exclusive: until it lapses, only its holder ends or
      moves it, whoever else is still working on the row. */
  lemma LiveEffectIsExclusive(r: Row, last: Option<Entry>, q: Request, now: Time)
    requires r.effect.owner != 0 && r.effect.claim != 0 && !r.effect.kind.NoKind? && r.effect.until > now
    requires Serve(r, last, q, now).Wrote? && !ByHolder(q, r.effect)
    ensures Serve(r, last, q, now).row.effect == r.effect
    ensures !Terminal(r.state) && Terminal(Serve(r, last, q, now).row.state) ==>
      q.DoFinishClaim? || q.DoDecide?
  {
  }
}
