/** How a finished run is filed: whether it starts out read, in which review lane, and
    why, from its outcome and its configuration alone. */
module Filing {
  import opened Options
  import opened Rows
  import opened RowWrites

  /** The run succeeded with a passed verdict under a snapshot that decodes. */
  predicate Good(d: Definition, state: State, verdict: Verdict) {
    state == Succeeded && verdict == Passed && d.Snapshot?
  }

  predicate HasCommand(d: Definition) {
    d.Snapshot? && d.verifier == Command
  }

  /** A sampled acceptance with a percentage in range. */
  predicate Sampling(d: Definition) {
    d.Snapshot? && d.acceptance.SampleMode? && 1 <= d.acceptance.percent <= 100
  }

  predicate Automatic(d: Definition) {
    d.Snapshot? && d.acceptance == AutoMode(0)
  }

  /** The run's bucket of a hundred is below the percentage. */
  predicate InSample(d: Definition, bucket: nat)
    requires Sampling(d)
  {
    d.acceptance.percent == 100 || bucket < d.acceptance.percent
  }

  /** Filed for automatic review: a good run with a verifier command, accepted
      automatically or left out of the sample. */
  predicate GoesAutomatic(d: Definition, bucket: nat, state: State, verdict: Verdict) {
    Good(d, state, verdict) && HasCommand(d) && (Automatic(d) || (Sampling(d) && !InSample(d, bucket)))
  }

  /** Filed in the sample: such a run that falls in it. */
  predicate GoesSampled(d: Definition, bucket: nat, state: State, verdict: Verdict) {
    Good(d, state, verdict) && HasCommand(d) && Sampling(d) && InSample(d, bucket)
  }

  /** Why the run is filed as it is. */
  predicate FiledBecause(d: Definition, bucket: nat, state: State, verdict: Verdict, reason: Reason) {
    match reason
    case ReasonVerifierFailed => verdict == Rejected
    case ReasonState(s) => verdict != Rejected && state != Succeeded && Terminal(state) && s == state
    case ReasonNonterminal => verdict != Rejected && !Terminal(state)
    case ReasonUnverified => state == Succeeded && verdict == Unverified
    case ReasonSnapshotInvalid => state == Succeeded && verdict == Passed && d.Corrupt?
    case ReasonAcceptanceMissing => Good(d, state, verdict) && d.acceptance == NoAcceptance
    case ReasonModeMandatory => Good(d, state, verdict) && d.acceptance == MandatoryMode
    case ReasonAcceptanceUnknown => Good(d, state, verdict) && d.acceptance == UnknownMode
    case ReasonAcceptanceInvalid =>
      Good(d, state, verdict) && (d.acceptance.AutoMode? || d.acceptance.SampleMode?) && !Automatic(d) && !Sampling(d)
    case ReasonVerifierMissing => Good(d, state, verdict) && (Automatic(d) || Sampling(d)) && !HasCommand(d)
    case ReasonVerifierPassed => GoesAutomatic(d, bucket, state, verdict) && Automatic(d)
    case ReasonUnsampled => GoesAutomatic(d, bucket, state, verdict) && Sampling(d)
    case ReasonSampled => GoesSampled(d, bucket, state, verdict)
    case _ => false
  }

  /** Lane, reason and unread mark, each exactly. */
  lemma ClassifiedExactly(d: Definition, bucket: nat, state: State, verdict: Verdict)
    ensures var c := Classify(d, bucket, state, verdict);
      (c.lane == AutoLane <==> GoesAutomatic(d, bucket, state, verdict)) &&
      (c.lane == SampleLane <==> GoesSampled(d, bucket, state, verdict)) && c.lane != NoLane &&
      (c.unread <==> c.lane != AutoLane) && FiledBecause(d, bucket, state, verdict, c.reason)
  {
  }

  /** A run has one reason only. */
  lemma OneReason(d: Definition, bucket: nat, state: State, verdict: Verdict, a: Reason, b: Reason)
    requires FiledBecause(d, bucket, state, verdict, a) && FiledBecause(d, bucket, state, verdict, b)
    ensures a == b
  {
  }

  /** The row is filed as its outcome says. */
  predicate FiledRightly(r: Row) {
    var d, bucket, v := r.about.definition, r.about.bucket, r.result.verdict;
    (r.review.lane == AutoLane <==> GoesAutomatic(d, bucket, r.state, v)) &&
    (r.review.lane == SampleLane <==> GoesSampled(d, bucket, r.state, v)) && r.review.lane != NoLane &&
    (r.unread <==> r.review.lane != AutoLane) && FiledBecause(d, bucket, r.state, v, r.review.reason)
  }

  /** The finishing write of a verifier from before claims were kept. */
  predicate LegacyFinish(r: Row, q: Request) {
    q.DoFinishExpiredVerifier? && !r.effect.kind.VerifierKind?
  }

  /** Whatever request ends a run files it, and by its outcome; the legacy verifier
      goes to mandatory review unread whatever it was. */
  lemma EndingFiles(r: Row, last: Option<Entry>, q: Request, now: Time)
    requires Serve(r, last, q, now).Wrote? && !Terminal(r.state) && Terminal(Serve(r, last, q, now).row.state)
    ensures var b := Serve(r, last, q, now).row;
      if LegacyFinish(r, q) then b.review == Review(MandatoryLane, ReasonLegacyVerifier) && b.unread else FiledRightly(b)
  {
    var b := Serve(r, last, q, now).row;
    ClassifiedExactly(r.about.definition, r.about.bucket, b.state, b.result.verdict);
    if !LegacyFinish(r, q) { EndingIsRetired(r, last, q, now); }
  }

  /** Ending a run sets what Classify says of its new outcome. */
  lemma EndingIsRetired(r: Row, last: Option<Entry>, q: Request, now: Time)
    requires Serve(r, last, q, now).Wrote? && !Terminal(r.state) && Terminal(Serve(r, last, q, now).row.state)
    requires !LegacyFinish(r, q)
    ensures var b := Serve(r, last, q, now).row;
      var c := Classify(r.about.definition, r.about.bucket, b.state, b.result.verdict);
      b.about == r.about && b.review == Review(c.lane, c.reason) && b.unread == c.unread
  {
  }

  /** Nothing else files one: the review of a run changes only when it ends. */
  lemma OnlyEndingFiles(r: Row, last: Option<Entry>, q: Request, now: Time)
    requires Serve(r, last, q, now).Wrote? && Serve(r, last, q, now).row.review != r.review
    ensures !Terminal(r.state) && Terminal(Serve(r, last, q, now).row.state)
  {
  }
}
