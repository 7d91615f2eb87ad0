/** The release projection and the ledger rows that back it
    (internal/domain/release.go, internal/application/releases.go). */
module Releases {
  import opened Values
  import opened Records
  import opened Database
  import opened Effects

  /** The accepted certified stage and the identity allocated to the lineage. */
  datatype Certified = Certified(certification: Certification, identity: Option<Name>)

  const Blank := ReleaseFacts(ReleaseCertifying, None, None, None, None, None, PendingTarget, PendingTarget,
                              PendingTarget, None, None)

  /** internal/domain/release.go:238-245; None is a release without a record. */
  predicate MayMove(from: Option<ReleaseState>, to: ReleaseState) {
    match from
    case None => to in {ReleaseCertifying, ReleaseFailed}
    case Some(ReleaseCertifying) => to in {ReleaseAwaitingApproval, ReleaseFailed}
    case Some(ReleaseAwaitingApproval) => to in {ReleasePublishing, ReleaseRejected, ReleaseFailed}
    case Some(ReleasePublishing) =>
      to in {ReleasePublishing, ReleasePublished, ReleasePartiallyPublished, ReleaseReconciling, ReleaseFailed}
    case Some(ReleaseReconciling) =>
      to in {ReleasePublishing, ReleasePublished, ReleasePartiallyPublished, ReleaseReconciling, ReleaseActivated,
             ReleaseFailed}
    case Some(ReleasePublished) => to in {ReleaseActivated, ReleaseReconciling, ReleaseFailed}
    case _ => false
  }

  /** internal/domain/release.go:467-493. */
  predicate SubjectAccepted(op: Operation, s: ReleaseSubject, cert: Option<Certified>) {
    && s.digest == DigestOf(s.fields)
    && s.fields.sourceRevision == op.bind.sourceRevision
    && s.fields.version == op.bind.packageVersion
    && cert.Some? && cert.value.identity == Some(s.fields.identity)
    && s.fields.certification == cert.value.certification
    && s.fields.npmRegistry.Some? && s.fields.browserOrigin.Some?
  }

  /** internal/domain/release.go:274-309. */
  predicate TargetAccepted(name: TargetName, cur: ReleaseTarget, next: ReleaseTarget, subject: Option<ReleaseSubject>) {
    var destination :=
      if subject.None? then None
      else match name
           case TargetNpm => subject.value.fields.npmRegistry
           case TargetBrowser => subject.value.fields.browserOrigin
           case TargetActivation => None;
    && (cur.Definite() ==> next == cur)
    && (cur.effect.Some? ==> next.effect == cur.effect)
    && (next.state != TargetPending ==> next.effect.Some?)
    && (next.state == TargetFailed ==> next.failure.Some?)
    && (next.state == TargetSucceeded ==>
          && subject.Some? && next.receipt.Some? && next.receiptDigest.Some?
          && next.subject == Some(subject.value.digest)
          && (destination.Some? ==> next.destination == destination && next.version == subject.value.fields.version)
          && (name == TargetBrowser ==> next.manifest.Some?))
  }

  /** What never changes once recorded (internal/domain/release.go:377-398). */
  function CheckImmutable(op: Operation, base: ReleaseFacts, r: ReleaseFacts, cert: Option<Certified>): Check {
    Require(base.subject.Some? ==> r.subject == base.subject, Invalid)
    .Then(Require(base.subject.None? && r.subject.Some? ==> SubjectAccepted(op, r.subject.value, cert), Invalid))
    .Then(Require(base.releaseId.Some? ==> r.releaseId == base.releaseId, Invalid))
    .Then(Require(base.reviewEffect.Some? ==> r.reviewEffect == base.reviewEffect, Invalid))
    .Then(Require(base.approvalDeadline.Some? ==> r.approvalDeadline == base.approvalDeadline, Invalid))
    .Then(Require(r.approval.Some? ==> r.subject.Some?, Invalid))
  }

  predicate TargetOf(o: Id, name: TargetName, r: ReleaseFacts, effects: map<Id, Effect>) {
    r.Target(name).state == TargetSucceeded ==>
      r.subject.Some? && TargetBacked(o, name, r.Target(name), r.subject.value.digest, effects)
  }

  /** The ledger behind a record (internal/domain/release.go:399-429). */
  function CheckLedger(o: Id, base: ReleaseFacts, r: ReleaseFacts, effects: map<Id, Effect>): Check {
    Require(TargetAccepted(TargetNpm, base.npm, r.npm, r.subject), Invalid)
    .Then(Require(TargetAccepted(TargetBrowser, base.browser, r.browser, r.subject), Invalid))
    .Then(Require(TargetAccepted(TargetActivation, base.activation, r.activation, r.subject), Invalid))
    .Then(Require(r.approval.Some? && r.approval.value.state == ApprovalApproved ==>
                    r.subject.Some? && ReviewBacked(o, r.subject.value.digest, r.reviewEffect, effects), Integrity))
    .Then(Require(TargetOf(o, TargetNpm, r, effects) && TargetOf(o, TargetBrowser, r, effects)
                  && TargetOf(o, TargetActivation, r, effects), Integrity))
  }

  /** What each state needs (internal/domain/release.go:430-451). */
  function CheckState(r: ReleaseFacts): Check {
    var sent := r.npm.state != TargetPending || r.browser.state != TargetPending || r.activation.state != TargetPending;
    Require(r.state == ReleaseAwaitingApproval ==>
              r.subject.Some? && r.releaseId.Some? && r.reviewEffect.Some? && r.approvalDeadline.Some?, Invalid)
    .Then(Require(sent ==> r.Approved(), Invalid))
    .Then(Require(r.state == ReleasePublishing || r.state == ReleasePublished || r.state == ReleaseActivated ==>
        r.Approved(), Invalid))
    .Then(Require(r.activation.state != TargetPending ==> r.BothPublished(), Invalid))
    .Then(Require(r.state == ReleasePublished ==> r.BothPublished(), Invalid))
    .Then(Require(r.state == ReleaseActivated ==>
                    r.BothPublished() && r.activation.state == TargetSucceeded && r.catalogRevision.Some?, Invalid))
    .Then(Require(r.state == ReleasePartiallyPublished ==>
                    || (r.npm.state == TargetSucceeded && r.browser.state == TargetFailed)
                    || (r.npm.state == TargetFailed && r.browser.state == TargetSucceeded), Invalid))
    .Then(Require(r.state == ReleaseReconciling ==>
                    r.npm.state == TargetUnknown || r.browser.state == TargetUnknown
                        || r.activation.state == TargetUnknown, Invalid))
    .Then(Require(r.state == ReleaseFailed || r.state == ReleaseRejected ==> r.failure.Some?, Invalid))
  }

  /** internal/domain/release.go:358-458: the next projection, or the current one when
      the same transition was already recorded. */
  function ApplyRelease(o: Id, op: Operation, cur: Option<Release>, r: ReleaseFacts, expected: nat,
                        cert: Option<Certified>, effects: map<Id, Effect>): Result<Release>
  {
    var revision := if cur.Some? then cur.value.revision else 0;
    var base := if cur.Some? then cur.value.facts else Blank;
    if op.bind.kind != KindRelease then Err(Invalid)
    else if cur.Some? && expected + 1 == revision && cur.value.facts == r then Ok(cur.value)
    else if expected != revision then Err(RevisionConflict)
    else if !MayMove(if cur.Some? then Some(base.state) else None, r.state) then Err(Invalid)
    else
      match CheckImmutable(op, base, r, cert).Then(CheckLedger(o, base, r, effects)).Then(CheckState(r))
      case Fail(e) => Err(e)
      case Pass => Ok(Release(r, revision + 1))
  }

  /** internal/application/releases.go:42-105. */
  function Record(db: DB, o: Id, tenant: Name, r: ReleaseFacts, expected: nat,
                  cert: Option<Certified>): (out: Result<DB>)
    ensures out.Ok? ==> out.value == db.(policy := out.value.policy)
  {
    if o !in db.work.operations || db.work.operations[o].bind.tenant != tenant then Err(NotFound)
    else
      var cur := if o in db.policy.releases then Some(db.policy.releases[o]) else None;
      var next :- ApplyRelease(o, db.work.operations[o], cur, r, expected, cert, NamedEffects(db, NamesOf(r)));
      Ok(db.(policy := db.policy.(releases := db.policy.releases[o := next])))
  }
}
