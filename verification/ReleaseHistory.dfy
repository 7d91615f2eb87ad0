/** The release projection stays backed by the effect ledger, and an activation has a
    history: both publications succeeded before it, and each was permitted under an
    approval of the same subject that a succeeded review registered
    (internal/domain/release.go:321-458,522-557; internal/domain/effect.go:286-348). */
module ReleaseHistory {
  import opened Values
  import opened Records
  import opened Database
  import opened Transactions
  import Admission
  import Effects
  import EffectSteps
  import Execution
  import Recovery
  import Releases

  // ---------- one projection across one transaction ----------

  /** How far a release has come; the last states are final. */
  function Stage(s: ReleaseState): nat {
    match s
    case ReleaseCertifying => 0
    case ReleaseAwaitingApproval => 1
    case ReleasePublishing | ReleasePublished | ReleaseReconciling => 2
    case ReleaseActivated | ReleasePartiallyPublished | ReleaseRejected | ReleaseFailed => 3
  }

  /** What a projection records once: its subject, its review, its definite targets; it
      never falls back, nor moves on from a final state. */
  predicate Keeps(a: ReleaseFacts, b: ReleaseFacts) {
    && Stage(a.state) <= Stage(b.state) && (Stage(a.state) == 3 ==> b.state == a.state)
    && (a.subject.Some? ==> b.subject == a.subject)
    && (a.reviewEffect.Some? ==> b.reviewEffect == a.reviewEffect)
    && (a.releaseId.Some? ==> b.releaseId == a.releaseId)
    && (a.approvalDeadline.Some? ==> b.approvalDeadline == a.approvalDeadline)
    && (a.npm.Definite() ==> b.npm == a.npm)
    && (a.browser.Definite() ==> b.browser == a.browser)
    && (a.activation.Definite() ==> b.activation == a.activation)
  }

  /** The claims of a projection and the ledger rows behind them. */
  predicate Backed(db: DB, o: Id) {
    o in db.policy.releases ==>
      var f := db.policy.releases[o].facts;
      && Releases.TargetOf(o, TargetNpm, f, db.guarded.effects)
      && Releases.TargetOf(o, TargetBrowser, f, db.guarded.effects)
      && Releases.TargetOf(o, TargetActivation, f, db.guarded.effects)
      && (f.Approved() ==> Effects.ReviewBacked(o, f.subject.value.digest, f.reviewEffect, db.guarded.effects))
      && (f.activation.state == TargetSucceeded ==> f.BothPublished())
      && (f.state == ReleaseActivated ==> f.BothPublished() && f.activation.state == TargetSucceeded)
      && (f.subject.Some? ==> f.subject.value.digest == DigestOf(f.subject.value.fields))
  }

  predicate ProjectionStep(db: DB, next: DB, o: Id) {
    && (o in db.policy.releases ==>
          && o in next.policy.releases
          && (next.policy.releases[o] == db.policy.releases[o]
              || (&& Keeps(db.policy.releases[o].facts, next.policy.releases[o].facts)
                  && next.policy.releases[o].revision == db.policy.releases[o].revision + 1)))
    && (Backed(db, o) && next.policy.releases != db.policy.releases ==> Backed(next, o))
  }

  lemma RecordKeeps(db: DB, o: Id, tenant: Name, r: ReleaseFacts, expected: nat, cert: Option<Releases.Certified>,
                    x: Id)
    requires Releases.Record(db, o, tenant, r, expected, cert).Ok?
    ensures var next := Releases.Record(db, o, tenant, r, expected, cert).value;
            x in db.policy.releases ==>
              && x in next.policy.releases
              && (next.policy.releases[x] == db.policy.releases[x]
                  || (&& Keeps(db.policy.releases[x].facts, next.policy.releases[x].facts)
                      && next.policy.releases[x].revision == db.policy.releases[x].revision + 1))
  {
    hide Releases.CheckState, Releases.CheckLedger;
    if o in db.policy.releases {
      RecordTargets(o, db.work.operations[o], Some(db.policy.releases[o]), r, expected, cert,
                    Effects.NamedEffects(db, Effects.NamesOf(r)));
    }
  }

  lemma RecordTargets(o: Id, op: Operation, cur: Option<Release>, r: ReleaseFacts, expected: nat,
                      cert: Option<Releases.Certified>,
                      effects: map<Id, Effect>)
    requires Releases.ApplyRelease(o, op, cur, r, expected, cert, effects).Ok? && cur.Some?
    ensures var a, b := cur.value.facts, Releases.ApplyRelease(o, op, cur, r, expected, cert, effects).value.facts;
            && (a.npm.Definite() ==> b.npm == a.npm)
            && (a.browser.Definite() ==> b.browser == a.browser)
            && (a.activation.Definite() ==> b.activation == a.activation)
  {
    hide Releases.CheckState, Releases.CheckImmutable;
  }

  lemma RecordBacks(db: DB, o: Id, tenant: Name, r: ReleaseFacts, expected: nat, cert: Option<Releases.Certified>,
                    x: Id)
    requires Releases.Record(db, o, tenant, r, expected, cert).Ok? && Backed(db, x)
    ensures Backed(Releases.Record(db, o, tenant, r, expected, cert).value, x)
  {
    hide Releases.TargetAccepted, Releases.MayMove;
  }

  lemma StepOfProjection(c: Config, db: DB, tx: Tx, o: Id)
    ensures ProjectionStep(db, Apply(c, db, tx), o)
  {
    hide AdmissionStep, EffectStep, Releases.Record, ExecutionStep, ControlStep, FinanceStep, RunStep,
      Recovery.Restore, Recovery.Dispose, Keeps, Backed;
    if tx.Releasing? && Step(c, db, tx).Ok? {
      RecordKeeps(db, tx.o, tx.tenant, tx.facts, tx.expected, tx.cert, o);
      if Backed(db, o) { RecordBacks(db, tx.o, tx.tenant, tx.facts, tx.expected, tx.cert, o); }
    }
  }

  // ---------- what a recorded release says ----------

  /** A sent target names its effect, a failed one its failure; a succeeded one its receipts
      of the recorded subject, delivered where the subject says. */
  predicate TargetConsistent(name: TargetName, t: ReleaseTarget, subject: Option<ReleaseSubject>) {
    && (t.state != TargetPending ==> t.effect.Some?)
    && (t.state == TargetFailed ==> t.failure.Some?)
    && (t.state == TargetSucceeded ==>
          && subject.Some? && t.receipt.Some? && t.receiptDigest.Some? && t.subject == Some(subject.value.digest)
          && match name
             case TargetNpm =>
               subject.value.fields.npmRegistry.Some? ==>
                 t.destination == subject.value.fields.npmRegistry && t.version == subject.value.fields.version
             case TargetBrowser =>
               && t.manifest.Some?
               && (subject.value.fields.browserOrigin.Some? ==>
                     t.destination == subject.value.fields.browserOrigin && t.version == subject.value.fields.version)
             case TargetActivation => true)
  }

  predicate Sends(f: ReleaseFacts) {
    f.npm.state != TargetPending || f.browser.state != TargetPending || f.activation.state != TargetPending
  }

  predicate ApprovedIn(f: ReleaseFacts) {
    && f.subject.Some? && f.approval.Some? && f.approval.value.state == ApprovalApproved
    && f.approval.value.subject == f.subject.value.digest
  }

  /** What each state needs. */
  predicate StateConsistent(f: ReleaseFacts) {
    match f.state
    case ReleaseCertifying => true
    case ReleaseAwaitingApproval =>
      f.subject.Some? && f.releaseId.Some? && f.reviewEffect.Some? && f.approvalDeadline.Some?
    case ReleasePublishing => ApprovedIn(f)
    case ReleasePublished => ApprovedIn(f) && f.npm.state == f.browser.state == TargetSucceeded
    case ReleaseActivated =>
      && ApprovedIn(f) && f.npm.state == f.browser.state == f.activation.state == TargetSucceeded
      && f.catalogRevision.Some?
    case ReleasePartiallyPublished => {f.npm.state, f.browser.state} == {TargetSucceeded, TargetFailed}
    case ReleaseReconciling => TargetUnknown in {f.npm.state, f.browser.state, f.activation.state}
    case ReleaseRejected | ReleaseFailed => f.failure.Some?
  }

  /** Nothing is sent without an approval of the subject, and nothing activated without
      both publications. */
  predicate Consistent(f: ReleaseFacts) {
    && StateConsistent(f)
    && TargetConsistent(TargetNpm, f.npm, f.subject) && TargetConsistent(TargetBrowser, f.browser, f.subject)
    && TargetConsistent(TargetActivation, f.activation, f.subject)
    && (Sends(f) ==> ApprovedIn(f))
    && (f.activation.state != TargetPending ==> f.npm.state == f.browser.state == TargetSucceeded)
  }

  predicate RecordedConsistently(db: DB, o: Id) { o in db.policy.releases ==> Consistent(db.policy.releases[o].facts) }

  lemma TargetsChecked(o: Id, base: ReleaseFacts, r: ReleaseFacts, effects: map<Id, Effect>)
    requires Releases.CheckLedger(o, base, r, effects).Pass?
    ensures TargetConsistent(TargetNpm, r.npm, r.subject) && TargetConsistent(TargetBrowser, r.browser, r.subject)
    ensures TargetConsistent(TargetActivation, r.activation, r.subject)
  {
    hide Effects.ReviewBacked, Releases.TargetOf;
  }

  lemma StateChecked(r: ReleaseFacts)
    requires Releases.CheckState(r).Pass?
    ensures StateConsistent(r) && (Sends(r) ==> ApprovedIn(r))
    ensures r.activation.state != TargetPending ==> r.npm.state == r.browser.state == TargetSucceeded
  {
  }

  lemma RecordIsConsistent(db: DB, o: Id, tenant: Name, r: ReleaseFacts, expected: nat,
                           cert: Option<Releases.Certified>, x: Id)
    requires Releases.Record(db, o, tenant, r, expected, cert).Ok? && RecordedConsistently(db, x)
    ensures RecordedConsistently(Releases.Record(db, o, tenant, r, expected, cert).value, x)
  {
    hide Releases.CheckState, Releases.CheckLedger, Releases.CheckImmutable, Releases.MayMove, Consistent;
    var effects := Effects.NamedEffects(db, Effects.NamesOf(r));
    var base := if o in db.policy.releases then db.policy.releases[o].facts else Releases.Blank;
    if Releases.CheckLedger(o, base, r, effects).Pass? && Releases.CheckState(r).Pass? {
      TargetsChecked(o, base, r, effects);
      StateChecked(r);
      ChecksAreConsistent(r);
    }
  }

  /** A subject is recorded only as the operation and its certified stage name it. */
  predicate CertifiedFor(op: Operation, s: ReleaseSubject, cert: Option<Releases.Certified>) {
    && cert.Some? && cert.value.identity == Some(s.fields.identity)
    && cert.value.certification == s.fields.certification
    && s.fields.sourceRevision == op.bind.sourceRevision && s.fields.version == op.bind.packageVersion
    && s.fields.npmRegistry.Some? && s.fields.browserOrigin.Some?
  }

  predicate HasSubject(db: DB, o: Id) { o in db.policy.releases && db.policy.releases[o].facts.subject.Some? }

  function RevisionOf(db: DB, o: Id): nat { if o in db.policy.releases then db.policy.releases[o].revision else 0 }

  /** A record changes the projection only of the revision it expects and of a release, and
      the first subject it names is the certified one. */
  lemma RecordCompares(db: DB, o: Id, tenant: Name, r: ReleaseFacts, expected: nat, cert: Option<Releases.Certified>)
    requires Releases.Record(db, o, tenant, r, expected, cert).Ok?
    requires Releases.Record(db, o, tenant, r, expected, cert).value.policy.releases != db.policy.releases
    ensures expected == RevisionOf(db, o) && o in db.work.operations
    ensures db.work.operations[o].bind.kind == KindRelease && db.work.operations[o].bind.tenant == tenant
    ensures Releases.Record(db, o, tenant, r, expected, cert).value.policy.releases
         == db.policy.releases[o := Release(r, expected + 1)]
    ensures !HasSubject(db, o) && r.subject.Some? ==> CertifiedFor(db.work.operations[o], r.subject.value, cert)
  {
    hide Releases.CheckState, Releases.CheckLedger, Releases.MayMove;
  }

  lemma ChecksAreConsistent(r: ReleaseFacts)
    requires StateConsistent(r) && (Sends(r) ==> ApprovedIn(r))
    requires r.activation.state != TargetPending ==> r.npm.state == r.browser.state == TargetSucceeded
    requires TargetConsistent(TargetNpm, r.npm, r.subject) && TargetConsistent(TargetBrowser, r.browser, r.subject)
    requires TargetConsistent(TargetActivation, r.activation, r.subject)
    ensures Consistent(r)
  {
  }

  lemma ConsistentStep(c: Config, db: DB, tx: Tx, o: Id)
    requires RecordedConsistently(db, o)
    ensures RecordedConsistently(Apply(c, db, tx), o)
  {
    hide AdmissionStep, EffectStep, Releases.Record, ExecutionStep, ControlStep, FinanceStep, RunStep,
      Recovery.Restore, Recovery.Dispose, Consistent;
    if tx.Releasing? && Step(c, db, tx).Ok? {
      RecordIsConsistent(db, tx.o, tx.tenant, tx.facts, tx.expected, tx.cert, o);
    }
  }

  /** In every run a recorded release says what its state needs. */
  lemma {:induction false} ConsistentAlways(c: Config, run: Run, o: Id)
    ensures RecordedConsistently(After(c, run), o)
  {
    hide Apply, Consistent;
    if run.Then? {
      ConsistentAlways(c, run.prior, o);
      ConsistentStep(c, After(c, run.prior), run.tx, o);
    }
  }

  // ---------- the ledger behind it ----------

  /** A settled effect and its receipt stay in the ledger. */
  predicate Settled(db: DB, next: DB, e: Id) {
    e in db.guarded.effects && db.guarded.effects[e].state == EffectSucceeded ==>
      && e in next.guarded.effects && next.guarded.effects[e].state == EffectSucceeded
      && next.guarded.effects[e].bind == db.guarded.effects[e].bind
          && next.guarded.effects[e].outcomeRef == db.guarded.effects[e].outcomeRef
  }

  lemma SettledStays(c: Config, db: DB, tx: Tx)
    requires InFlight(tx)
    ensures forall e :: Settled(db, Apply(c, db, tx), e)
  {
    hide Apply, EffectSteps.Permissible;
    forall e
      ensures Settled(db, Apply(c, db, tx), e)
    {
      EffectSteps.StepOfRow(c, db, tx, e);
    }
  }

  lemma BackedStays(db: DB, next: DB, o: Id)
    requires forall e :: Settled(db, next, e)
    requires Backed(db, o) && next.policy.releases == db.policy.releases
    ensures Backed(next, o)
  {
    if o in db.policy.releases {
      var f := db.policy.releases[o].facts;
      forall e | Some(e) in Effects.NamesOf(f)
        ensures Settled(db, next, e)
      {
      }
      assert f.npm.effect.Some? ==> Settled(db, next, f.npm.effect.value);
      assert f.browser.effect.Some? ==> Settled(db, next, f.browser.effect.value);
      assert f.activation.effect.Some? ==> Settled(db, next, f.activation.effect.value);
      assert f.reviewEffect.Some? ==> Settled(db, next, f.reviewEffect.value);
    }
  }

  /** In every run, each approval is decided under a succeeded review of its subject
      and each succeeded target is a succeeded effect of the ledger with its receipt. */
  lemma {:induction false} ClaimsStayBacked(c: Config, run: Run, o: Id)
    requires InFlightRun(run)
    ensures Backed(After(c, run), o)
  {
    hide Apply, Backed;
    if run.Then? {
      var db := After(c, run.prior);
      ClaimsStayBacked(c, run.prior, o);
      StepOfProjection(c, db, run.tx, o);
      if Apply(c, db, run.tx).policy.releases == db.policy.releases {
        SettledStays(c, db, run.tx);
        BackedStays(db, Apply(c, db, run.tx), o);
      }
    } else {
      EmptyBacked(o);
    }
  }

  lemma EmptyBacked(o: Id)
    ensures Backed(Empty, o)
  {
  }

  /** What a projection recorded is never taken back. */
  predicate KeepsRecord(db: DB, next: DB, o: Id) {
    o in db.policy.releases ==>
      && o in next.policy.releases && Keeps(db.policy.releases[o].facts, next.policy.releases[o].facts)
      && next.policy.releases[o].revision >= db.policy.releases[o].revision
  }

  lemma {:induction false} RecordIsKept(c: Config, earlier: Run, later: Run, o: Id)
    requires Within(earlier, later)
    ensures KeepsRecord(After(c, earlier), After(c, later), o)
  {
    hide Apply;
    if earlier != later {
      RecordIsKept(c, earlier, later.prior, o);
      StepOfProjection(c, After(c, later.prior), later.tx, o);
    }
  }

  // ---------- what was reported ----------

  predicate Definite(s: EffectState) { s == EffectSucceeded || s == EffectFailed }

  predicate Outcome(db: DB, e: Id, s: EffectState, receipt: Option<OutcomeRef>) {
    e in db.guarded.effects && db.guarded.effects[e].state == s && db.guarded.effects[e].outcomeRef == receipt
  }

  predicate DefiniteRow(db: DB, e: Id) { e in db.guarded.effects && Definite(db.guarded.effects[e].state) }

  /** The transaction reports the outcome, or decides it, and names the receipt. */
  predicate Reports(tx: Tx, e: Id, s: EffectState, receipt: Option<OutcomeRef>) {
    match tx
    case Permitting(ObserveEffect(id, _, _, _, outcome, named)) =>
      && id == e && named == receipt && receipt.Some?
      && outcome == (if s == EffectSucceeded then EffectOutcomeSucceeded else EffectOutcomeFailed)
    case Disposing(req, _) =>
      && req.key == Key(ClassBusinessWrite, e) && receipt == Some(ReceiptRef(req.evidence))
      && req.decision == (if s == EffectSucceeded then DisposeResolveSucceeded else DisposeResolveFailed)
    case _ => false
  }

  lemma ObservedAsReported(c: Config, db: DB, t: EffectTx, e: Id)
    requires t.ObserveEffect? && EffectStep(c, db, t).Ok?
    ensures var next := EffectStep(c, db, t).value;
            !DefiniteRow(db, e) && DefiniteRow(next, e) ==>
              Reports(Permitting(t), e, next.guarded.effects[e].state, next.guarded.effects[e].outcomeRef)
  {
  }

  lemma DecidedAsReported(db: DB, req: Recovery.DispositionRequest, bound: bool, e: Id)
    requires Recovery.Dispose(db, req, bound).Ok?
    ensures var next := Recovery.Dispose(db, req, bound).value;
            !DefiniteRow(db, e) && DefiniteRow(next, e) ==>
              Reports(Disposing(req, bound), e, next.guarded.effects[e].state, next.guarded.effects[e].outcomeRef)
  {
    hide Recovery.ApplyDecision, Recovery.OperationFor, Recovery.Applies, Recovery.Unrestorable;
    if Recovery.ApplyDecision(db, req).Ok? { DecisionReports(db, req, e); }
  }

  lemma DecisionReports(db: DB, req: Recovery.DispositionRequest, e: Id)
    requires Recovery.ApplyDecision(db, req).Ok?
    ensures var next := Recovery.ApplyDecision(db, req).value;
            !DefiniteRow(db, e) && DefiniteRow(next, e) ==>
              forall bound ::
                Reports(Disposing(req, bound), e, next.guarded.effects[e].state, next.guarded.effects[e].outcomeRef)
  {
    hide Admission.ConfirmNotSent;
  }

  lemma RestoredIsOpen(c: Config, db: DB, f: FindingKey, body: Body, e: Id)
    requires Recovery.Restore(c, db, f, body).Ok? && !DefiniteRow(db, e)
    ensures !DefiniteRow(Recovery.Restore(c, db, f, body).value, e)
  {
    hide Recovery.RestoreOperation, Recovery.RestoreAttempt, Recovery.RestoreLaunch, Recovery.RestoreDispatch;
  }

  /** An effect becomes definite only by the report or the decision that says so. */
  lemma SettledAsReported(c: Config, db: DB, tx: Tx, e: Id, s: EffectState, receipt: Option<OutcomeRef>)
    requires InFlight(tx) && !DefiniteRow(db, e)
    requires Definite(s) && Outcome(Apply(c, db, tx), e, s, receipt)
    ensures Reports(tx, e, s, receipt)
  {
    hide AdmissionStep, EffectStep, Releases.Record, GrantStep, ExecutionStep, Execution.CloseAttempt, ControlStep,
      FinanceStep, RunStep, Recovery.Restore, Recovery.Dispose, EffectSteps.Permissible, Reports;
    EffectSteps.StepOfRow(c, db, tx, e);
    if Step(c, db, tx).Ok? {
      match tx
      case Permitting(t) =>
        if t.ObserveEffect? { ObservedAsReported(c, db, t, e); } else { OnlyReportsSettle(c, db, t, e); }
      case Restoring(f, body) => RestoredIsOpen(c, db, f, body, e);
      case Disposing(req, bound) => DecidedAsReported(db, req, bound, e);
      case _ =>
    }
  }

  lemma OnlyReportsSettle(c: Config, db: DB, t: EffectTx, e: Id)
    requires EffectStep(c, db, t).Ok? && !t.ObserveEffect? && !DefiniteRow(db, e)
    ensures !DefiniteRow(EffectStep(c, db, t).value, e)
  {
    hide Effects.CheckEffect, Effects.LoadContext, Effects.Binds;
  }

  /** The last transaction of the run reported the effect's outcome, which stood open. */
  predicate ReportedAt(c: Config, run: Run, e: Id, s: EffectState, receipt: Option<OutcomeRef>) {
    hide Apply;
    run.Then? && !DefiniteRow(After(c, run.prior), e) && Outcome(After(c, run), e, s, receipt)
    && Reports(run.tx, e, s, receipt)
  }

  /** In every run, rollback restorations included, an effect that succeeded or failed was
      reported, or decided, to have done so, with the receipt the record names. */
  lemma {:induction false} OutcomeWasReported(c: Config, run: Run, e: Id, s: EffectState,
                                              receipt: Option<OutcomeRef>) returns (at: Run)
    requires InFlightRun(run) && Definite(s) && Outcome(After(c, run), e, s, receipt)
    ensures Within(at, run) && ReportedAt(c, at, e, s, receipt)
  {
    hide Apply, EffectSteps.Permissible, Reports;
    if run.Then? {
      var db := After(c, run.prior);
      if DefiniteRow(db, e) {
        EffectSteps.StepOfRow(c, db, run.tx, e);
        at := OutcomeWasReported(c, run.prior, e, s, receipt);
      } else {
        SettledAsReported(c, db, run.tx, e, s, receipt);
        at := run;
      }
    } else {
      assert false;
    }
  }

  /** The report is new and its effect is one of the tenant's. */
  predicate Hears(db: DB, t: EffectTx) {
    && t.ObserveEffect? && t.id in db.guarded.effects && db.guarded.effects[t.id].bind.tenant == t.tenant
    && db.guarded.effects[t.id].bind.operation in db.work.operations
    && (t.id, t.source, t.sequence) !in db.guarded.effectReports
  }

  predicate AwaitsOutcome(db: DB, e: Id) {
    e in db.guarded.effects && db.guarded.effects[e].state in {EffectPermitted, EffectUnknown}
  }

  /** Conversely the first definite report, with its receipt, of what was permitted or is
      unknown is recorded as it says; without a receipt it is refused; and an unknown
      outcome leaves it unknown. */
  lemma ReportIsRecorded(c: Config, db: DB, t: EffectTx)
    requires Hears(db, t) && AwaitsOutcome(db, t.id)
    ensures EffectStep(c, db, t).Err? <==> t.outcome != EffectOutcomeUnknown && t.receipt.None?
    ensures EffectStep(c, db, t).Ok? ==>
              var next := EffectStep(c, db, t).value;
              match t.outcome
              case EffectOutcomeSucceeded => Outcome(next, t.id, EffectSucceeded, t.receipt)
              case EffectOutcomeFailed => Outcome(next, t.id, EffectFailed, t.receipt)
              case EffectOutcomeUnknown => Outcome(next, t.id, EffectUnknown, db.guarded.effects[t.id].outcomeRef)
  {
  }

  /** A report is applied once. */
  lemma RepeatIsIgnored(c: Config, db: DB, t: EffectTx)
    requires t.ObserveEffect? && (t.id, t.source, t.sequence) in db.guarded.effectReports
    requires EffectStep(c, db, t).Ok?
    ensures EffectStep(c, db, t).value == db
  {
    hide Effects.ObserveOutcome;
  }

  /** And so is the decision of a disposition, made once under an epoch. */
  lemma DecisionIsRecorded(db: DB, req: Recovery.DispositionRequest, bound: bool)
    requires Recovery.Dispose(db, req, bound).Ok? && req.key !in db.recovery.dispositions
    requires req.key.category == ClassBusinessWrite && AwaitsOutcome(db, req.key.id)
    requires (req.key.id, Recovery.DISPOSITION, req.epoch) !in db.guarded.effectReports
    ensures var next := Recovery.Dispose(db, req, bound).value;
            match req.decision
            case DisposeResolveSucceeded => Outcome(next, req.key.id, EffectSucceeded, Some(ReceiptRef(req.evidence)))
            case DisposeResolveFailed => Outcome(next, req.key.id, EffectFailed, Some(ReceiptRef(req.evidence)))
            case DisposeConfirmNotSent =>
              Outcome(next, req.key.id, EffectConfirmedNotSent, Some(NotSentRef(req.evidence)))
            case DisposeRetainExposure => next.guarded == db.guarded
  {
  }

  // ---------- the history of a permit ----------

  predicate Sent(db: DB, e: Id) {
    e in db.guarded.effects
    && var s := db.guarded.effects[e].state;
        s == EffectPermitted || s == EffectUnknown || s == EffectSucceeded || s == EffectFailed
  }

  /** The last transaction of the run permitted the effect. */
  predicate PermittedAt(c: Config, run: Run, e: Id) {
    hide Apply;
    run.Then? && !Sent(After(c, run.prior), e) && Sent(After(c, run), e)
    && SameBinding(After(c, run.prior), After(c, run), e)
    && EffectSteps.Permissible(After(c, run.prior), After(c, run.prior).guarded.effects[e].bind)
  }

  predicate SameBinding(db: DB, next: DB, e: Id) {
    e in db.guarded.effects && e in next.guarded.effects && next.guarded.effects[e].bind == db.guarded.effects[e].bind
  }

  /** Without a rollback, what was sent was permitted at some moment, under the rules. */
  lemma {:induction false} SentWasPermitted(c: Config, run: Run, e: Id) returns (at: Run)
    requires SteadyRun(c, run) && Sent(After(c, run), e)
    ensures Within(at, run) && PermittedAt(c, at, e) && SameBinding(After(c, at), After(c, run), e)
  {
    hide Apply, EffectSteps.Permissible;
    if run.Then? {
      var db := After(c, run.prior);
      EffectSteps.StepOfRow(c, db, run.tx, e);
      if run.tx.Restoring? { NothingRestored(c, db, run.tx.f, run.tx.body); }
      if Sent(db, e) {
        at := SentWasPermitted(c, run.prior, e);
      } else {
        at := run;
      }
    } else {
      assert false;
    }
  }

  /** The publication of a target under a subject. */
  predicate Publishes(db: DB, e: Id, o: Id, digest: SubjectDigest, target: TargetName) {
    && e in db.guarded.effects
    && var b := db.guarded.effects[e].bind;
       b.kind == EffectPublication && b.operation == o && b.subject == Some(ReleaseMutation(digest, target))
  }

  /** The effect was permitted at the end of the run, its subject approved under a
      succeeded review at that moment. */
  predicate PublishedUnderApproval(c: Config, run: Run, e: Id, o: Id, digest: SubjectDigest) {
    hide Apply;
    run.Then? && PermittedAt(c, run, e) && EffectSteps.ApprovedUnderReview(After(c, run.prior), o, digest)
  }

  predicate Activates(db: DB, e: Id, o: Id, digest: SubjectDigest) {
    && Sent(db, e)
    && var b := db.guarded.effects[e].bind;
       b.kind == EffectActivation && b.operation == o && b.subject == Some(ReleaseMutation(digest, TargetActivation))
  }

  predicate Succeeded(db: DB, e: Id) { e in db.guarded.effects && db.guarded.effects[e].state == EffectSucceeded }

  lemma PublicationHistory(c: Config, run: Run, e: Id, o: Id, digest: SubjectDigest,
                           target: TargetName) returns (at: Run)
    requires SteadyRun(c, run) && Sent(After(c, run), e) && Publishes(After(c, run), e, o, digest, target)
    ensures Within(at, run) && PublishedUnderApproval(c, at, e, o, digest)
  {
    hide Apply;
    at := SentWasPermitted(c, run, e);
  }

  /** Before the last transaction of the run the publication of the target had
      succeeded, and it was permitted earlier still under an approval of the digest. */
  predicate PublishedBefore(c: Config, run: Run, e: Id, at: Run, o: Id, digest: SubjectDigest, target: TargetName) {
    hide Apply;
    && run.Then? && Succeeded(After(c, run.prior), e) && Publishes(After(c, run.prior), e, o, digest, target)
    && Within(at, run.prior) && PublishedUnderApproval(c, at, e, o, digest)
  }

  /** The release named the publication of the target, which had been reported succeeded
      with the receipt the release recorded, or decided so. */
  predicate ReportedBefore(c: Config, run: Run, e: Id, at: Run, o: Id, target: TargetName) {
    hide Apply;
    && run.Then? && Within(at, run.prior) && o in After(c, run.prior).policy.releases
    && var named := After(c, run.prior).policy.releases[o].facts.Target(target);
       && named.effect == Some(e) && named.receiptDigest.Some?
       && ReportedAt(c, at, e, EffectSucceeded, Some(ReceiptRef(named.receiptDigest.value)))
  }

  /** A permitted activation's history: at the moment it was permitted both publications
      of the same digest had succeeded, each reported or decided so with the receipt the
      release names, and each had been permitted earlier, while that digest was approved
      under a succeeded review. */
  lemma ActivationHistory(c: Config, run: Run, e: Id, o: Id, digest: SubjectDigest)
    returns (at: Run, npm: Id, npmAt: Run, npmReport: Run, browser: Id, browserAt: Run, browserReport: Run)
    requires SteadyRun(c, run) && Activates(After(c, run), e, o, digest)
    ensures Within(at, run) && PermittedAt(c, at, e)
    ensures PublishedBefore(c, at, npm, npmAt, o, digest, TargetNpm)
    ensures ReportedBefore(c, at, npm, npmReport, o, TargetNpm)
    ensures PublishedBefore(c, at, browser, browserAt, o, digest, TargetBrowser)
    ensures ReportedBefore(c, at, browser, browserReport, o, TargetBrowser)
  {
    hide Apply, ReportedAt;
    at := SentWasPermitted(c, run, e);
    var db := After(c, at.prior);
    npm := db.policy.releases[o].facts.npm.effect.value;
    browser := db.policy.releases[o].facts.browser.effect.value;
    SteadyWithin(c, at, run);
    npmAt := PublicationHistory(c, at.prior, npm, o, digest, TargetNpm);
    browserAt := PublicationHistory(c, at.prior, browser, o, digest, TargetBrowser);
    SteadyIsInFlight(c, at.prior);
    npmReport := OutcomeWasReported(c, at.prior, npm, EffectSucceeded, db.guarded.effects[npm].outcomeRef);
    browserReport := OutcomeWasReported(c, at.prior, browser, EffectSucceeded, db.guarded.effects[browser].outcomeRef);
  }

  /** And the review an approval stands on was reported to have registered its subject. */
  lemma ReviewWasReported(c: Config, run: Run, o: Id, digest: SubjectDigest) returns (review: Id, at: Run)
    requires InFlightRun(run) && EffectSteps.ApprovedUnderReview(After(c, run), o, digest)
    ensures Within(at, run) && ReportedAt(c, at, review, EffectSucceeded, Some(ReviewedSubject(digest)))
  {
    hide Apply, ReportedAt;
    review := After(c, run).policy.releases[o].facts.reviewEffect.value;
    at := OutcomeWasReported(c, run, review, EffectSucceeded, Some(ReviewedSubject(digest)));
  }

  lemma {:induction false} SteadyIsInFlight(c: Config, run: Run)
    requires SteadyRun(c, run)
    ensures InFlightRun(run)
  {
    hide Apply, After;
    if run.Then? { SteadyIsInFlight(c, run.prior); }
  }

  lemma {:induction false} SteadyWithin(c: Config, earlier: Run, later: Run)
    requires Within(earlier, later) && SteadyRun(c, later)
    ensures SteadyRun(c, earlier)
  {
    hide Apply, After;
    if earlier != later { SteadyWithin(c, earlier, later.prior); }
  }
}
