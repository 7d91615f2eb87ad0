/** The recovery service: runs fence, enumerate page by page, restore what a rollback
    lost, dispose and reopen (internal/application/recovery.go, recovery_enumeration.go,
    recovery_reconciliation.go, recovery_disposition.go). */
module Recovering {
  import opened Values
  import opened Budget
  import opened Records
  import opened Database
  import opened Entities
  import opened Inventories
  import opened LockedBudgets
  import opened Tables
  import Admission
  import Dispatching
  import Effects
  import Recovery

  /** The transaction reached what the specification says, or its error; what it wrote
      before an error is rolled back with it. */
  predicate Reached(spec: Result<DB>, r: Check, after: DB) {
    match spec
    case Ok(next) => r == Pass && after == next
    case Err(e) => r == Fail(e)
  }

  class Recoverer {
    const store: Store
    const config: Config
    const inventory: Inventory
    const dispatches: Dispatching.Dispatches

    constructor (s: Store, c: Config, i: Inventory)
      ensures store == s && config == c && inventory == i && Valid()
    {
      store, config, inventory := s, c, i;
      dispatches := new Dispatching.Dispatches(s, c);
    }

    ghost predicate Valid() { dispatches.store == store && dispatches.config == config }

    // ---------- begin ----------

    /** Closes admission of the scope, fences every active operation of it under the new
        epoch and starts every class, in one transaction
        (internal/application/recovery.go:80-185). */
    method Begin(r: Id, scope: ScopeKey, command: Name, digest: Name, epoch: nat, windowStart: Time, windowEnd: Time,
                 skew: int)
      returns (res: Check)
      modifies store
      ensures Committed(Recovery.Begin(old(store.Snapshot()), r, scope, command, digest, epoch, windowStart, windowEnd,
                                       skew), res,
                        old(store.Snapshot()), store.Snapshot())
    {
      hide Recovery.CommandedBy, Recovery.RecoveryInProgress, Recovery.Fenced, Recovery.Fence;
      var db := store.Snapshot();
      if exists q | q in store.recovery.runs ::
          Recovery.CommandedBy(store.recovery.runs[q], scope, command) && store.recovery.runs[q].digest != digest {
        return Fail(IdempotencyConflict);
      }
      if exists q | q in store.recovery.runs ::
          Recovery.CommandedBy(store.recovery.runs[q], scope, command) { return Pass; }
      if Recovery.RecoveryInProgress(db, scope) { return Fail(StaleExecution); }
      if windowEnd <= windowStart || skew < 0 { return Fail(Invalid); }
      if r in store.recovery.runs { return Fail(DuplicateKey); }
      var progress := StartClasses(r);
      var run := RecoveryRun(scope, command, digest, epoch, RecoveryFenced, windowStart, windowEnd, skew);
      store.recovery := store.recovery.(runs := store.recovery.runs[r := run],
                                        closures := store.recovery.closures[scope := Closure(r, true)],
                                        progress := progress);
      FenceActive(scope, epoch);
      return Pass;
    }

    /** internal/application/recovery.go:128-148. */
    method FenceActive(scope: ScopeKey, epoch: nat)
      modifies store`work
      ensures store.work == old(store.work).(operations := map o | o in old(store.work).operations ::
                if Recovery.Fenced(old(store.work).operations[o], scope)
                    then Recovery.Fence(old(store.work).operations[o], epoch)
                else old(store.work).operations[o])
    {
      hide Recovery.Fence;
      var was := store.work.operations;
      var active := set o | o in was && Recovery.Fenced(was[o], scope);
      while active != {}
        invariant store.work == old(store.work).(operations := store.work.operations)
            && store.work.operations.Keys == was.Keys
        invariant active <= was.Keys
        invariant forall o | o in was :: store.work.operations[o] ==
                    if Recovery.Fenced(was[o], scope) && o !in active then Recovery.Fence(was[o], epoch) else was[o]
        invariant forall o | o in active :: Recovery.Fenced(was[o], scope)
        decreases active
      {
        var o :| o in active;
        var op := new OperationEntity(store.work.operations[o]);
        op.Fence(epoch);
        store.work := store.work.(operations := store.work.operations[o := op.Row()]);
        active := active - {o};
      }
      assert store.work.operations == map o | o in was ::
          if Recovery.Fenced(was[o], scope) then Recovery.Fence(was[o], epoch) else was[o];
    }

    /** internal/application/recovery.go:149-153. */
    method StartClasses(r: Id) returns (progress: map<ProgressKey, Progress>)
      ensures progress == map k | k in store.recovery.progress.Keys + (set category | category in CLASSES ::
          ProgressKey(r, category)) ::
                if k.run == r && k.category in CLASSES then Progress(None, false) else store.recovery.progress[k]
    {
      progress := store.recovery.progress;
      var classes := [ClassIntake, ClassJobLaunch, ClassModelDispatch, ClassToolDispatch, ClassBusinessWrite];
      for i := 0 to |classes|
        invariant forall k ::
            k in progress <==> k in store.recovery.progress || (k.run == r && k.category in classes[..i])
        invariant forall k | k in progress :: progress[k] ==
                    if k.run == r && k.category in classes[..i] then Progress(None, false)
                        else store.recovery.progress[k]
      {
        progress := progress[ProgressKey(r, classes[i]) := Progress(None, false)];
      }
      assert classes[..|classes|] == classes;
      ListsEveryClass();
    }

    /** internal/application/recovery.go:188-201. */
    method Started(r: Id) returns (res: Check)
      modifies store
      ensures Committed(Recovery.Started(old(store.Snapshot()), r), res, old(store.Snapshot()), store.Snapshot())
    {
      if r !in store.recovery.runs { return Fail(NotFound); }
      if store.recovery.runs[r].phase != RecoveryFenced { return Pass; }
      var run := store.recovery.runs[r].(phase := RecoveryEnumerating);
      store.recovery := store.recovery.(runs := store.recovery.runs[r := run]);
      return Pass;
    }

    // ---------- enumeration ----------

    /** The candidates of a listing: what the run covers in its scope
        (internal/application/recovery_enumeration.go:62-88). */
    method Collect(run: RecoveryRun, category: Class, listed: seq<Id>) returns (candidates: seq<Recovery.Candidate>)
      ensures candidates == Recovery.Candidates(inventory.objects, run, category, listed)
    {
      hide Recovery.Eligible;
      candidates := [];
      for i := 0 to |listed|
        invariant candidates + Recovery.Candidates(inventory.objects, run, category, listed[i..])
                  == Recovery.Candidates(inventory.objects, run, category, listed)
      {
        assert listed[i..][0] == listed[i] && listed[i..][1..] == listed[i + 1..];
        var k := Key(category, listed[i]);
        if k in inventory.objects && Recovery.Eligible(run, inventory.objects[k]) {
          candidates := candidates + [Recovery.Candidate(k.id, inventory.objects[k].body)];
        }
      }
      assert listed[|listed|..] == [];
    }

    /** One page: the position is read, the page listed outside every transaction and
        committed only if no other replica moved the class
        (internal/application/recovery_enumeration.go:31-160). */
    method Enumerate(r: Id, category: Class, limit: nat) returns (res: Check, ghost following: seq<Id>)
      modifies store
      ensures Enumerates(old(store.Snapshot()), store.Snapshot(), inventory.objects, r, category, limit, following, res)
    {
      hide Recovery.CommitPage, Recovery.Follows, Recovery.PageOf;
      following := [];
      var p := ProgressKey(r, category);
      if r !in store.recovery.runs || p !in store.recovery.progress { return Fail(NotFound), following; }
      var run, position := store.recovery.runs[r], store.recovery.progress[p];
      if position.complete { return Pass, following; }
      if run.phase != RecoveryFenced && run.phase != RecoveryEnumerating { return Fail(StaleExecution), following; }
      var listed, next, complete;
      listed, next, complete, following := inventory.List(category, position.cursor, limit);
      var candidates := Collect(run, category, listed);
      PageIs(inventory.objects, run, category, following, limit);
      res := CommitPage(r, category, position.cursor, Recovery.Page(candidates, next, complete));
    }

    /** The commit of a page (internal/application/recovery_enumeration.go:90-159). */
    method CommitPage(r: Id, category: Class, seen: Option<Id>, page: Recovery.Page) returns (res: Check)
      modifies store
      ensures Committed(Recovery.CommitPage(old(store.Snapshot()), r, category, seen, page), res,
                        old(store.Snapshot()), store.Snapshot())
    {
      hide Recovery.RecordEach, Recovery.AllComplete;
      var began := store.Snapshot();
      var p := ProgressKey(r, category);
      if r !in store.recovery.runs || p !in store.recovery.progress { return Fail(NotFound); }
      if store.recovery.progress[p].cursor != seen || store.recovery.progress[p].complete { return Pass; }
      res := RecordEach(r, category, page.candidates);
      if res.Fail? {
        store.Rollback(began);
        return;
      }
      store.recovery := store.recovery.(progress := store.recovery.progress[p := Progress(page.next, page.complete)]);
      if Recovery.AllComplete(store.Snapshot(), r) && store.recovery.runs[r].phase == RecoveryEnumerating {
        var run := store.recovery.runs[r].(phase := RecoveryReconciling);
        store.recovery := store.recovery.(runs := store.recovery.runs[r := run]);
      }
    }

    /** internal/application/recovery_enumeration.go:103-139. */
    method RecordEach(r: Id, category: Class, candidates: seq<Recovery.Candidate>) returns (res: Check)
      modifies store`recovery
      ensures Reached(Recovery.RecordEach(old(store.Snapshot()), r, category, candidates), res, store.Snapshot())
    {
      hide Recovery.FindingOf;
      for i := 0 to |candidates|
        invariant Recovery.RecordEach(old(store.Snapshot()), r, category, candidates)
                  == Recovery.RecordEach(store.Snapshot(), r, category, candidates[i..])
      {
        assert candidates[i..][0] == candidates[i] && candidates[i..][1..] == candidates[i + 1..];
        var k := FindingKey(r, Key(category, candidates[i].id));
        if k !in store.recovery.findings {
          var finding := Recovery.FindingOf(store.Snapshot(), k.key, candidates[i].body);
          if finding.Err? { return Fail(finding.error); }
          store.recovery := store.recovery.(findings := store.recovery.findings[k := finding.value]);
        }
      }
      return Pass;
    }

    // ---------- restoration ----------

    /** internal/application/recovery_reconciliation.go:283-323. */
    method RestoreOperation(o: Id, intake: IntakeBinding, epoch: nat) returns (res: Check)
      modifies store`work
      ensures Reached(Recovery.RestoreOperation(config, old(store.Snapshot()), o, intake, epoch), res, store.Snapshot())
    {
      if o in store.work.operations {
        return if store.work.operations[o].bind.tenant == intake.tenant then Pass else Fail(DuplicateKey);
      }
      store.UpdateOperation(o, Recovery.RestoredOperation(config, intake, epoch));
      return Pass;
    }

    /** internal/application/recovery_reconciliation.go:327-352. */
    method RestoreAttempt(a: Id, bind: AttemptBinding)
      modifies store`work
      ensures store.Snapshot() == Recovery.RestoreAttempt(old(store.Snapshot()), a, bind)
    {
      if a !in store.work.attempts { store.UpdateAttempt(a, Attempt(bind, AttemptLaunchPrepared, None, None)); }
    }

    /** internal/application/recovery_reconciliation.go:160-181. */
    method RestoreLaunch(l: Id, b: LaunchBinding, epoch: nat) returns (res: Check)
      modifies store`work
      ensures Reached(Recovery.RestoreLaunch(config, old(store.Snapshot()), l, b, epoch), res, store.Snapshot())
    {
      hide Recovery.RestoreOperation, Recovery.RestoreAttempt, Recovery.Anonymous;
      res := RestoreOperation(b.operation, Recovery.Anonymous(b.tenant, b.profile, b.createdAt, b.epoch), epoch);
      if res.Fail? { return; }
      RestoreAttempt(b.attempt, AttemptBinding(b.operation, b.tenant, b.profile, b.epoch, b.deadline));
      if l !in store.work.launches {
        store.work := store.work.(launches := store.work.launches[l := Launch(b, InventoryConfirmed)]);
      }
    }

    /** The send comes back unknown and its exposure is held again on every allocation of
        the operation (internal/application/recovery_reconciliation.go:182-243). */
    method RestoreDispatch(d: Id, b: DispatchBinding, epoch: nat) returns (res: Check)
      modifies store
      ensures Reached(Recovery.RestoreDispatch(config, old(store.Snapshot()), d, b, epoch), res, store.Snapshot())
    {
      hide Recovery.RestoreOperation, Recovery.RestoreAttempt, Recovery.Anonymous, Admission.InsertDispatch,
        MoveBudget, Recovery.ExposeOperation;
      res := RestoreOperation(b.operation, Recovery.Anonymous(b.tenant, None, b.admittedAt, b.epoch), epoch);
      if res.Fail? { return; }
      RestoreAttempt(b.attempt, AttemptBinding(b.operation, b.tenant, None, b.epoch, b.deadline));
      if d in store.ledger.dispatches { return Pass; }
      res := store.InsertDispatch(d, Recovery.RestoredDispatch(b));
      if res.Fail? { return; }
      ghost var inserted := store.Snapshot();
      var budget := Lock(store, b.operation);
      res := budget.Move(ToRestore, b.reserved, inserted, b.operation);
      if res.Fail? { return; }
      budget.Save(store, b.operation, MoveBudget(inserted, b.operation, ToRestore, b.reserved).value);
      ExposeOperation(b.operation);
    }

    method ExposeOperation(o: Id)
      requires o in store.work.operations
      modifies store`work
      ensures store.Snapshot() == Recovery.ExposeOperation(old(store.Snapshot()), o)
    {
      var op := new OperationEntity(store.work.operations[o]);
      if op.finance != FinanceExposureUnknown {
        op.finance := FinanceExposureUnknown;
        op.Transition();
        store.UpdateOperation(o, op.Row());
      }
    }

    /** internal/application/recovery_reconciliation.go:244-262. */
    method RestoreEffect(e: Id, b: EffectBinding, epoch: nat) returns (res: Check)
      modifies store
      ensures Reached(Recovery.RestoreEffect(config, old(store.Snapshot()), e, b, epoch), res, store.Snapshot())
    {
      hide Recovery.RestoreOperation, Recovery.Anonymous, Effects.InsertEffect;
      res := RestoreOperation(b.operation, Recovery.Anonymous(b.tenant, None, b.createdAt, b.epoch), epoch);
      if res.Fail? || e in store.guarded.effects { return; }
      res := store.InsertEffect(e, Recovery.RestoredEffect(b));
    }

    /** One lost identity and its finding, in one transaction
        (internal/application/recovery_reconciliation.go:138-271). */
    method Restore(f: FindingKey, body: Body) returns (res: Check)
      modifies store
      ensures Committed(Recovery.Restore(config, old(store.Snapshot()), f, body), res, old(store.Snapshot()),
                        store.Snapshot())
    {
      hide Recovery.RestoreOperation, Recovery.RestoreLaunch, Recovery.RestoreDispatch, Recovery.RestoreEffect,
        Recovery.Decodes;
      var began := store.Snapshot();
      if f.run !in store.recovery.runs || f !in store.recovery.findings { return Fail(NotFound); }
      if !Recovery.Decodes(f.key, body) || body.Tenant() != store.recovery.findings[f].tenant {
        return Fail(Integrity);
      }
      if store.recovery.findings[f].status != FindingMissing { return Pass; }
      var epoch := store.recovery.runs[f.run].epoch;
      match body {
        case IntakeBody(b) => res := RestoreOperation(f.key.id, b, epoch);
        case LaunchBody(b) => res := RestoreLaunch(f.key.id, b, epoch);
        case DispatchBody(b) => res := RestoreDispatch(f.key.id, b, epoch);
        case EffectBody(b) => res := RestoreEffect(f.key.id, b, epoch);
      }
      if res.Fail? {
        store.Rollback(began);
        return;
      }
      var status := if body.IntakeBody? then FindingResolved else FindingRestored;
      var found := store.recovery.findings[f].(status := status);
      store.recovery := store.recovery.(findings := store.recovery.findings[f := found]);
    }

    /** internal/application/recovery_reconciliation.go:415-438. */
    method SettleFinding(f: FindingKey, status: FindingStatus) returns (res: Check)
      modifies store
      ensures Committed(Recovery.SettleFinding(old(store.Snapshot()), f, status), res, old(store.Snapshot()),
                        store.Snapshot())
    {
      hide Recovery.RowPresent, Recovery.RowSettled, Recovery.OfTenant;
      if f !in store.recovery.findings || !Recovery.RowPresent(store.Snapshot(), f.key) { return Fail(NotFound); }
      var locked := store.recovery.findings[f];
      if !Recovery.OfTenant(store.Snapshot(), f.key, locked.tenant) {
        return Fail(if f.key.category == ClassBusinessWrite then NotFound else Integrity);
      }
      if locked.status == FindingMissing { return Fail(StaleExecution); }
      if locked.status == FindingDisposed { return Pass; }
      if status != FindingResolved && status != FindingUnresolved && status != FindingRestored { return Fail(Invalid); }
      if status == FindingResolved && !Recovery.RowSettled(store.Snapshot(), f.key) { return Fail(EffectUncertain); }
      store.recovery := store.recovery.(findings := store.recovery.findings[f := locked.(status := status)]);
      return Pass;
    }

    /** internal/application/recovery_reconciliation.go:121-134. */
    method ConfirmRestoredLaunch(l: Id) returns (res: Check)
      modifies store
      ensures Committed(Recovery.ConfirmRestoredLaunch(old(store.Snapshot()), l), res, old(store.Snapshot()),
                        store.Snapshot())
    {
      if l !in store.work.launches { return Fail(NotFound); }
      var locked := store.work.launches[l];
      store.work := store.work.(launches := store.work.launches[l := locked.(inventory := InventoryConfirmed)]);
      return Pass;
    }

    // ---------- dispositions ----------

    /** The obligation's own change (internal/application/recovery_disposition.go:144-205). */
    method ApplyDecision(req: Recovery.DispositionRequest) returns (res: Check)
      requires Valid()
      modifies store
      ensures Reached(Recovery.ApplyDecision(old(store.Snapshot()), req), res, store.Snapshot())
    {
      hide Admission.ConfirmNotSent, Effects.ConfirmRecordNotSent, Effects.ObserveOutcome;
      if req.key.category == ClassModelDispatch || req.key.category == ClassToolDispatch {
        if req.decision != DisposeConfirmNotSent { return Pass; }
        res := dispatches.ConfirmNotSentLocked(req.key.id, req.evidence, Some(req.epoch));
        return;
      }
      if req.key.category != ClassBusinessWrite || req.decision == DisposeRetainExposure { return Pass; }
      if req.key.id !in store.guarded.effects { return Fail(NotFound); }
      var locked := new EffectEntity(store.guarded.effects[req.key.id]);
      if req.decision == DisposeConfirmNotSent {
        res := locked.ConfirmNotSent(req.evidence);
        if res.Fail? { return; }
      } else {
        if (req.key.id, Recovery.DISPOSITION, req.epoch) in store.guarded.effectReports { return Pass; }
        var outcome := if req.decision == DisposeResolveSucceeded then EffectOutcomeSucceeded else EffectOutcomeFailed;
        res := locked.Observe(outcome, Some(ReceiptRef(req.evidence)));
        if res.Fail? { return; }
        store.guarded := store.guarded.(effectReports := store.guarded.effectReports + {(req.key.id,
            Recovery.DISPOSITION, req.epoch)});
      }
      store.UpdateEffect(req.key.id, locked.Row());
    }

    /** An operator's evidence-bound exit of a finding
        (internal/application/recovery_disposition.go:38-236). */
    method Dispose(req: Recovery.DispositionRequest, bound: bool) returns (res: Check)
      requires Valid()
      modifies store
      ensures Committed(Recovery.Dispose(old(store.Snapshot()), req, bound), res, old(store.Snapshot()),
                        store.Snapshot())
    {
      hide Recovery.ApplyDecision, Recovery.Applies, Recovery.OperationFor;
      var began := store.Snapshot();
      var o := Recovery.OperationFor(began, req.key);
      var made := Disposition(req.tenant, req.command, req.decision, req.evidence);
      if !Recovery.Applies(req.key.category, req.decision) { return Fail(Invalid); }
      if req.key in store.recovery.dispositions {
        return if store.recovery.dispositions[req.key] == made then Pass else Fail(IdempotencyConflict);
      }
      if bound {
        if o.None? || o.value !in store.work.operations
            || store.work.operations[o.value].bind.tenant != req.tenant { return Fail(NotFound); }
        if store.work.operations[o.value].recoveryEpoch != req.epoch { return Fail(StaleExecution); }
      } else {
        if !Recovery.Unrestorable(began, req) { return Fail(NotFound); }
        if store.recovery.runs[req.run.value].epoch != req.epoch { return Fail(StaleExecution); }
      }
      res := ApplyDecision(req);
      if res.Fail? {
        store.Rollback(began);
        return;
      }
      store.recovery := store.recovery.(dispositions := store.recovery.dispositions[req.key := made]);
      if req.run.Some? {
        var f := FindingKey(req.run.value, req.key);
        if f in store.recovery.findings && !store.recovery.findings[f].status.Settled() {
          var disposed := store.recovery.findings[f].(status := FindingDisposed);
          store.recovery := store.recovery.(findings := store.recovery.findings[f := disposed]);
        }
      }
    }

    // ---------- the gate ----------

    /** internal/application/recovery.go:300-342. */
    method Evaluate(r: Id) returns (res: Check)
      modifies store
      ensures Committed(Recovery.Evaluate(old(store.Snapshot()), r), res, old(store.Snapshot()), store.Snapshot())
    {
      hide Recovery.AllComplete, Recovery.HasUnsettled;
      if r !in store.recovery.runs { return Fail(NotFound); }
      var run := store.recovery.runs[r];
      if run.phase == RecoveryReopened { return Pass; }
      if !Recovery.AllComplete(store.Snapshot(), r) {
        if run.phase == RecoveryFenced { return Pass; }
        run := run.(phase := RecoveryEnumerating);
      } else if Recovery.HasUnsettled(store.Snapshot(), r) {
        run := run.(phase := RecoveryRestricted);
      } else {
        run := run.(phase := RecoveryReopened);
        var closures := store.recovery.closures;
        if run.scope in closures && closures[run.scope].run == r {
          closures := closures[run.scope := closures[run.scope].(open := false)];
        }
        assert closures == Recovery.Reopened(store.Snapshot(), r);
        store.recovery := store.recovery.(closures := closures);
      }
      store.recovery := store.recovery.(runs := store.recovery.runs[r := run]);
      return Pass;
    }
  }

  /** What listing one page and committing it does when nothing comes between. */
  predicate Enumerates(db: DB, after: DB, objects: map<Key, Object>, r: Id, category: Class, limit: nat,
                       following: seq<Id>, res: Check) {
    var p := ProgressKey(r, category);
    if r !in db.recovery.runs || p !in db.recovery.progress then res == Fail(NotFound) && after == db
    else if db.recovery.progress[p].complete then res == Pass && after == db
    else if db.recovery.runs[r].phase != RecoveryFenced && db.recovery.runs[r].phase != RecoveryEnumerating
    then res == Fail(StaleExecution) && after == db
    else
      && Recovery.Follows(objects, category, db.recovery.progress[p].cursor, following)
      && Committed(Recovery.CommitPage(db, r, category, db.recovery.progress[p].cursor,
                                       Recovery.PageOf(objects, db.recovery.runs[r], category, following, limit)), res,
                                           db, after)
  }

  lemma ListsEveryClass()
    ensures forall category: Class ::
        category in CLASSES && category in [ClassIntake, ClassJobLaunch, ClassModelDispatch, ClassToolDispatch,
                                            ClassBusinessWrite]
  {
    forall category: Class
      ensures category in CLASSES
          && category in [ClassIntake, ClassJobLaunch, ClassModelDispatch, ClassToolDispatch, ClassBusinessWrite]
    {
      if !(category.ClassIntake? || category.ClassJobLaunch? || category.ClassModelDispatch?
           || category.ClassToolDispatch?) {
        assert category == ClassBusinessWrite;
      }
    }
  }

  lemma PageIs(objects: map<Key, Object>, run: RecoveryRun, category: Class, following: seq<Id>, limit: nat)
    ensures var listed := Recovery.Listed(following, limit);
            var complete := |listed| == |following|;
            Recovery.PageOf(objects, run, category, following, limit)
            == Recovery.Page(Recovery.Candidates(objects, run, category, listed),
                             if complete || listed == [] then None else Some(listed[|listed| - 1]), complete)
  {
  }
}
