/** The revocation barrier of a grant revision (internal/application/grants.go:50-207,
    internal/domain/budget.go:468-497). */
module Barrier {
  import opened Values
  import opened Budget
  import opened Records
  import opened Database
  import opened Transactions
  import Admission
  import DispatchSteps
  import Execution
  import Grants
  import Recovery
  import Releases

  predicate Revoked(db: DB, g: GrantKey) { g in db.policy.grants && db.policy.grants[g].revocation != RevocationNone }

  predicate Converged(db: DB, g: GrantKey) {
    g in db.policy.grants && db.policy.grants[g].revocation == RevocationConverged
  }

  predicate Unregistered(db: DB, g: GrantKey) { g in db.policy.grants && !db.policy.grants[g].registered }

  predicate ToolCall(db: DB, g: GrantKey, d: Id) {
    d in db.ledger.dispatches && db.ledger.dispatches[d].bind.kind == DispatchTool
        && db.ledger.dispatches[d].bind.grant == Some(g)
  }

  /** The tool calls of the revision that consumed their permission and whose outcome
      is open. */
  function Senders(db: DB, g: GrantKey): set<Id> {
    set d | d in db.ledger.dispatches && ToolCall(db, g, d) && db.ledger.dispatches[d].state.Sending()
  }

  /** What a transaction can do to a revision. */
  predicate GrantMoves(db: DB, next: DB, g: GrantKey) {
    && (g in db.policy.grants ==> g in next.policy.grants)
    && (Revoked(db, g) ==> Revoked(next, g))
    && (Converged(db, g) ==> Converged(next, g))
    && (Unregistered(db, g) ==> Unregistered(next, g))
    && (Converged(next, g) && !Converged(db, g) && g in db.policy.grants ==> Senders(db, g) == {})
  }

  lemma NoneCounted(db: DB, g: GrantKey)
    requires |Grants.InState(db, g, DispatchAuthorized)| == 0 && |Grants.InState(db, g, DispatchUnknown)| == 0
    ensures Senders(db, g) == {}
  {
    var acting := Grants.InState(db, g, DispatchAuthorized) + Grants.InState(db, g, DispatchUnknown);
    assert Senders(db, g) <= acting;
    assert acting == {};
  }

  lemma StepOfGrant(c: Config, db: DB, tx: Tx, g: GrantKey)
    ensures GrantMoves(db, Apply(c, db, tx), g)
  {
    hide AdmissionStep, EffectStep, ExecutionStep, ControlStep, FinanceStep, RunStep, Recovery.Restore,
      Recovery.Dispose, Senders, Grants.InState;
    if tx.Granting? && tx.grant.AdvanceRevocation? && |Grants.InState(db, tx.grant.g, DispatchAuthorized)| == 0
       && |Grants.InState(db, tx.grant.g, DispatchUnknown)| == 0 {
      NoneCounted(db, tx.grant.g);
    }
  }

  /** Tool calls name a registered revision, and none sends behind a converged barrier. */
  ghost predicate Held(db: DB) {
    forall g, d | ToolCall(db, g, d) && db.ledger.dispatches[d].state.Held() ::
      g in db.policy.grants && (Converged(db, g) ==> db.ledger.dispatches[d].state == DispatchPrepared)
  }

  /** Behind a revocation the senders only become fewer. */
  lemma SendersShrink(c: Config, db: DB, tx: Tx, g: GrantKey)
    requires Steady(db, tx) && Revoked(db, g)
    ensures Senders(Apply(c, db, tx), g) <= Senders(db, g)
  {
    hide Apply;
    if tx.Restoring? {
      NothingRestored(c, db, tx.f, tx.body);
    } else {
      forall d | d in Senders(Apply(c, db, tx), g)
        ensures d in Senders(db, g)
      {
        DispatchSteps.StepOfRow(c, db, tx, d);
      }
    }
  }

  lemma HeldStep(c: Config, db: DB, tx: Tx)
    requires Steady(db, tx) && Held(db)
    ensures Held(Apply(c, db, tx))
  {
    hide Apply;
    var next := Apply(c, db, tx);
    if tx.Restoring? {
      NothingRestored(c, db, tx.f, tx.body);
    } else {
      forall g, d | ToolCall(next, g, d) && next.ledger.dispatches[d].state.Held()
        ensures g in next.policy.grants && (Converged(next, g) ==> next.ledger.dispatches[d].state == DispatchPrepared)
      {
        DispatchSteps.StepOfRow(c, db, tx, d);
        StepOfGrant(c, db, tx, g);
        if d in db.ledger.dispatches {
          assert ToolCall(db, g, d);
          assert db.ledger.dispatches[d].state.Sending() ==> d in Senders(db, g);
          if Converged(next, g) && next.ledger.dispatches[d].state != DispatchPrepared
              && db.ledger.dispatches[d].state == DispatchPrepared {
            assert DispatchSteps.Executable(db, g);
            LedgerOrPolicy(c, db, tx);
          }
        }
      }
    }
  }

  /** No transaction writes both the dispatches and the grants. */
  lemma LedgerOrPolicy(c: Config, db: DB, tx: Tx)
    ensures Apply(c, db, tx).ledger == db.ledger || Apply(c, db, tx).policy == db.policy
  {
    hide AdmissionStep, EffectStep, GrantStep, ExecutionStep, ControlStep, FinanceStep, RunStep, Recovery.Restore,
      Recovery.Dispose;
  }

  lemma {:induction false} HeldAlways(c: Config, run: Run)
    requires SteadyRun(c, run)
    ensures Held(After(c, run))
  {
    hide Apply;
    if run.Then? {
      HeldAlways(c, run.prior);
      HeldStep(c, After(c, run.prior), run.tx);
    }
  }

  /** The barrier over a run without a rollback: a revoked revision stays revoked, the
      tool calls that send under it never grow, converged is final with none of them
      left, and a revision that was revoked before it was registered never becomes
      executable. */
  lemma {:induction false} ToolBarrierHolds(c: Config, earlier: Run, later: Run, g: GrantKey)
    requires Within(earlier, later) && SteadyRun(c, later)
    requires Revoked(After(c, earlier), g)
    ensures Revoked(After(c, later), g)
    ensures Senders(After(c, later), g) <= Senders(After(c, earlier), g)
    ensures Converged(After(c, earlier), g) ==> Converged(After(c, later), g)
    ensures Converged(After(c, later), g) ==> Senders(After(c, later), g) == {}
    ensures !DispatchSteps.Executable(After(c, later), g)
    ensures Unregistered(After(c, earlier), g) ==> Unregistered(After(c, later), g)
  {
    hide Apply;
    HeldAlways(c, later);
    assert forall d | d in Senders(After(c, later), g) :: ToolCall(After(c, later), g, d);
    if earlier != later {
      ToolBarrierHolds(c, earlier, later.prior, g);
      SendersShrink(c, After(c, later.prior), later.tx, g);
      StepOfGrant(c, After(c, later.prior), later.tx, g);
    }
  }

  // ---------- every sender that is counted ----------

  /** What the barrier counts: the senders of the revision, of any kind
      (internal/adapters/postgres/queries/dispatch.sql:130-133). */
  function Counted(db: DB, g: GrantKey): set<Id> {
    Grants.InState(db, g, DispatchAuthorized) + Grants.InState(db, g, DispatchUnknown)
  }

  predicate SentBehind(db: DB, next: DB, g: GrantKey, d: Id) { d in Counted(next, g) && d !in Counted(db, g) }

  predicate ModelCall(db: DB, g: GrantKey, d: Id) {
    d in db.ledger.dispatches && db.ledger.dispatches[d].bind.kind == DispatchModel
        && db.ledger.dispatches[d].bind.grant == Some(g)
  }

  /** The record is consumed by the transaction. */
  predicate Consumed(db: DB, next: DB, d: Id) {
    && d in db.ledger.dispatches && db.ledger.dispatches[d].state == DispatchPrepared
    && d in next.ledger.dispatches && next.ledger.dispatches[d].state == DispatchAuthorized
  }

  /** Behind a revocation a sender is added exactly by consuming a model call that names
      the revision. */
  lemma OnlyModelsSendBehind(c: Config, db: DB, tx: Tx, g: GrantKey, d: Id)
    requires Steady(db, tx) && Revoked(db, g)
    ensures SentBehind(db, Apply(c, db, tx), g, d) <==> ModelCall(db, g, d) && Consumed(db, Apply(c, db, tx), d)
    ensures SentBehind(db, Apply(c, db, tx), g, d) ==> HowOf(tx) == Consumes(d)
  {
    hide Apply;
    if tx.Restoring? {
      NothingRestored(c, db, tx.f, tx.body);
    } else {
      DispatchSteps.StepOfRow(c, db, tx, d);
    }
  }

  /** A model request names no grant: the door it comes through never sets one
      (internal/transport/grpc/dispatch.go:84-88). */
  predicate ThroughTheDoor(tx: Tx) {
    tx.Admitting? && tx.admission.AdmitPrepare? && tx.admission.req.kind == DispatchModel ==>
      tx.admission.req.grant.None?
  }

  predicate ThroughTheDoors(run: Run) { run.Then? ==> ThroughTheDoors(run.prior) && ThroughTheDoor(run.tx) }

  predicate ModelNamesNone(db: DB, d: Id) {
    d in db.ledger.dispatches && db.ledger.dispatches[d].bind.kind == DispatchModel ==>
      db.ledger.dispatches[d].bind.grant.None?
  }

  /** A new record names what its request named. */
  lemma PreparedNames(c: Config, db: DB, t: AdmissionTx, d: Id)
    requires t.AdmitPrepare? && AdmissionStep(c, db, t).Ok? && ThroughTheDoor(Admitting(t)) && ModelNamesNone(db, d)
    ensures ModelNamesNone(AdmissionStep(c, db, t).value, d)
  {
    hide Admission.CheckAdmission, Admission.LoadContext, MoveBudget;
  }

  lemma NamesNoneStep(c: Config, db: DB, tx: Tx, d: Id)
    requires Steady(db, tx) && ThroughTheDoor(tx) && ModelNamesNone(db, d)
    ensures ModelNamesNone(Apply(c, db, tx), d)
  {
    hide AdmissionStep, EffectStep, Releases.Record, GrantStep, ExecutionStep, Execution.CloseAttempt, ControlStep,
      FinanceStep, RunStep, Recovery.Restore, Recovery.Dispose, DispatchSteps.Admissible;
    if tx.Restoring? {
      NothingRestored(c, db, tx.f, tx.body);
    } else if tx.Admitting? && tx.admission.AdmitPrepare? {
      if AdmissionStep(c, db, tx.admission).Ok? { PreparedNames(c, db, tx.admission, d); }
    } else {
      DispatchSteps.StepOfRow(c, db, tx, d);
    }
  }

  lemma {:induction false} NamesNoneAlways(c: Config, run: Run, d: Id)
    requires SteadyRun(c, run) && ThroughTheDoors(run)
    ensures ModelNamesNone(After(c, run), d)
  {
    hide Apply;
    if run.Then? {
      NamesNoneAlways(c, run.prior, d);
      NamesNoneStep(c, After(c, run.prior), run.tx, d);
    }
  }

  lemma CountedAreTools(c: Config, run: Run, g: GrantKey)
    requires SteadyRun(c, run) && ThroughTheDoors(run)
    ensures Counted(After(c, run), g) == Senders(After(c, run), g)
  {
    hide After;
    var db := After(c, run);
    forall d
      ensures d in Counted(db, g) <==> d in Senders(db, g)
    {
      NamesNoneAlways(c, run, d);
    }
  }

  /** The barrier over a run without a rollback, of every sender it counts: a revoked
      revision stays revoked, its senders never grow, converged is final with no sender
      left, it is never executable again, and a revision that was revoked before it was
      registered never becomes executable. */
  lemma BarrierHolds(c: Config, earlier: Run, later: Run, g: GrantKey)
    requires Within(earlier, later) && SteadyRun(c, later) && ThroughTheDoors(later)
    requires Revoked(After(c, earlier), g)
    ensures Revoked(After(c, later), g)
    ensures Counted(After(c, later), g) <= Counted(After(c, earlier), g)
    ensures Converged(After(c, earlier), g) ==> Converged(After(c, later), g)
    ensures Converged(After(c, later), g) ==> Counted(After(c, later), g) == {}
    ensures !DispatchSteps.Executable(After(c, later), g)
    ensures Unregistered(After(c, earlier), g) ==> Unregistered(After(c, later), g)
  {
    hide After, Counted, Senders, Revoked, Converged, Unregistered, DispatchSteps.Executable;
    ToolBarrierHolds(c, earlier, later, g);
    CountedAreTools(c, later, g);
    EarlierSteady(c, earlier, later);
    CountedAreTools(c, earlier, g);
  }

  lemma {:induction false} EarlierSteady(c: Config, earlier: Run, later: Run)
    requires Within(earlier, later) && SteadyRun(c, later) && ThroughTheDoors(later)
    ensures SteadyRun(c, earlier) && ThroughTheDoors(earlier)
  {
    hide After, Steady, ThroughTheDoor;
    if earlier != later { EarlierSteady(c, earlier, later.prior); }
  }

  // ---------- registration ----------

  /** A revision with methods, each named once, that has not expired. */
  predicate Registrable(g: GrantKey, r: Grants.Registration, now: Time) {
    && g.revision > 0 && r.methods != [] && (r.expiresAt.Some? ==> now < r.expiresAt.value)
    && forall i, j | 0 <= i < j < |r.methods| :: r.methods[i] != r.methods[j]
  }

  /** The registration repeats what is recorded of a revision in force. */
  predicate Repeats(p: GrantPolicy, r: Grants.Registration) {
    p.tenant == r.tenant && p.registered && p.revocation == RevocationNone && p.policy == Some(r.policy)
  }

  /** A revision is registered once, as it was asked for; a revoked one, or one revoked
      before it was ever registered, never. */
  lemma RegistersExactly(db: DB, g: GrantKey, r: Grants.Registration, now: Time)
    ensures var out := Grants.Register(db, g, r, now);
            && (out.Ok? <==> Registrable(g, r, now)
                             && (g in db.policy.grants ==> Repeats(db.policy.grants[g], r)))
            && (out.Ok? && g in db.policy.grants ==> out.value == db)
            && (out.Ok? && g !in db.policy.grants ==>
                  out.value.policy.grants == db.policy.grants[g := GrantPolicy(
                      r.tenant, Some(r.policy), Some(r.server), r.methods, r.costCap, r.expiresAt, true, RevocationNone,
                      0, 0)])
  {
  }

  /** A revocation is recorded once: it fences a revision in force with the senders counted
      then, leaves a converged tombstone of one never registered, and converges when no
      sender is left. */
  lemma RevokesExactly(db: DB, g: GrantKey, tenant: Name)
    ensures var begun := Grants.BeginRevocation(db, g, tenant);
            && (begun.Ok? <==> g in db.policy.grants ==> db.policy.grants[g].tenant == tenant)
            && (begun.Ok? && Revoked(db, g) ==> begun.value == db)
            && (begun.Ok? && !Revoked(db, g) ==> BegunAs(db, begun.value, g))
    ensures var advanced := Grants.Revocation(db, g);
            && (advanced.Ok? <==> Revoked(db, g))
            && (advanced.Ok? && Converged(db, g) ==> advanced.value == db)
            && (advanced.Ok? && !Converged(db, g) ==> AdvancedAs(db, advanced.value, g))
  {
    assert forall s :: Grants.InState(db, g, s) == Naming(db, g, s);
  }

  /** The calls of the revision in the state. */
  function Naming(db: DB, g: GrantKey, s: DispatchState): set<Id> {
    set d | d in db.ledger.dispatches && db.ledger.dispatches[d].state == s
            && db.ledger.dispatches[d].bind.grant == Some(g)
  }

  predicate Tallied(db: DB, p: GrantPolicy, g: GrantKey) {
    p.inFlight == |Naming(db, g, DispatchAuthorized)| && p.unknown == |Naming(db, g, DispatchUnknown)|
  }

  predicate BegunAs(db: DB, next: DB, g: GrantKey) {
    && g in next.policy.grants
    && if g in db.policy.grants then
         next.policy.grants[g].revocation == RevocationFenced && Tallied(db, next.policy.grants[g], g)
       else next.policy.grants[g].revocation == RevocationConverged && !next.policy.grants[g].registered
  }

  predicate AdvancedAs(db: DB, next: DB, g: GrantKey) {
    && g in next.policy.grants && Tallied(db, next.policy.grants[g], g)
    && next.policy.grants[g].revocation ==
       if next.policy.grants[g].inFlight == next.policy.grants[g].unknown == 0 then RevocationConverged
       else RevocationConverging
  }
}
