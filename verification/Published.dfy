/** Inventory before permission: whatever consumed its permission is published first, as
    its record says, across interleavings, lost acknowledgements and a rollback; a record
    that a recovery restored says less (internal/application/dispatch.go:253-322,
    internal/application/effects.go:230-281, internal/application/obligations.go:121-191). */
module Published {
  import opened Values
  import opened Budget
  import opened Records
  import opened Database
  import opened Transactions
  import opened Worlds
  import Admission
  import DispatchSteps
  import Effects
  import EffectSteps
  import Execution
  import Recovery
  import Releases

  // ---------- the transaction behind an event ----------

  /** The transaction an event commits, if it commits one. */
  function TxOf(w: World, e: Event): Option<Tx> {
    match e
    case Commit(tx) => Some(tx)
    case Ask(_, id, tenant, req, authority, revision, now) =>
        Some(Admitting(AdmitPrepare(id, tenant, req, authority, revision, now)))
    case AskPermit(_, id, tenant, command, req, now) => Some(Permitting(PermitPrepare(id, tenant, command, req, now)))
    case Consume(ticket, authority, now) =>
      if ticket !in w.flights then None
      else
        (match w.flights[ticket]
         case CallFlight(call, _) => Some(Admitting(AdmitConsume(call, authority, now)))
         case MutationFlight(m, _) => Some(Permitting(PermitConsume(m, now)))
         case PageFlight(_, _, _, _, _) => None)
    case CommitListed(ticket) =>
      if ticket in w.flights && w.flights[ticket].PageFlight? && w.flights[ticket].page.Some? then
        var f := w.flights[ticket]; Some(Recovering(CommitPage(f.r, f.category, f.seen, f.page.value)))
      else None
    case RestoreFinding(f) => if f.key in w.inventory then Some(Restoring(f, w.inventory[f.key].body)) else None
    case Begin(begin) => Some(Recovering(begin))
    case _ => None
  }

  function DbAfter(c: Config, db: DB, tx: Option<Tx>): DB {
    hide Apply;
    if tx.None? then db else Apply(c, db, tx.value)
  }

  /** What a first transaction leaves is what its transaction commits. */
  predicate Asks(c: Config, w: World, e: Event) {
    hide AskStep, AskPermitStep, Apply;
    && (e.Ask? ==> AskStep(c, w, e).db == DbAfter(c, w.db, TxOf(w, e)))
    && (e.AskPermit? ==> AskPermitStep(c, w, e).db == DbAfter(c, w.db, TxOf(w, e)))
  }

  lemma AskCommits(c: Config, w: World, e: Event)
    ensures Asks(c, w, e)
  {
    hide Admission.AdmitPrepare, Effects.PermitPrepare, Apply;
    if e.Ask? { AdmissionCommits(c, w.db, TxOf(w, e).value.admission); }
    if e.AskPermit? { EffectCommits(c, w.db, TxOf(w, e).value.effect); }
  }

  predicate Consuming(w: World, e: Event) { e.Consume? && e.ticket in w.flights && !w.flights[e.ticket].PageFlight? }

  predicate ConsumesDb(c: Config, w: World, e: Event) {
    hide ConsumeStep, Apply;
    Consuming(w, e) && ConsumeStep(c, w, e.ticket, e.authority, e.now).db == DbAfter(c, w.db, TxOf(w, e))
  }

  lemma ConsumeCommits(c: Config, w: World, e: Event)
    requires Consuming(w, e)
    ensures ConsumesDb(c, w, e)
  {
    hide Admission.AdmitConsume, Effects.PermitConsume, Apply;
    match w.flights[e.ticket]
    case CallFlight(_, _) => AdmissionCommits(c, w.db, TxOf(w, e).value.admission);
    case MutationFlight(_, _) => EffectCommits(c, w.db, TxOf(w, e).value.effect);
  }

  /** Every event but the rollback commits at most one transaction. */
  lemma EventCommits(c: Config, w: World, e: Event)
    requires !e.Rollback?
    ensures Happens(c, w, e).db == DbAfter(c, w.db, if Enabled(c, w, e) then TxOf(w, e) else None)
  {
    hide Apply, AskStep, AskPermitStep, ConsumeStep, Recovery.PageOf, Recovery.Follows, Starts;
    if Enabled(c, w, e) {
      if e.Ask? || e.AskPermit? { AskCommits(c, w, e); }
      if e.Consume? { ConsumeCommits(c, w, e); }
    }
  }

  // ---------- what is published ----------

  predicate Consumed(s: DispatchState) { s.Sending() || s.DispatchObserved? }

  predicate Permitted(s: EffectState) {
    s.EffectPermitted? || s.EffectUnknown? || s.EffectSucceeded? || s.EffectFailed?
  }

  /** The inventory holds exactly the record's obligation. */
  predicate Holds(w: World, k: Key, body: Body) { k in w.inventory && w.inventory[k].body == body }

  predicate Returned(w: World, d: Id, b: DispatchBinding) { DispatchKey(d, b) in w.restored }

  /** What the record of an obligation says: all of it, unless it was restored. */
  function Recorded(w: World, d: Id, b: DispatchBinding): DispatchBinding {
    if Returned(w, d, b) then Recovery.Bare(b) else b
  }

  /** A record was issued its obligation once; while it may have been acted upon, the
      inventory holds it. A restored record is never prepared and names no replacement. */
  predicate DispatchIssued(w: World, db: DB, d: Id) {
    d in db.ledger.dispatches ==>
      var row := db.ledger.dispatches[d];
      && d in w.issued && w.issued[d].DispatchBody? && row.bind == Recorded(w, d, w.issued[d].dispatch)
      && (Returned(w, d, row.bind) ==> Recovery.Remnant(row))
      && (row.state.DispatchPrepared? ==> row.bind.reserved.amount >= 0)
      && (Consumed(row.state) ==> Holds(w, DispatchKey(d, row.bind), w.issued[d]))
  }

  predicate EffectIssued(w: World, db: DB, e: Id) {
    e in db.guarded.effects ==>
      var row := db.guarded.effects[e];
      && e in w.issued && w.issued[e] == EffectBody(row.bind)
      && (EffectKey(e) in w.restored ==> Recovery.RemnantEffect(row))
      && (Permitted(row.state) ==> Holds(w, EffectKey(e), EffectBody(row.bind)))
  }

  ghost predicate RowsIssued(w: World, db: DB) {
    && (forall d | d in db.ledger.dispatches :: DispatchIssued(w, db, d))
    && (forall e | e in db.guarded.effects :: EffectIssued(w, db, e))
  }

  /** A published dispatch or effect is the obligation its record was issued. */
  predicate ObjectIssued(w: World, k: Key)
    requires k in w.inventory
  {
    && Recovery.Decodes(k, w.inventory[k].body)
    && (w.inventory[k].body.DispatchBody? ==>
        k.id in w.issued && w.issued[k.id] == w.inventory[k].body && w.inventory[k].body.dispatch.reserved.amount >= 0)
    && (w.inventory[k].body.EffectBody? ==> k.id in w.issued && w.issued[k.id] == w.inventory[k].body)
  }

  /** A request in flight carries the record's obligation and is bound to it. */
  predicate FlightIssued(w: World, f: Flight) {
    match f
    case CallFlight(call, acked) =>
      && call.Bound() && call.copy.bind.reserved.amount >= 0
      && call.id in w.issued && w.issued[call.id] == BodyOf(f) && (acked ==> Holds(w, KeyOf(f), BodyOf(f)))
    case MutationFlight(m, acked) =>
      m.Bound() && m.id in w.issued && w.issued[m.id] == BodyOf(f) && (acked ==> Holds(w, KeyOf(f), BodyOf(f)))
    case PageFlight(_, _, _, _, _) => true
  }

  /** The database has every row of the snapshot. */
  ghost predicate Has(db: DB, snapshot: DB) {
    && (forall d | d in snapshot.ledger.dispatches :: d in db.ledger.dispatches)
    && (forall e | e in snapshot.guarded.effects :: e in db.guarded.effects)
  }

  ghost predicate Sound(w: World) {
    && RowsIssued(w, w.db)
    && (w.restorePoint.Some? ==> RowsIssued(w, w.restorePoint.value) && Has(w.db, w.restorePoint.value))
    && (forall k | k in w.restored :: k in w.inventory)
    && (forall k | k in w.inventory :: ObjectIssued(w, k))
    && (forall t | t in w.flights :: FlightIssued(w, w.flights[t]))
    && (forall i | i in w.issued :: i in w.used)
    && (forall r | r in w.begun :: r in w.used)
  }

  /** Nothing published or issued is taken back. */
  ghost predicate Grows(w: World, next: World) {
    && (forall k | k in w.inventory :: k in next.inventory && next.inventory[k] == w.inventory[k])
    && (forall i | i in w.issued :: i in next.issued && next.issued[i] == w.issued[i])
    && (forall r | r in w.begun :: r in next.begun && next.begun[r] == w.begun[r])
    && w.used <= next.used && w.restored <= next.restored
    && (forall k | k in next.restored && k !in w.restored :: !Recovery.RowPresent(w.db, k))
  }

  lemma AskGrows(c: Config, w: World, e: Event)
    requires (e.Ask? || e.AskPermit?) && e.id !in w.issued
    ensures e.Ask? ==> Grows(w, AskStep(c, w, e))
    ensures e.AskPermit? ==> Grows(w, AskPermitStep(c, w, e))
  {
    hide Admission.AdmitPrepare, Effects.PermitPrepare;
  }

  lemma RequestGrows(c: Config, w: World, e: Event)
    requires (e.Put? || Consuming(w, e)) && e.ticket in w.flights && !w.flights[e.ticket].PageFlight?
    ensures e.Put? ==> Grows(w, PutStep(w, e.ticket, e.reply, e.now))
    ensures e.Consume? ==> Grows(w, ConsumeStep(c, w, e.ticket, e.authority, e.now))
  {
    hide Admission.AdmitConsume, Effects.PermitConsume;
  }

  lemma WorldGrows(c: Config, w: World, e: Event)
    requires (forall i | i in w.issued :: i in w.used) && (forall r | r in w.begun :: r in w.used)
    ensures Grows(w, Happens(c, w, e))
  {
    hide Apply, AskStep, AskPermitStep, ConsumeStep, PutStep, Recovery.PageOf, Recovery.Follows, Starts;
    if Enabled(c, w, e) {
      if e.Ask? || e.AskPermit? { AskGrows(c, w, e); }
      if e.Put? || e.Consume? { RequestGrows(c, w, e); }
    }
  }

  // ---------- every event keeps it ----------

  /** What is in flight was answered by its own first transaction. */
  lemma EventInFlight(w: World, e: Event)
    requires Sound(w) && TxOf(w, e).Some? && (e.Commit? ==> Standalone(e.tx))
    ensures InFlight(TxOf(w, e).value)
  {
    match e
    case Consume(ticket, _, _) => assert FlightIssued(w, w.flights[ticket]);
    case RestoreFinding(f) => assert ObjectIssued(w, f.key);
    case _ =>
  }

  /** A record of another table is not what an event writes. */
  predicate Writes(e: Event, w: World, how: How) {
    match how
    case Prepares(id) => (e.Ask? || e.AskPermit?) && e.id == id
    case Consumes(id) =>
        e.Consume? && e.ticket in w.flights && !w.flights[e.ticket].PageFlight? && KeyOf(w.flights[e.ticket]).id == id
    case Restores(id, body) =>
        e.RestoreFinding? && e.f.key.id == id && e.f.key in w.inventory && w.inventory[e.f.key].body == body
    case Otherwise => true
  }

  lemma EventWrites(w: World, e: Event)
    requires TxOf(w, e).Some? && (e.Commit? ==> Standalone(e.tx))
    ensures Writes(e, w, HowOf(TxOf(w, e).value))
  {
  }

  /** The issue of a new record. */
  predicate Issues(w: World, next: World, e: Event) {
    match e
    case Ask(_, id, _, _, _, _, _) =>
      id in next.db.ledger.dispatches && id !in w.db.ledger.dispatches ==>
        id in next.issued && next.issued[id] == DispatchBody(next.db.ledger.dispatches[id].bind) && id in next.used
    case AskPermit(_, id, _, _, _, _) =>
      id in next.db.guarded.effects && id !in w.db.guarded.effects ==>
        id in next.issued && next.issued[id] == EffectBody(next.db.guarded.effects[id].bind) && id in next.used
    case _ => true
  }

  lemma EventIssues(c: Config, w: World, e: Event)
    ensures Issues(w, Happens(c, w, e), e)
  {
    hide Apply, Admission.AdmitPrepare, Admission.AdmitConsume, Effects.PermitPrepare, Effects.PermitConsume,
      Recovery.PageOf, Recovery.Follows, Starts, PutStep, StartStep, ConsumeStep;
  }

  /** Requests about effects leave the ledger alone, and the other way round. */
  lemma TablesKept(c: Config, db: DB, tx: Tx)
    ensures tx.Permitting? || tx.Recovering? ==> Apply(c, db, tx).ledger == db.ledger
    ensures tx.Admitting? || tx.Recovering? ==> Apply(c, db, tx).guarded == db.guarded
  {
    hide AdmissionStep, EffectStep, GrantStep, ExecutionStep, ControlStep, FinanceStep, RunStep,
      Execution.CloseAttempt, Recovery.Restore, Recovery.Dispose, Releases.Record;
  }

  /** Restored is what its own event inserted. */
  predicate RestoresRow(w: World, next: World, e: Event, k: Key) {
    k in next.restored <==>
      || k in w.restored
      || (e.RestoreFinding? && e.f.key == k && k in w.inventory && !Recovery.RowPresent(w.db, k)
          && Recovery.RowPresent(next.db, k))
  }

  lemma EventRestores(c: Config, w: World, e: Event, k: Key)
    requires Enabled(c, w, e)
    ensures RestoresRow(w, Happens(c, w, e), e, k)
  {
    hide Apply, Admission.AdmitPrepare, Admission.AdmitConsume, Effects.PermitPrepare, Effects.PermitConsume,
      Recovery.PageOf, Recovery.Follows, Starts, Recovery.RowPresent;
  }

  /** A restored identity of a request was published, so it was issued and used. */
  lemma RestoredIsUsed(w: World, k: Key)
    requires Sound(w) && k in w.restored
    requires k.category != ClassIntake && k.category != ClassJobLaunch
    ensures k.id in w.used
  {
    assert ObjectIssued(w, k);
  }

  predicate AsksAnew(w: World, e: Event) { e.Ask? || e.AskPermit? ==> e.id !in w.used }

  lemma EnabledAsk(c: Config, w: World, e: Event)
    requires Enabled(c, w, e)
    ensures AsksAnew(w, e)
  {
    hide Starts, Recovery.Follows;
  }

  predicate IsIssued(w: World, d: Id) {
    d in w.db.ledger.dispatches ==>
      d in w.issued && w.issued[d].DispatchBody?
      && Holds(w, DispatchKey(d, w.db.ledger.dispatches[d].bind), w.issued[d])
  }

  /** Only a request whose obligation is published consumes its record. */
  lemma ConsumedIsPublished(c: Config, w: World, e: Event, tx: Tx, d: Id)
    requires Sound(w) && Enabled(c, w, e) && TxOf(w, e) == Some(tx) && StandsAlone(e)
    requires HowOf(tx) == Consumes(d) && d in w.db.ledger.dispatches
    ensures IsIssued(w, d) || Apply(c, w.db, tx).ledger == w.db.ledger
  {
    hide Apply, Enabled;
    EventWrites(w, e);
    EnabledConsume(c, w, e);
    TablesKept(c, w.db, tx);
    assert FlightIssued(w, w.flights[e.ticket]) && DispatchIssued(w, w.db, d);
  }

  predicate StandsAlone(e: Event) { e.Commit? ==> Standalone(e.tx) }

  lemma IssuedRowStays(w: World, next: World, how: How, d: Id)
    requires Grows(w, next) && d in w.db.ledger.dispatches && DispatchIssued(w, w.db, d)
    requires DispatchSteps.RowStep(w.db, next.db, d, how)
    requires how == Consumes(d) ==> IsIssued(w, d) || next.db.ledger == w.db.ledger
    ensures DispatchIssued(next, next.db, d)
  {
    hide DispatchSteps.Admissible, DispatchSteps.RowAppears;
  }

  /** A record that stays keeps its binding, and is consumed only once it is published. */
  lemma DispatchStaysIssued(c: Config, w: World, e: Event, d: Id)
    requires Sound(w) && Enabled(c, w, e) && !e.Rollback? && d in w.db.ledger.dispatches
    ensures DispatchIssued(Happens(c, w, e), Happens(c, w, e).db, d)
  {
    hide Happens, Apply, Enabled, DispatchSteps.RowStep, DispatchIssued, EffectIssued, ObjectIssued,
      FlightIssued, Grows, IsIssued;
    var next := Happens(c, w, e);
    EventCommits(c, w, e);
    WorldGrows(c, w, e);
    if TxOf(w, e).Some? {
      var tx := TxOf(w, e).value;
      EnabledStandsAlone(c, w, e);
      EventInFlight(w, e);
      DispatchSteps.StepOfRow(c, w.db, tx, d);
      if HowOf(tx) == Consumes(d) { ConsumedIsPublished(c, w, e, tx, d); }
      IssuedRowStays(w, next, HowOf(tx), d);
    } else {
      SnapshotStays(w, next, w.db);
    }
  }

  lemma AdmissibleReserves(db: DB, row: Dispatch)
    ensures DispatchSteps.Admissible(db, row.bind, row.supersedes) ==> row.bind.reserved.amount >= 0
  {
  }

  /** A record that appears is issued with it, or restored from what was issued. */
  lemma DispatchAppearsIssued(c: Config, w: World, e: Event, d: Id)
    requires Sound(w) && Enabled(c, w, e) && !e.Rollback? && d !in w.db.ledger.dispatches
    ensures DispatchIssued(Happens(c, w, e), Happens(c, w, e).db, d)
  {
    hide Happens, Apply, Enabled, DispatchSteps.Admissible, DispatchSteps.RowMoves, AdmissionClosed;
    var next := Happens(c, w, e);
    EventCommits(c, w, e);
    if TxOf(w, e).Some? && d in next.db.ledger.dispatches {
      var tx := TxOf(w, e).value;
      var k := DispatchKey(d, next.db.ledger.dispatches[d].bind);
      EventRestores(c, w, e, k);
      EnabledStandsAlone(c, w, e);
      EventInFlight(w, e);
      EventWrites(w, e);
      DispatchSteps.StepOfRow(c, w.db, tx, d);
      if e.RestoreFinding? {
        assert ObjectIssued(w, e.f.key);
        WorldGrows(c, w, e);
      } else {
        EnabledAsk(c, w, e);
        AdmissibleReserves(w.db, next.db.ledger.dispatches[d]);
        if k in w.restored { RestoredIsUsed(w, k); }
        EventIssues(c, w, e);
        TablesKept(c, w.db, tx);
      }
    }
  }

  lemma DispatchIssuedStep(c: Config, w: World, e: Event, d: Id)
    requires Sound(w) && Enabled(c, w, e) && !e.Rollback?
    ensures DispatchIssued(Happens(c, w, e), Happens(c, w, e).db, d)
  {
    hide Happens, Enabled, Sound, DispatchIssued;
    if d in w.db.ledger.dispatches { DispatchStaysIssued(c, w, e, d); } else { DispatchAppearsIssued(c, w, e, d); }
  }

  lemma EnabledStandsAlone(c: Config, w: World, e: Event)
    requires Enabled(c, w, e)
    ensures StandsAlone(e)
  {
    hide Starts, Recovery.Follows, Standalone;
  }

  predicate ConsumesAcked(w: World, e: Event) {
    e.Consume? && e.ticket in w.flights && !w.flights[e.ticket].PageFlight? && w.flights[e.ticket].acked
  }

  lemma EnabledConsume(c: Config, w: World, e: Event)
    requires Enabled(c, w, e) && e.Consume?
    ensures ConsumesAcked(w, e)
  {
    hide Starts, Recovery.Follows;
  }

  predicate EffectIsIssued(w: World, x: Id) {
    x in w.db.guarded.effects ==> Holds(w, EffectKey(x), EffectBody(w.db.guarded.effects[x].bind))
  }

  /** Only a request whose obligation is published is permitted. */
  lemma PermittedIsPublished(c: Config, w: World, e: Event, tx: Tx, x: Id)
    requires Sound(w) && Enabled(c, w, e) && TxOf(w, e) == Some(tx) && StandsAlone(e)
    requires HowOf(tx) == Consumes(x) && x in w.db.guarded.effects
    ensures EffectIsIssued(w, x) || Apply(c, w.db, tx).guarded == w.db.guarded
  {
    hide Apply, Enabled;
    EventWrites(w, e);
    EnabledConsume(c, w, e);
    TablesKept(c, w.db, tx);
    assert FlightIssued(w, w.flights[e.ticket]) && EffectIssued(w, w.db, x);
  }

  lemma IssuedEffectStays(w: World, next: World, how: How, x: Id)
    requires Grows(w, next) && x in w.db.guarded.effects && EffectIssued(w, w.db, x)
    requires EffectSteps.RowStep(w.db, next.db, x, how)
    requires how == Consumes(x) ==> EffectIsIssued(w, x) || next.db.guarded == w.db.guarded
    ensures EffectIssued(next, next.db, x)
  {
    hide EffectSteps.Permissible, EffectSteps.RowAppears;
  }

  lemma EffectStaysIssued(c: Config, w: World, e: Event, x: Id)
    requires Sound(w) && Enabled(c, w, e) && !e.Rollback? && x in w.db.guarded.effects
    ensures EffectIssued(Happens(c, w, e), Happens(c, w, e).db, x)
  {
    hide Happens, Apply, Enabled, EffectSteps.RowStep, DispatchIssued, EffectIssued, ObjectIssued,
      FlightIssued, Grows, EffectIsIssued;
    var next := Happens(c, w, e);
    EventCommits(c, w, e);
    WorldGrows(c, w, e);
    if TxOf(w, e).Some? {
      var tx := TxOf(w, e).value;
      EnabledStandsAlone(c, w, e);
      EventInFlight(w, e);
      EffectSteps.StepOfRow(c, w.db, tx, x);
      if HowOf(tx) == Consumes(x) { PermittedIsPublished(c, w, e, tx, x); }
      IssuedEffectStays(w, next, HowOf(tx), x);
    } else {
      SnapshotStays(w, next, w.db);
    }
  }

  lemma EffectAppearsIssued(c: Config, w: World, e: Event, x: Id)
    requires Sound(w) && Enabled(c, w, e) && !e.Rollback? && x !in w.db.guarded.effects
    ensures EffectIssued(Happens(c, w, e), Happens(c, w, e).db, x)
  {
    hide Happens, Apply, Enabled, EffectSteps.Permissible, EffectSteps.RowMoves, AdmissionClosed;
    var next := Happens(c, w, e);
    EventCommits(c, w, e);
    if TxOf(w, e).Some? && x in next.db.guarded.effects {
      var tx := TxOf(w, e).value;
      EventRestores(c, w, e, EffectKey(x));
      EnabledStandsAlone(c, w, e);
      EventInFlight(w, e);
      EventWrites(w, e);
      EffectSteps.StepOfRow(c, w.db, tx, x);
      if e.RestoreFinding? {
        assert ObjectIssued(w, e.f.key);
        WorldGrows(c, w, e);
      } else {
        EnabledAsk(c, w, e);
        if EffectKey(x) in w.restored { RestoredIsUsed(w, EffectKey(x)); }
        EventIssues(c, w, e);
        TablesKept(c, w.db, tx);
      }
    }
  }

  lemma EffectIssuedStep(c: Config, w: World, e: Event, x: Id)
    requires Sound(w) && Enabled(c, w, e) && !e.Rollback?
    ensures EffectIssued(Happens(c, w, e), Happens(c, w, e).db, x)
  {
    hide Happens, Enabled, Sound, EffectIssued;
    if x in w.db.guarded.effects { EffectStaysIssued(c, w, e, x); } else { EffectAppearsIssued(c, w, e, x); }
  }

  lemma PermitAskedIsBound(c: Config, db: DB, id: Id, tenant: Name, command: Name, req: Effects.EffectRequest,
                           now: Time)
    requires Effects.PermitPrepare(c, db, id, tenant, command, req, now).Ok?
    ensures var p := Effects.PermitPrepare(c, db, id, tenant, command, req, now).value;
            p.proceed ==>
              && p.id in p.db.guarded.effects && p.db.guarded.effects[p.id] == p.effect
              && Mutation(p.id, p.effect, tenant, req).Bound()
  {
    hide Effects.CheckEffect, Effects.LoadContext;
  }

  /** What an event adds to the flights. */
  predicate FlightStep(w: World, next: World, t: Id) {
    t in next.flights ==>
      || (t in w.flights && next.flights[t] == w.flights[t])
      || next.flights[t].PageFlight?
      || (t in w.flights && !w.flights[t].PageFlight? && next.flights[t] == w.flights[t].(acked := true)
          && Holds(next, KeyOf(w.flights[t]), BodyOf(w.flights[t])))
      || (next.flights[t].CallFlight? && !next.flights[t].acked
          && var call := next.flights[t].call;
             call.Bound() && call.id in next.db.ledger.dispatches && next.db.ledger.dispatches[call.id] == call.copy
             && call.copy.state == DispatchPrepared)
      || (next.flights[t].MutationFlight? && !next.flights[t].acked
          && var m := next.flights[t].mutation;
             m.Bound() && m.id in next.db.guarded.effects && next.db.guarded.effects[m.id] == m.copy)
  }

  lemma AskFlights(c: Config, w: World, e: Event, t: Id)
    ensures e.Ask? ==> FlightStep(w, AskStep(c, w, e), t)
    ensures e.AskPermit? ==> FlightStep(w, AskPermitStep(c, w, e), t)
  {
    hide Admission.AdmitPrepare, Effects.PermitPrepare;
    if e.Ask? && Admission.AdmitPrepare(c, w.db, e.id, e.tenant, e.req, e.authority, e.revision, e.now).Ok? {
      DispatchSteps.AskedIsBound(c, w.db, e.id, e.tenant, e.req, e.authority, e.revision, e.now);
    }
    if e.AskPermit? && Effects.PermitPrepare(c, w.db, e.id, e.tenant, e.command, e.mutation, e.now).Ok? {
      PermitAskedIsBound(c, w.db, e.id, e.tenant, e.command, e.mutation, e.now);
    }
  }

  lemma EventFlights(c: Config, w: World, e: Event, t: Id)
    ensures FlightStep(w, Happens(c, w, e), t)
  {
    hide Apply, AskStep, AskPermitStep, Admission.AdmitConsume, Effects.PermitConsume, Recovery.PageOf,
      Recovery.Follows, Starts, RestoreStep, Begins, Standalone;
    if e.Ask? || e.AskPermit? { AskFlights(c, w, e, t); }
  }

  /** What an event adds to the inventory. */
  predicate ObjectStep(w: World, next: World, k: Key) {
    k in next.inventory ==>
      || (k in w.inventory && next.inventory[k] == w.inventory[k])
      || (exists t | t in w.flights ::
          !w.flights[t].PageFlight? && KeyOf(w.flights[t]) == k && next.inventory[k].body == BodyOf(w.flights[t]))
      || (next.inventory[k].body.IntakeBody? && k.category == ClassIntake && k.id in w.db.work.operations
          && next.inventory[k].body.Tenant() == w.db.work.operations[k.id].bind.tenant)
      || (next.inventory[k].body.LaunchBody? && k.category == ClassJobLaunch && k.id in w.db.work.launches)
  }

  lemma EventObjects(c: Config, w: World, e: Event, k: Key)
    ensures ObjectStep(w, Happens(c, w, e), k)
  {
    hide Apply, Admission.AdmitPrepare, Admission.AdmitConsume, Effects.PermitPrepare, Effects.PermitConsume,
      Recovery.PageOf, Recovery.Follows, Starts;
  }

  /** The other fields. */
  ghost predicate RestStep(c: Config, w: World, next: World, e: Event) {
    && (forall i | i in next.issued :: i in w.issued || ((e.Ask? || e.AskPermit?) && i == e.id && i in next.used))
    && (forall r | r in next.begun :: r in w.begun || r in next.used)
    && (next.restorePoint == w.restorePoint || next.restorePoint == Some(w.db) || next.restorePoint == None)
  }

  lemma EventRest(c: Config, w: World, e: Event)
    ensures RestStep(c, w, Happens(c, w, e), e)
  {
    hide Apply, Admission.AdmitPrepare, Admission.AdmitConsume, Effects.PermitPrepare, Effects.PermitConsume,
      Recovery.PageOf, Recovery.Follows, Starts;
  }

  predicate ObjectIssuedAt(w: World, k: Key) { k in w.inventory ==> ObjectIssued(w, k) }

  lemma ObjectIssuedStep(c: Config, w: World, e: Event, k: Key)
    requires Sound(w)
    ensures ObjectIssuedAt(Happens(c, w, e), k)
  {
    hide Happens, Grows;
    var next := Happens(c, w, e);
    EventObjects(c, w, e, k);
    WorldGrows(c, w, e);
    IssuedGrows(w, next);
    if k in next.inventory {
      if k in w.inventory && next.inventory[k] == w.inventory[k] {
        assert ObjectIssued(w, k);
      } else if t :|
          t in w.flights && !w.flights[t].PageFlight? && KeyOf(w.flights[t]) == k
          && next.inventory[k].body == BodyOf(w.flights[t]) {
        assert FlightIssued(w, w.flights[t]);
      }
    }
  }

  lemma IssuedGrows(w: World, next: World)
    requires Grows(w, next)
    ensures forall i | i in w.issued :: i in next.issued && next.issued[i] == w.issued[i]
    ensures forall k | k in w.inventory :: k in next.inventory && next.inventory[k] == w.inventory[k]
    ensures w.used <= next.used
  {
  }

  predicate FlightIssuedAt(w: World, t: Id) { t in w.flights ==> FlightIssued(w, w.flights[t]) }

  lemma FlightIssuedStep(c: Config, w: World, e: Event, t: Id)
    requires Sound(w) && Enabled(c, w, e) && !e.Rollback?
    ensures FlightIssuedAt(Happens(c, w, e), t)
  {
    hide Happens, Enabled, Grows, Sound;
    var next := Happens(c, w, e);
    EventFlights(c, w, e, t);
    SoundFlight(w, t);
    WorldGrows(c, w, e);
    IssuedGrows(w, next);
    if t in next.flights && next.flights[t].CallFlight? { DispatchIssuedStep(c, w, e, next.flights[t].call.id); }
    if t in next.flights && next.flights[t].MutationFlight? { EffectIssuedStep(c, w, e, next.flights[t].mutation.id); }
  }

  lemma SoundFlight(w: World, t: Id)
    requires Sound(w)
    ensures t in w.flights ==> FlightIssued(w, w.flights[t])
    ensures (forall i | i in w.issued :: i in w.used) && (forall r | r in w.begun :: r in w.used)
  {
  }

  /** A rollback keeps what is published, and its rows were issued before it. */
  lemma RollbackSound(c: Config, w: World, e: Event)
    requires Sound(w) && Enabled(c, w, e) && e.Rollback?
    ensures RowsIssued(Happens(c, w, e), Happens(c, w, e).db)
    ensures forall t :: FlightIssuedAt(Happens(c, w, e), t)
  {
    hide Apply, Starts;
    var next := Happens(c, w, e);
    var db := w.restorePoint.value;
    var tx := Recovering(e.begin);
    TablesKept(c, db, tx);
    forall d | d in next.db.ledger.dispatches
      ensures DispatchIssued(next, next.db, d)
    {
      assert DispatchIssued(w, db, d);
    }
    forall x | x in next.db.guarded.effects
      ensures EffectIssued(next, next.db, x)
    {
      assert EffectIssued(w, db, x);
    }
    forall t | t in next.flights
      ensures FlightIssued(next, next.flights[t])
    {
      assert FlightIssued(w, w.flights[t]);
    }
  }

  lemma SnapshotStays(w: World, next: World, db: DB)
    requires Grows(w, next) && RowsIssued(w, db) && Has(w.db, db)
    ensures RowsIssued(next, db)
  {
    forall d | d in db.ledger.dispatches
      ensures DispatchIssued(next, db, d)
    {
      assert DispatchIssued(w, db, d);
    }
    forall e | e in db.guarded.effects
      ensures EffectIssued(next, db, e)
    {
      assert EffectIssued(w, db, e);
    }
  }

  lemma SoundStep(c: Config, w: World, e: Event)
    requires Sound(w)
    ensures Sound(Happens(c, w, e))
  {
    hide Happens, Enabled, DispatchIssued, EffectIssued, ObjectIssued, FlightIssued;
    var next := Happens(c, w, e);
    if Enabled(c, w, e) {
      WorldGrows(c, w, e);
      EventRest(c, w, e);
      if e.Rollback? {
        RollbackSound(c, w, e);
        forall t | t in next.flights
          ensures FlightIssued(next, next.flights[t])
        {
          assert FlightIssuedAt(next, t);
        }
      } else {
        forall d | d in next.db.ledger.dispatches
          ensures DispatchIssued(next, next.db, d)
        {
          DispatchIssuedStep(c, w, e, d);
        }
        forall x | x in next.db.guarded.effects
          ensures EffectIssued(next, next.db, x)
        {
          EffectIssuedStep(c, w, e, x);
        }
        forall t | t in next.flights
          ensures FlightIssued(next, next.flights[t])
        {
          FlightIssuedStep(c, w, e, t);
        }
      }
      forall k | k in next.inventory
        ensures ObjectIssued(next, k)
      {
        ObjectIssuedStep(c, w, e, k);
      }
      forall k | k in next.restored
        ensures k in next.inventory
      {
        RestoredHeld(c, w, e, k);
      }
      PointKept(c, w, e);
      SnapshotStays(w, next, w.db);
      if w.restorePoint.Some? { SnapshotStays(w, next, w.restorePoint.value); }
    } else {
      NothingHappens(c, w, e);
    }
  }

  /** Rows only disappear with a rollback, which also forgets the restore point. */
  lemma PointKept(c: Config, w: World, e: Event)
    requires Sound(w) && Enabled(c, w, e)
    ensures Has(Happens(c, w, e).db, w.db) || e.Rollback?
    ensures e.Rollback? ==> Happens(c, w, e).restorePoint.None?
  {
    hide Happens, Apply, Enabled, DispatchSteps.RowMoves, DispatchSteps.RowAppears, EffectSteps.RowMoves,
      EffectSteps.RowAppears;
    if e.Rollback? {
      RollbackForgets(c, w, e);
    } else {
      EventCommits(c, w, e);
      EnabledStandsAlone(c, w, e);
      if TxOf(w, e).Some? {
        EventInFlight(w, e);
        forall d | d in w.db.ledger.dispatches
          ensures d in Happens(c, w, e).db.ledger.dispatches
        {
          DispatchSteps.StepOfRow(c, w.db, TxOf(w, e).value, d);
        }
        forall x | x in w.db.guarded.effects
          ensures x in Happens(c, w, e).db.guarded.effects
        {
          EffectSteps.StepOfRow(c, w.db, TxOf(w, e).value, x);
        }
      }
    }
  }

  lemma RollbackForgets(c: Config, w: World, e: Event)
    requires Enabled(c, w, e) && e.Rollback?
    ensures Happens(c, w, e).restorePoint.None?
  {
    hide Apply, Starts;
  }

  /** A restored identity was published, and stays so. */
  lemma RestoredHeld(c: Config, w: World, e: Event, k: Key)
    requires Sound(w) && Enabled(c, w, e) && k in Happens(c, w, e).restored
    ensures k in Happens(c, w, e).inventory
  {
    hide Happens, Enabled, Recovery.RowPresent;
    EventRestores(c, w, e, k);
    WorldGrows(c, w, e);
  }

  lemma NothingHappens(c: Config, w: World, e: Event)
    requires !Enabled(c, w, e)
    ensures Happens(c, w, e) == w
  {
    hide Enabled, Perform;
  }

  /** In every history: a dispatch that was authorized and an effect that was permitted
      are in the inventory, exactly as their records say unless the record was restored,
      and every request in flight carries the one body its record was issued. */
  lemma {:induction false} PublishedBeforePermission(c: Config, h: History)
    ensures Sound(WorldAfter(c, h))
  {
    hide Happens, Sound;
    match h
    case Genesis => DawnIsSound();
    case Next(past, e) =>
      PublishedBeforePermission(c, past);
      SoundStep(c, WorldAfter(c, past), e);
  }

  lemma DawnIsSound()
    ensures Sound(Dawn)
  {
  }

  /** The obligation names no argument and no side effect. */
  predicate Plain(b: DispatchBinding) { b.argument.None? && !b.sideEffecting }

  /** The obligation the record makes now is the one it was issued. */
  predicate Rebuilds(w: World, d: Id)
    requires d in w.db.ledger.dispatches
  {
    d in w.issued && w.issued[d] == DispatchBody(w.db.ledger.dispatches[d].bind)
  }

  /** The record makes the obligation it was issued exactly when that says nothing a restored
      record lost. */
  predicate RebuiltAsIssued(w: World, d: Id) {
    d in w.db.ledger.dispatches ==>
      var row := w.db.ledger.dispatches[d];
      && d in w.issued && w.issued[d].DispatchBody?
      && (Rebuilds(w, d) <==> !Returned(w, d, row.bind) || Plain(w.issued[d].dispatch))
      && (Consumed(row.state) ==> Holds(w, DispatchKey(d, row.bind), w.issued[d]))
  }

  /** In every history a record makes the obligation it was issued if and only if it was
      never restored, or the obligation names no argument and no side effect; and what
      was issued is what the inventory holds of a record that may have been acted upon. */
  lemma RebuildsExactly(c: Config, h: History, d: Id)
    ensures RebuiltAsIssued(WorldAfter(c, h), d)
  {
    hide WorldAfter;
    PublishedBeforePermission(c, h);
    if d in WorldAfter(c, h).db.ledger.dispatches {
      assert DispatchIssued(WorldAfter(c, h), WorldAfter(c, h).db, d);
    }
  }

  /** What the inventory holds under the key of a request in flight is its body. */
  predicate PutAccepted(w: World, t: Id) {
    t in w.flights && !w.flights[t].PageFlight? && KeyOf(w.flights[t]) in w.inventory ==>
      w.inventory[KeyOf(w.flights[t])].body == BodyOf(w.flights[t])
  }

  /** So no write of a dispatch or effect obligation ever meets a conflicting body. */
  lemma PutsNeverConflict(c: Config, h: History, t: Id)
    ensures PutAccepted(WorldAfter(c, h), t)
  {
    hide WorldAfter;
    var w := WorldAfter(c, h);
    PublishedBeforePermission(c, h);
    if t in w.flights && !w.flights[t].PageFlight? {
      assert FlightIssued(w, w.flights[t]);
      if KeyOf(w.flights[t]) in w.inventory { assert ObjectIssued(w, KeyOf(w.flights[t])); }
    }
  }
}
