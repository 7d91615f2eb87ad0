/** Everything that interleaves: the database, the immutable inventory, requests and
    listings in flight between their transactions, what callers were told, and one
    rollback of the database. A step is one transaction, one call to the inventory, or
    the loss of either (internal/application/ports.go:20-27,273-293;
    internal/application/dispatch.go:173-328; internal/application/effects.go:149-300;
    internal/application/recovery_enumeration.go:31-160). */
module Worlds {
  import opened Values
  import opened Records
  import opened Database
  import opened Transactions
  import Admission
  import Effects
  import Recovery

  /** What a replica holds between its steps. */
  datatype Flight =
    | CallFlight(call: Call, acked: bool)
    | MutationFlight(mutation: Mutation, acked: bool)
    | PageFlight(r: Id, run: RecoveryRun, category: Class, seen: Option<Id>, page: Option<Recovery.Page>)

  datatype Told = Told(call: CallKey, id: Id)

  datatype World = World(
    db: DB, inventory: map<Key, Object>, flights: map<Id, Flight>, told: seq<Told>,
    issued: map<Id, Body>, used: set<Id>, restored: set<Key>, begun: map<Id, set<Key>>, restorePoint: Option<DB>,
    rolledBack: Option<Id>)

  datatype Event =
    | Commit(tx: Tx)
    | Ask(ticket: Id, id: Id, tenant: Name, req: Admission.Request, authority: Admission.Authority,
          revision: Option<Name>, now: Time)
    | AskPermit(ticket: Id, id: Id, tenant: Name, command: Name, mutation: Effects.EffectRequest, now: Time)
    | Put(ticket: Id, reply: WriteReply, now: Time)
    | Consume(ticket: Id, authority: Admission.Authority, now: Time)
    | Drop(ticket: Id)
    | PutIntake(o: Id, now: Time)
    | PutLaunch(l: Id, now: Time)
    | StartPage(ticket: Id, r: Id, category: Class)
    | ListPage(ticket: Id, following: seq<Id>, limit: nat)
    | CommitListed(ticket: Id)
    | RestoreFinding(f: FindingKey)
    | Begin(begin: RunTx)
    | MarkRestorePoint
    | Rollback(begin: RunTx)

  const Dawn := World(Empty, map[], map[], [], map[], {}, {}, map[], None, None)

  // ---------- steps ----------

  /** Transactions that stand alone: not the ones a request in flight makes, nor what
      reads the inventory. */
  predicate Standalone(tx: Tx) {
    && !(tx.Admitting? && (tx.admission.AdmitPrepare? || tx.admission.AdmitConsume?))
    && !(tx.Permitting? && (tx.effect.PermitPrepare? || tx.effect.PermitConsume?))
    && !(tx.Recovering? && (tx.run.CommitPage? || tx.run.BeginRecovery?))
    && !tx.Restoring?
  }

  function KeyOf(f: Flight): Key
    requires !f.PageFlight?
  {
    match f
    case CallFlight(call, _) => Key(DispatchClass(call.copy.bind.kind), call.id)
    case MutationFlight(m, _) => Key(ClassBusinessWrite, m.id)
  }

  function BodyOf(f: Flight): Body
    requires !f.PageFlight?
  {
    match f
    case CallFlight(call, _) => DispatchBody(call.copy.bind)
    case MutationFlight(m, _) => EffectBody(m.copy.bind)
  }

  function Without(w: World, ticket: Id): World { w.(flights := w.flights - {ticket}) }

  /** The first transaction of a call; a new record is issued its obligation. */
  function AskStep(c: Config, w: World, e: Event): World
    requires e.Ask?
  {
    match Admission.AdmitPrepare(c, w.db, e.id, e.tenant, e.req, e.authority, e.revision, e.now)
    case Err(_) => w
    case Ok(p) =>
      var recorded := e.id in p.db.ledger.dispatches && e.id !in w.db.ledger.dispatches;
      w.(db := p.db,
         issued := if recorded then w.issued[e.id := DispatchBody(p.db.ledger.dispatches[e.id].bind)] else w.issued,
         used := if recorded then w.used + {e.id} else w.used,
         flights := if p.proceed then w.flights[e.ticket := CallFlight(Call(p.id, p.dispatch, e.tenant, e.req), false)]
             else w.flights)
  }

  function AskPermitStep(c: Config, w: World, e: Event): World
    requires e.AskPermit?
  {
    match Effects.PermitPrepare(c, w.db, e.id, e.tenant, e.command, e.mutation, e.now)
    case Err(_) => w
    case Ok(p) =>
      var recorded := e.id in p.db.guarded.effects && e.id !in w.db.guarded.effects;
      w.(db := p.db,
         issued := if recorded then w.issued[e.id := EffectBody(p.db.guarded.effects[e.id].bind)] else w.issued,
         used := if recorded then w.used + {e.id} else w.used,
         flights := if p.proceed then w.flights[e.ticket := MutationFlight(Mutation(p.id, p.effect, e.tenant,
             e.mutation), false)] else w.flights)
  }

  /** A conflicting body or a missing acknowledgement ends the request. */
  function PutStep(w: World, ticket: Id, reply: WriteReply, now: Time): World
    requires ticket in w.flights && !w.flights[ticket].PageFlight?
  {
    var f := w.flights[ticket];
    if !Recovery.Accepts(w.inventory, KeyOf(f), BodyOf(f)) || reply.Unwritten? then Without(w, ticket)
    else
      var written := w.(inventory := Recovery.PutObject(w.inventory, KeyOf(f), BodyOf(f), now));
      if reply.AckLost? then Without(written, ticket) else written.(flights := w.flights[ticket := f.(acked := true)])
  }

  /** The second transaction, after an acknowledged write; only the request whose
      transaction consumed the permission is told so. */
  function ConsumeStep(c: Config, w: World, ticket: Id, authority: Admission.Authority, now: Time): World
    requires ticket in w.flights && !w.flights[ticket].PageFlight?
  {
    match w.flights[ticket]
    case CallFlight(call, _) =>
      (match Admission.AdmitConsume(c, w.db, call.id, call.copy, call.tenant, call.req, authority, now)
       case Err(_) => Without(w, ticket)
       case Ok(p) =>
           Without(w, ticket).(db := p.db, told := if p.allowed then w.told + [Told(call.copy.Call(), call.id)]
                               else w.told))
    case MutationFlight(m, _) =>
      (match Effects.PermitConsume(c, w.db, m.id, m.copy, m.tenant, m.req, now)
       case Err(_) => Without(w, ticket)
       case Ok(p) => Without(w, ticket).(db := p.db))
  }

  /** The position of a class, read before its listing. */
  function StartStep(w: World, ticket: Id, r: Id, category: Class): World {
    if r !in w.db.recovery.runs || ProgressKey(r, category) !in w.db.recovery.progress then w
    else
      var run, p := w.db.recovery.runs[r], w.db.recovery.progress[ProgressKey(r, category)];
      if p.complete || (run.phase != RecoveryFenced && run.phase != RecoveryEnumerating) then w
      else w.(flights := w.flights[ticket := PageFlight(r, run, category, p.cursor, None)])
  }

  /** The body restored is the object the inventory holds. */
  function RestoreStep(c: Config, w: World, f: FindingKey): (next: World)
    requires f.key in w.inventory
    ensures next == w.(db := next.db, restored := next.restored)
  {
    hide Apply;
    var db := Apply(c, w.db, Restoring(f, w.inventory[f.key].body));
    var inserted := Recovery.RowPresent(db, f.key) && !Recovery.RowPresent(w.db, f.key);
    w.(db := db, restored := if inserted then w.restored + {f.key} else w.restored)
  }

  predicate NewRun(w: World, begin: RunTx) {
    begin.BeginRecovery? && begin.r !in w.used && begin.r !in w.db.recovery.runs
  }

  function Begins(c: Config, w: World, db: DB, begin: RunTx): (next: World)
    requires begin.BeginRecovery?
    ensures next == w.(db := next.db, begun := next.begun, used := next.used, restorePoint := None)
  {
    hide Apply;
    w.(db := Apply(c, db, Recovering(begin)), begun := w.begun[begin.r := w.inventory.Keys],
        used := w.used + {begin.r}, restorePoint := None)
  }

  predicate Starts(c: Config, db: DB, begin: RunTx)
    requires begin.BeginRecovery?
  {
    hide Apply;
    begin.r !in db.recovery.runs && begin.r in Apply(c, db, Recovering(begin)).recovery.runs
  }

  /** What may happen next; an event whose condition does not hold changes nothing. */
  predicate Enabled(c: Config, w: World, e: Event) {
    hide Starts;
    match e
    case Commit(tx) => Standalone(tx)
    case Ask(ticket, id, _, _, _, _, _) => ticket !in w.flights && id !in w.used
    case AskPermit(ticket, id, _, _, _, _) => ticket !in w.flights && id !in w.used
    case Put(ticket, _, _) => ticket in w.flights && !w.flights[ticket].PageFlight?
    case Consume(ticket, _, _) => ticket in w.flights && !w.flights[ticket].PageFlight? && w.flights[ticket].acked
    case Drop(ticket) => ticket in w.flights
    case PutIntake(o, _) => o in w.db.work.operations
    case PutLaunch(l, _) => l in w.db.work.launches
    case StartPage(ticket, _, _) => ticket !in w.flights
    case ListPage(ticket, following, _) =>
      ticket in w.flights && w.flights[ticket].PageFlight? && w.flights[ticket].page.None?
      && Recovery.Follows(w.inventory, w.flights[ticket].category, w.flights[ticket].seen, following)
    case CommitListed(ticket) => ticket in w.flights && w.flights[ticket].PageFlight? && w.flights[ticket].page.Some?
    case RestoreFinding(f) => f.key in w.inventory
    case Begin(begin) => NewRun(w, begin) && Starts(c, w.db, begin)
    case MarkRestorePoint => w.rolledBack.None?
    case Rollback(begin) =>
        w.rolledBack.None? && w.restorePoint.Some? && NewRun(w, begin) && Starts(c, w.restorePoint.value, begin)
  }

  function Perform(c: Config, w: World, e: Event): World
    requires Enabled(c, w, e)
  {
    hide Apply, Starts, Recovery.Follows;
    match e
    case Commit(tx) => w.(db := Apply(c, w.db, tx))
    case Ask(_, _, _, _, _, _, _) => AskStep(c, w, e)
    case AskPermit(_, _, _, _, _, _) => AskPermitStep(c, w, e)
    case Put(ticket, reply, now) => PutStep(w, ticket, reply, now)
    case Consume(ticket, authority, now) => ConsumeStep(c, w, ticket, authority, now)
    case Drop(ticket) => Without(w, ticket)
    case PutIntake(o, now) =>
      var op := w.db.work.operations[o];
      var body := IntakeBody(IntakeBinding(op.bind.tenant, op.bind.project, op.bind.kind, op.bind.profile,
                                           op.bind.subject, op.bind.request,
                                           op.bind.createdAt, op.executionEpoch));
      w.(inventory := Recovery.PutObject(w.inventory, Key(ClassIntake, o), body, now))
    case PutLaunch(l, now) =>
      var body := LaunchBody(w.db.work.launches[l].bind);
      w.(inventory := Recovery.PutObject(w.inventory, Key(ClassJobLaunch, l), body, now))
    case StartPage(ticket, r, category) => StartStep(w, ticket, r, category)
    case ListPage(ticket, following, limit) =>
      var f := w.flights[ticket];
      var page := Recovery.PageOf(w.inventory, f.run, f.category, following, limit);
      w.(flights := w.flights[ticket := f.(page := Some(page))])
    case CommitListed(ticket) =>
      var f := w.flights[ticket];
      Without(w, ticket).(db := Apply(c, w.db, Recovering(CommitPage(f.r, f.category, f.seen, f.page.value))))
    case RestoreFinding(f) => RestoreStep(c, w, f)
    case Begin(begin) => Begins(c, w, w.db, begin)
    case MarkRestorePoint => w.(restorePoint := Some(w.db))
    case Rollback(begin) => Begins(c, w, w.restorePoint.value, begin).(rolledBack := Some(begin.r))
  }

  /** An event that cannot happen changes nothing. */
  function Happens(c: Config, w: World, e: Event): World {
    hide Enabled, Perform;
    if Enabled(c, w, e) then Perform(c, w, e) else w
  }

  // ---------- histories ----------

  datatype History = Genesis | Next(past: History, event: Event)

  function WorldAfter(c: Config, h: History): World {
    hide Happens;
    match h
    case Genesis => Dawn
    case Next(past, e) => Happens(c, WorldAfter(c, past), e)
  }
}
