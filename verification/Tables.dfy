/** The database as its transactions change it: the row writes they make, and what one
    that fails leaves (internal/application/ports.go:20-27). */
module Tables {
  import opened Values
  import opened Budget
  import opened Records
  import opened Database
  import Admission
  import Effects

  class Store {
    var work: Work
    var control: Control
    var ledger: Ledger
    var money: Treasury
    var guarded: Guarded
    var policy: Policy
    var recovery: Recoveries

    constructor ()
      ensures Snapshot() == Empty
    {
      work, control, ledger, money, guarded, policy, recovery :=
        Empty.work, Empty.control, Empty.ledger, Empty.money, Empty.guarded, Empty.policy, Empty.recovery;
    }

    /** The tables as one value. */
    function Snapshot(): DB
      reads this
    {
      DB(work, control, ledger, money, guarded, policy, recovery)
    }

    /** A transaction that answers an error is rolled back. */
    method Rollback(db: DB)
      modifies this
      ensures Snapshot() == db
    {
      work, control, ledger, money, guarded, policy, recovery :=
        db.work, db.control, db.ledger, db.money, db.guarded, db.policy, db.recovery;
    }

    method UpdateOperation(o: Id, op: Operation)
      modifies `work
      ensures Snapshot() == PutOperation(old(Snapshot()), o, op)
    {
      work := work.(operations := work.operations[o := op]);
    }

    method UpdateAttempt(a: Id, at: Attempt)
      modifies `work
      ensures Snapshot() == old(Snapshot()).(work := old(work).(attempts := old(work).attempts[a := at]))
    {
      work := work.(attempts := work.attempts[a := at]);
    }

    /** The unique index of dispatches refuses a second record of a call. */
    method InsertDispatch(id: Id, d: Dispatch) returns (r: Check)
      modifies `ledger
      ensures Committed(Admission.InsertDispatch(old(Snapshot()), id, d), r, old(Snapshot()), Snapshot())
    {
      if id in ledger.dispatches || d.Call() in ledger.calls { return Fail(DuplicateKey); }
      ledger := ledger.(dispatches := ledger.dispatches[id := d], calls := ledger.calls[d.Call() := id]);
      return Pass;
    }

    method UpdateDispatch(id: Id, d: Dispatch)
      modifies `ledger
      ensures Snapshot() == Admission.UpdateDispatch(old(Snapshot()), id, d)
    {
      ledger := ledger.(dispatches := ledger.dispatches[id := d]);
    }

    /** Two unique indexes refuse a second record of a command or an occurrence. */
    method InsertEffect(id: Id, e: Effect) returns (r: Check)
      modifies `guarded
      ensures Committed(Effects.InsertEffect(old(Snapshot()), id, e), r, old(Snapshot()), Snapshot())
    {
      if id in guarded.effects || Effects.CommandOf(e.bind) in guarded.effectCommands
         || Effects.OccurrenceOf(e.bind) in guarded.effectOccurrences
      {
        return Fail(DuplicateKey);
      }
      guarded := guarded.(effects := guarded.effects[id := e],
                          effectCommands := guarded.effectCommands[Effects.CommandOf(e.bind) := id],
                          effectOccurrences := guarded.effectOccurrences[Effects.OccurrenceOf(e.bind) := id]);
      return Pass;
    }

    method UpdateEffect(id: Id, e: Effect)
      modifies `guarded
      ensures Snapshot() == Effects.UpdateEffect(old(Snapshot()), id, e)
    {
      guarded := guarded.(effects := guarded.effects[id := e]);
    }
  }

  /** A transaction committed what the specification says, or changed nothing. */
  predicate Committed(spec: Result<DB>, r: Check, before: DB, after: DB) {
    match spec
    case Ok(next) => r == Pass && after == next
    case Err(e) => r == Fail(e) && after == before
  }
}
