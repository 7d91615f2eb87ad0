/** Permits of guarded mutations, releases and grants, changed in place
    (internal/application/effects.go, releases.go, grants.go). */
module Guarding {
  import opened Values
  import opened Records
  import opened Database
  import opened Entities
  import opened Tables
  import Effects
  import Grants
  import Releases

  /** What the first transaction of a mutation answers. */
  datatype Answer = Answer(id: Id, effect: Effect, proceed: bool)

  predicate Answered(spec: Result<Effects.PreparedEffect>, r: Result<Answer>, before: DB, after: DB) {
    match spec
    case Ok(p) => r == Ok(Answer(p.id, p.effect, p.proceed)) && after == p.db
    case Err(e) => r == Err(e) && after == before
  }

  predicate Decided(spec: Result<Effects.PermittedEffect>, r: Result<bool>, before: DB, after: DB) {
    match spec
    case Ok(p) => r == Ok(p.permitted) && after == p.db
    case Err(e) => r == Err(e) && after == before
  }

  class Guard {
    const store: Store
    const config: Config

    constructor (s: Store, c: Config)
      ensures store == s && config == c
    {
      store, config := s, c;
    }

    // ---------- effects ----------

    /** The same request finds its own record again. */
    method Reenter(id: Id, tenant: Name, req: Effects.EffectRequest) returns (r: Result<Answer>)
      requires id in store.guarded.effects
      ensures Answered(Effects.Reenter(store.Snapshot(), id, tenant, req), r, store.Snapshot(), store.Snapshot())
    {
      hide Effects.Binds;
      var e := store.guarded.effects[id];
      var bound := Effects.Binds(e, tenant, req);
      if bound.Fail? { return Err(bound.error); }
      return Ok(Answer(id, e, e.state == EffectPrepared));
    }

    /** The first transaction of a mutation: found by its command or its occurrence, or
        recorded prepared or denied (internal/application/effects.go:158-228). */
    method Prepare(id: Id, tenant: Name, command: Name, req: Effects.EffectRequest,
                   now: Time) returns (r: Result<Answer>)
      modifies store
      ensures Answered(Effects.PermitPrepare(config, old(store.Snapshot()), id, tenant, command, req, now), r,
                       old(store.Snapshot()), store.Snapshot())
    {
      hide Effects.LoadContext, Effects.CheckEffect, Effects.Reenter;
      var byCommand := CommandKey(tenant, command);
      var byOccurrence := OccurrenceKey(req.operation, req.kind, req.occurrence);
      if byCommand in store.guarded.effectCommands && store.guarded.effectCommands[byCommand] in store.guarded.effects {
        r := Reenter(store.guarded.effectCommands[byCommand], tenant, req);
        return;
      }
      var ctx := Effects.LoadContext(config, store.Snapshot(), req.operation, req.attempt, tenant, now);
      if ctx.Err? { return Err(ctx.error); }
      if byOccurrence in store.guarded.effectOccurrences
          && store.guarded.effectOccurrences[byOccurrence] in store.guarded.effects {
        var other := store.guarded.effectOccurrences[byOccurrence];
        if store.guarded.effects[other].bind.command != command { return Err(IdempotencyConflict); }
        r := Reenter(other, tenant, req);
        return;
      }
      var e := Effects.NewEffect(req, tenant, command, now);
      var checked := Effects.CheckEffect(req, ctx.value);
      if checked.Fail? {
        if !checked.error.Denied? { return Err(checked.error); }
        e := e.(state := EffectDenied, denial := Some(checked.error.code));
      }
      var inserted := store.InsertEffect(id, e);
      if inserted.Fail? { return Err(inserted.error); }
      return Ok(Answer(id, e, checked.Pass?));
    }

    /** The second transaction, after the obligation was written: the rules run again
        against the persisted binding (internal/application/effects.go:240-286). */
    method Consume(id: Id, copy: Effect, tenant: Name, req: Effects.EffectRequest, now: Time) returns (r: Result<bool>)
      modifies store
      ensures Decided(Effects.PermitConsume(config, old(store.Snapshot()), id, copy, tenant, req, now), r,
                      old(store.Snapshot()), store.Snapshot())
    {
      hide Effects.LoadContext, Effects.CheckEffect, Effects.Binds;
      var ctx := Effects.LoadContext(config, store.Snapshot(), copy.bind.operation, copy.bind.attempt, tenant, now);
      if ctx.Err? { return Err(ctx.error); }
      if id !in store.guarded.effects { return Err(NotFound); }
      var locked := new EffectEntity(store.guarded.effects[id]);
      var bound := Effects.Binds(locked.Row(), tenant, req);
      if bound.Fail? { return Err(bound.error); }
      if locked.state != EffectPrepared { return Ok(false); }
      var checked := Effects.CheckEffect(Effects.RequestOf(locked.Row()), ctx.value);
      if checked.Fail? {
        if !checked.error.Denied? { return Err(checked.error); }
        var _ := locked.Deny(checked.error.code);
      } else {
        var _ := locked.Permit();
      }
      store.UpdateEffect(id, locked.Row());
      return Ok(checked.Pass?);
    }

    /** internal/application/effects.go:288-300. */
    method MarkInventoryUncertain(id: Id) returns (r: Check)
      modifies store
      ensures Committed(Effects.MarkEffectUncertain(old(store.Snapshot()), id), r, old(store.Snapshot()),
                        store.Snapshot())
    {
      if id !in store.guarded.effects { return Fail(NotFound); }
      var locked := new EffectEntity(store.guarded.effects[id]);
      if locked.state != EffectPrepared || locked.inventory != InventoryPending { return Pass; }
      locked.inventory := InventoryUncertain;
      store.UpdateEffect(id, locked.Row());
      return Pass;
    }

    /** A report is applied once (internal/application/effects.go:333-366). */
    method Observe(id: Id, tenant: Name, source: Name, sequence: nat, outcome: EffectOutcome,
                   receipt: Option<OutcomeRef>)
      returns (r: Check)
      modifies store
      ensures Committed(Effects.Observe(old(store.Snapshot()), tenant, id, source, sequence, outcome, receipt), r,
                        old(store.Snapshot()), store.Snapshot())
    {
      hide Effects.ObserveOutcome;
      if id !in store.guarded.effects || store.guarded.effects[id].bind.tenant != tenant
         || store.guarded.effects[id].bind.operation !in store.work.operations
      {
        return Fail(NotFound);
      }
      if (id, source, sequence) in store.guarded.effectReports { return Pass; }
      var locked := new EffectEntity(store.guarded.effects[id]);
      r := locked.Observe(outcome, receipt);
      if r.Fail? { return; }
      store.guarded := store.guarded.(effectReports := store.guarded.effectReports + {(id, source, sequence)});
      store.UpdateEffect(id, locked.Row());
    }

    // ---------- releases ----------

    /** The projection moves by compare-and-set against the ledger rows behind it
        (internal/application/releases.go:42-105). */
    method RecordRelease(o: Id, tenant: Name, facts: ReleaseFacts, expected: nat,
                         cert: Option<Releases.Certified>) returns (r: Check)
      modifies store
      ensures Committed(Releases.Record(old(store.Snapshot()), o, tenant, facts, expected, cert), r,
                        old(store.Snapshot()), store.Snapshot())
    {
      hide Releases.ApplyRelease, Effects.NamedEffects;
      if o !in store.work.operations || store.work.operations[o].bind.tenant != tenant { return Fail(NotFound); }
      var current := if o in store.policy.releases then Some(store.policy.releases[o]) else None;
      var named := Effects.NamedEffects(store.Snapshot(), Effects.NamesOf(facts));
      var next := Releases.ApplyRelease(o, store.work.operations[o], current, facts, expected, cert, named);
      if next.Err? { return Fail(next.error); }
      store.policy := store.policy.(releases := store.policy.releases[o := next.value]);
      return Pass;
    }

    // ---------- grants ----------

    /** internal/application/grants.go:50-117. */
    method RegisterGrant(g: GrantKey, registration: Grants.Registration, now: Time) returns (r: Check)
      modifies store
      ensures Committed(Grants.Register(old(store.Snapshot()), g, registration, now), r, old(store.Snapshot()),
                        store.Snapshot())
    {
      if g.revision == 0 || registration.methods == [] { return Fail(Invalid); }
      var repeated := HasRepeat(registration.methods);
      if repeated || (registration.expiresAt.Some? && now >= registration.expiresAt.value) { return Fail(Invalid); }
      if g in store.policy.grants {
        var found := store.policy.grants[g];
        if found.tenant != registration.tenant { return Fail(NotFound); }
        if !found.registered || found.revocation != RevocationNone { return Fail(Forbidden); }
        if found.policy != Some(registration.policy) { return Fail(IdempotencyConflict); }
        return Pass;
      }
      var policy := GrantPolicy(registration.tenant, Some(registration.policy), Some(registration.server),
                                registration.methods,
                                registration.costCap, registration.expiresAt, true, RevocationNone, 0, 0);
      store.policy := store.policy.(grants := store.policy.grants[g := policy]);
      return Pass;
    }

    method HasRepeat(methods: seq<Name>) returns (repeated: bool)
      ensures repeated <==> exists i, j | 0 <= i < j < |methods| :: methods[i] == methods[j]
    {
      var seen: set<Name> := {};
      for i := 0 to |methods|
        invariant forall x :: x in seen <==> exists j | 0 <= j < i :: methods[j] == x
        invariant forall j, k | 0 <= j < k < i :: methods[j] != methods[k]
      {
        if methods[i] in seen { return true; }
        seen := seen + {methods[i]};
      }
      return false;
    }

    /** The fence counts the senders it waits for; a revision never registered becomes a
        converged tombstone (internal/application/grants.go:126-173). */
    method BeginRevocation(g: GrantKey, tenant: Name) returns (r: Check)
      modifies store
      ensures Committed(Grants.BeginRevocation(old(store.Snapshot()), g, tenant), r, old(store.Snapshot()),
                        store.Snapshot())
    {
      hide Grants.InState;
      var policy := GrantPolicy(tenant, None, None, [], None, None, false, RevocationConverged, 0, 0);
      if g in store.policy.grants {
        policy := store.policy.grants[g];
        if policy.tenant != tenant { return Fail(NotFound); }
        if policy.revocation != RevocationNone { return Pass; }
        policy := policy.(revocation := RevocationFenced,
                          inFlight := |Grants.InState(store.Snapshot(), g, DispatchAuthorized)|,
                          unknown := |Grants.InState(store.Snapshot(), g, DispatchUnknown)|);
      }
      store.policy := store.policy.(grants := store.policy.grants[g := policy]);
      return Pass;
    }

    /** internal/application/grants.go:180-207. */
    method Revocation(g: GrantKey) returns (r: Check)
      modifies store
      ensures Committed(Grants.Revocation(old(store.Snapshot()), g), r, old(store.Snapshot()), store.Snapshot())
    {
      hide Grants.InState;
      if g !in store.policy.grants || store.policy.grants[g].revocation == RevocationNone { return Fail(NotFound); }
      var policy := store.policy.grants[g];
      if policy.revocation == RevocationConverged { return Pass; }
      policy := policy.(inFlight := |Grants.InState(store.Snapshot(), g, DispatchAuthorized)|,
                        unknown := |Grants.InState(store.Snapshot(), g, DispatchUnknown)|);
      var converged := policy.inFlight == 0 && policy.unknown == 0;
      store.policy := store.policy.(grants := store.policy.grants[
        g := policy.(revocation := if converged then RevocationConverged else RevocationConverging)]);
      return Pass;
    }
  }
}
