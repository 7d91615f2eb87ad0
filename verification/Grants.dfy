/** Registration of grant revisions and the revocation barrier
    (internal/application/grants.go). */
module Grants {
  import opened Values
  import opened Budget
  import opened Records
  import opened Database

  /** What a registration names; the policy digest stands for the whole policy. */
  datatype Registration = Registration(tenant: Name, policy: Name, server: Name, methods: seq<Name>,
                                       costCap: Option<Money>, expiresAt: Option<Time>)

  /** internal/application/grants.go:50-117. */
  function Register(db: DB, g: GrantKey, r: Registration, now: Time): (out: Result<DB>)
    ensures out.Ok? ==> out.value == db.(policy := out.value.policy)
  {
    if g.revision == 0 || r.methods == [] || (exists i, j | 0 <= i < j < |r.methods| ::
        r.methods[i] == r.methods[j]) then Err(Invalid)
    else if r.expiresAt.Some? && now >= r.expiresAt.value then Err(Invalid)
    else if g in db.policy.grants then
      var p := db.policy.grants[g];
      if p.tenant != r.tenant then Err(NotFound)
      else if !p.registered || p.revocation != RevocationNone then Err(Forbidden)
      else if p.policy != Some(r.policy) then Err(IdempotencyConflict)
      else Ok(db)
    else
      Ok(db.(policy := db.policy.(grants := db.policy.grants[g := GrantPolicy(r.tenant, Some(r.policy), Some(r.server),
          r.methods, r.costCap, r.expiresAt, true, RevocationNone, 0, 0)])))
  }

  /** The senders a barrier waits for, by state
      (internal/adapters/postgres/queries/dispatch.sql:130-133). */
  function InState(db: DB, g: GrantKey, s: DispatchState): set<Id> {
    set d | d in db.ledger.dispatches && db.ledger.dispatches[d].bind.grant == Some(g)
        && db.ledger.dispatches[d].state == s
  }

  /** internal/application/grants.go:126-173: a revision never registered becomes a
      converged tombstone. */
  function BeginRevocation(db: DB, g: GrantKey, tenant: Name): (out: Result<DB>)
    ensures out.Ok? ==> out.value == db.(policy := out.value.policy)
  {
    if g !in db.policy.grants then
      Ok(db.(policy := db.policy.(grants := db.policy.grants[g := GrantPolicy(tenant, None, None, [], None, None,
          false, RevocationConverged, 0, 0)])))
    else
      var p := db.policy.grants[g];
      if p.tenant != tenant then Err(NotFound)
      else if p.revocation != RevocationNone then Ok(db)
      else
        Ok(db.(policy := db.policy.(grants := db.policy.grants[g := p.(revocation := RevocationFenced,
                                           inFlight := |InState(db, g, DispatchAuthorized)|,
                                           unknown := |InState(db, g, DispatchUnknown)|)])))
  }

  /** internal/application/grants.go:180-207. */
  function Revocation(db: DB, g: GrantKey): (out: Result<DB>)
    ensures out.Ok? ==> out.value == db.(policy := out.value.policy)
  {
    if g !in db.policy.grants || db.policy.grants[g].revocation == RevocationNone then Err(NotFound)
    else
      var p := db.policy.grants[g];
      if p.revocation == RevocationConverged then Ok(db)
      else
        var inFlight, unknown := |InState(db, g, DispatchAuthorized)|, |InState(db, g, DispatchUnknown)|;
        Ok(db.(policy := db.policy.(grants := db.policy.grants[g := p.(revocation := if inFlight == 0 && unknown == 0
            then RevocationConverged else RevocationConverging,
                                           inFlight := inFlight, unknown := unknown)])))
  }
}
