/**
 The policy operations and the login, each request changing the policy rows, the
 session rows and one worker's filter in place.  Every method is proved equal to
 the corresponding step of NoStaleGrants.

 Sources: app/services/policy_service.py, app/core/auth.py.
 */
module PolicyService {
  import opened Common
  import opened Policies
  import opened Revocation
  import opened Sessions
  import N = NoStaleGrants

  /** RowCheck is the row-level check on an insert, which a connection set to another tenant fails. */
  datatype Error = NotFound | Conflict | InvalidAction | RowCheck

  class PolicyTable {
    var rows: N.Table

    constructor ()
      ensures rows == map[]
    {
      rows := map[];
    }
  }

  /** What one worker sees of the state of NoStaleGrants. */
  ghost function View(db: PolicyTable, sessions: SessionTable, manager: TokenRevocationManager): N.State
    reads db, sessions, manager
  {
    N.State(0, db.rows, sessions.rows, [], {}, [manager.bloom])
  }

  /** The revocations of all of a user's sessions, seen as one step. */
  lemma RevokedView(s: N.State, user: string, tenant: string, before: seq<Request>, after: seq<Request>,
                    bloom: Bloom, rows: Sessions.Table)
    requires |s.filters| == 1
    requires var selected := AllOf(s.sessions, user, tenant, None);
             rows == MarkRevoked(s.sessions, selected) && Publishes(before, after, Owed(s.sessions, selected)) &&
             bloom == AddAll(s.filters[0], TokenIds(after[|before|..]))
    ensures N.DoRequest(s, 0, RevokeAll(user, tenant, None)) ==
            s.(sessions := rows, filters := [bloom], revoked := s.revoked + AllOf(s.sessions, user, tenant, None))
  {
    var selected := AllOf(s.sessions, user, tenant, None);
    var sent := after[|before|..];
    SentIds(s.sessions, selected, sent);
    N.AddSetIsAddAll(s.filters[0], TokenIds(sent));
  }

  lemma SentIds(rows: Sessions.Table, selected: set<string>, sent: seq<Request>)
    requires multiset(sent) == multiset(Owed(rows, selected)) && selected <= rows.Keys
    ensures (set x | x in TokenIds(sent)) == selected
  {
    forall x ensures x in TokenIds(sent) <==> x in selected {
      if x in TokenIds(sent) {
        var i :| 0 <= i < |sent| && TokenIds(sent)[i] == x;
        assert sent[i] in multiset(sent);
      }
      if x in selected {
        var r := Request(x, rows[x].user, rows[x].tenant);
        assert r in multiset(sent);
        var i :| 0 <= i < |sent| && sent[i] == r;
        assert TokenIds(sent)[i] == x;
      }
    }
  }

  /** `conn` is the tenant that the connection is set to, here and below. */
  method CreatePolicy(db: PolicyTable, conn: string, key: N.Key, policy: N.Policy) returns (r: Result<(), Error>)
    modifies db
    ensures conn == key.tenant ==> forall s: N.State :: s.policies == old(db.rows) ==>
              N.DoCreate(s, key, policy) == s.(policies := db.rows)
    ensures conn != key.tenant ==> db.rows == old(db.rows)
    ensures r == Err(InvalidAction) <==> !AllKnown(policy.actions)
    ensures r == Err(RowCheck) <==> AllKnown(policy.actions) && conn != key.tenant
    ensures r == Err(Conflict) <==> AllKnown(policy.actions) && conn == key.tenant && key in old(db.rows)
    ensures r != Err(NotFound)
  {
    var actions := N.Validated(policy.actions);
    if actions.None? {
      return Err(InvalidAction);
    }
    if conn != key.tenant {
      return Err(RowCheck);
    }
    if key in db.rows {
      return Err(Conflict);
    }
    db.rows := db.rows[key := policy.(actions := actions.value)];
    return Ok(());
  }

  /** Returns how many sessions were ended. */
  method UpdatePolicy(db: PolicyTable, sessions: SessionTable, manager: TokenRevocationManager,
                      conn: string, key: N.Key, updates: N.Update)
    returns (r: Result<nat, Error>)
    requires manager.redis.Valid()
    modifies db, sessions, manager`bloom, manager`requests, manager.redis
    ensures manager.redis.Valid()
    ensures View(db, sessions, manager) ==
            if conn == key.tenant then N.DoUpdate(old(View(db, sessions, manager)), 0, key, updates).(revoked := {})
            else old(View(db, sessions, manager))
    ensures r.Ok? <==>
            conn == key.tenant && key in old(db.rows) && (updates.actions.Some? ==> AllKnown(updates.actions.value))
    ensures r.Err? ==> manager.requests == old(manager.requests)
    ensures r.Ok? && r.value > 0 ==>
              N.MustRevoke(old(db.rows)[key], updates, db.rows[key]) &&
              r.value == |AllOf(old(sessions.rows), key.user, key.tenant, None)|
  {
    ghost var s, requests := View(db, sessions, manager), manager.requests;
    var actions := None;
    if updates.actions.Some? {
      actions := N.Validated(updates.actions.value);
      if actions.None? {
        return Err(InvalidAction);
      }
    }
    if conn != key.tenant || key !in db.rows {
      return Err(NotFound);
    }
    var existing := db.rows[key];
    var updated := N.Updated(existing, updates, actions);
    db.rows := db.rows[key := updated];
    var ended := 0;
    if N.MustRevoke(existing, updates, updated) {
      ended := RevokeAllSessions(sessions, manager, key.user, key.tenant, None);
      RevokedView(s.(policies := db.rows), key.user, key.tenant, requests, manager.requests, manager.bloom, sessions.rows);
    }
    return Ok(ended);
  }

  method DeletePolicy(db: PolicyTable, sessions: SessionTable, manager: TokenRevocationManager, conn: string,
                      key: N.Key)
    returns (r: Result<nat, Error>)
    requires manager.redis.Valid()
    modifies db, sessions, manager`bloom, manager`requests, manager.redis
    ensures manager.redis.Valid()
    ensures r == Err(NotFound) <==> conn != key.tenant || key !in old(db.rows)
    ensures r.Err? ==> View(db, sessions, manager) == old(View(db, sessions, manager))
    ensures r.Ok? ==>
              db.rows == old(db.rows) - {key} &&
              View(db, sessions, manager) ==
                N.RevokeUser(old(View(db, sessions, manager)).(policies := db.rows), 0, key).(revoked := {}) &&
              r.value == |AllOf(old(sessions.rows), key.user, key.tenant, None)|
  {
    ghost var s, requests := View(db, sessions, manager), manager.requests;
    if conn != key.tenant || key !in db.rows {
      return Err(NotFound);
    }
    db.rows := db.rows - {key};
    var ended := RevokeAllSessions(sessions, manager, key.user, key.tenant, None);
    RevokedView(s.(policies := db.rows), key.user, key.tenant, requests, manager.requests, manager.bloom, sessions.rows);
    return Ok(ended);
  }

  lemma UpsertedMore(rows: N.Table, users: seq<string>, u: string, tenant: string, id: string, policy: N.Policy)
    ensures N.Upserted(rows, users + [u], tenant, id, policy) ==
            N.Upserted(rows, users, tenant, id, policy)[N.Key(tenant, u, id) := policy]
  {}

  /** One upsert for each record, in order, or none at all; a user listed twice is written twice. */
  method BulkAssignPolicy(db: PolicyTable, conn: string, users: seq<string>, tenant: string, id: string, policy: N.Policy)
    returns (r: Result<nat, Error>)
    modifies db
    ensures r == if conn == tenant || users == [] then Ok(|users|) else Err(RowCheck)
    ensures db.rows == if r.Ok? then N.Upserted(old(db.rows), users, tenant, id, policy) else old(db.rows)
    ensures r.Ok? ==> forall u :: u in users ==> N.Key(tenant, u, id) in db.rows && db.rows[N.Key(tenant, u, id)] == policy
    ensures forall k :: k in old(db.rows) && !(k.tenant == tenant && k.policy == id && k.user in users) ==>
              k in db.rows && db.rows[k] == old(db.rows)[k]
    ensures forall k :: k in db.rows ==> k in old(db.rows) || (k.tenant == tenant && k.policy == id && k.user in users)
  {
    ghost var rows := db.rows;
    if conn != tenant && users != [] {
      return Err(RowCheck);
    }
    for n := 0 to |users|
      invariant db.rows == N.Upserted(rows, users[..n], tenant, id, policy)
    {
      assert users[..n + 1] == users[..n] + [users[n]];
      UpsertedMore(rows, users[..n], users[n], tenant, id, policy);
      db.rows := db.rows[N.Key(tenant, users[n], id) := policy];
    }
    assert users[..|users|] == users;
    return Ok(|users|);
  }

  /**
   A login: `known` and `matches` are the outcomes of the lookup by address and of the
   password check, `signed` that of the signer; `order` is the order of the query's rows.
   */
  method Authenticate(db: PolicyTable, sessions: SessionTable, order: seq<string>, user: string, tenant: string,
                      jti: string, now: int, known: bool, matches: bool, signed: bool)
    returns (r: Result<N.Token, LoginError>)
    modifies sessions
    ensures r.Ok? <==> known && matches && signed && LoginCompile(N.RowsOf(db.rows, user, tenant, order)).Ok?
    ensures r == Err(InvalidCredentials) <==> !known || !matches
    ensures r.Err? ==> sessions.rows == old(sessions.rows)
    ensures r.Ok? ==> forall s: N.State :: s.policies == db.rows && s.sessions == old(sessions.rows) && s.clock == now ==>
              N.DoLogin(s, jti, user, tenant, order) == s.(sessions := sessions.rows, tokens := s.tokens + [r.value])
    ensures r.Ok? ==> r.value.jti == jti && r.value.exp == now + 3600
  {
    if !known {
      return Err(InvalidCredentials);
    }
    if !matches {
      return Err(InvalidCredentials);
    }
    var policy := LoginCompile(N.RowsOf(db.rows, user, tenant, order));
    if policy.Err? {
      return Err(InternalError);
    }
    if !signed {
      return Err(InternalError);
    }
    var exp := now + LOGIN_LIFETIME;
    CreateSession(sessions, jti, user, tenant, exp);
    return Ok(N.Token(jti, user, tenant, policy.value, exp));
  }
}
