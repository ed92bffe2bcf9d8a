/**
 Permissions embedded in login tokens against the policy rows they were compiled
 from: logins, policy changes and session revocations on any number of workers.

 Sources: app/core/auth.py, app/services/policy_service.py,
 app/services/session_service.py, app/main.py.  Requests are atomic.  An event
 that is not enabled leaves the state unchanged.
 */
module NoStaleGrants {
  import opened Common
  import opened Bits
  import opened Policies
  import opened Revocation
  import Sessions

  datatype Key = Key(tenant: string, user: string, policy: string)

  datatype Policy = Policy(resource: string, actions: seq<string>, validUntil: Option<int>)

  type Table = map<Key, Policy>

  datatype Token = Token(jti: string, user: string, tenant: string, policy: map<string, nat>, exp: int)

  /** `revoked` is every token id handed to some manager; each worker has its own filter. */
  datatype State = State(clock: int, policies: Table, sessions: Sessions.Table, tokens: seq<Token>,
                         revoked: set<string>, filters: seq<Bloom>)

  /** The fields a policy update may carry. */
  datatype Update = Update(resource: Option<string>, actions: Option<seq<string>>, validUntil: Option<Option<int>>)

  datatype Event =
    | Tick(seconds: nat)
    | Login(jti: string, user: string, tenant: string, order: seq<string>)
    | CreatePolicy(key: Key, policy: Policy)
    | UpdatePolicy(worker: nat, key: Key, updates: Update)
    | DeletePolicy(worker: nat, key: Key)
    | BulkAssign(users: seq<string>, tenant: string, id: string, policy: Policy)
    | SessionRequest(worker: nat, request: Sessions.Event)
    | Sync(worker: nat, jti: string)

  function Start(clock: int, filters: seq<Bloom>): State {
    State(clock, map[], map[], [], {}, filters)
  }

  /*** Requests ***/

  /** The request models accept known actions only, and lower-case them. */
  function Validated(actions: seq<string>): Option<seq<string>> {
    if AllKnown(actions) then Some(seq(|actions|, i requires 0 <= i < |actions| => Lower(actions[i]))) else None
  }

  /** list(set(actions)); the order does not matter to the masks. */
  function Dedup(actions: seq<string>): seq<string> {
    if actions == [] then []
    else
      var init, last := Dedup(actions[..|actions| - 1]), actions[|actions| - 1];
      if last in init then init else init + [last]
  }

  predicate Valid(p: Policy, clock: int) {
    p.validUntil.Some? ==> clock <= p.validUntil.value
  }

  /** The ids are those of the user's policies that are valid now, in some order. */
  ghost predicate CurrentIds(s: State, user: string, tenant: string, order: seq<string>) {
    (forall i, j :: 0 <= i < j < |order| ==> order[i] != order[j]) &&
    (forall id :: id in order <==>
      Key(tenant, user, id) in s.policies && Valid(s.policies[Key(tenant, user, id)], s.clock))
  }

  function RowsOf(policies: Table, user: string, tenant: string, order: seq<string>): seq<Row> {
    seq(|order|, i requires 0 <= i < |order| =>
      var key := Key(tenant, user, order[i]);
      if key in policies then Parsed(Some(policies[key].resource), Some(policies[key].actions)) else Unparsable)
  }

  function DoLogin(s: State, jti: string, user: string, tenant: string, order: seq<string>): State {
    match LoginCompile(RowsOf(s.policies, user, tenant, order))
    case Err(_) => s
    case Ok(policy) =>
      var exp := s.clock + LOGIN_LIFETIME;
      s.(tokens := s.tokens + [Token(jti, user, tenant, policy, exp)],
         sessions := Sessions.Inserted(s.sessions, jti, user, tenant, exp))
  }

  /** A session request on one worker: its revocations reach that worker's filter at once. */
  function DoRequest(s: State, w: nat, request: Sessions.Event): State
    requires w < |s.filters|
  {
    var selected := Sessions.Selected(s.sessions, request);
    s.(sessions := Sessions.Step(Sessions.State(s.sessions, multiset{}), request).rows,
       revoked := s.revoked + selected,
       filters := s.filters[w := AddSet(s.filters[w], selected)])
  }

  function AddSet(bloom: Bloom, items: set<string>): Bloom {
    bloom.(bits := bloom.bits + set item, b | item in items && b in bloom.hash(item) :: b)
  }

  function RevokeUser(s: State, w: nat, key: Key): State
    requires w < |s.filters|
  {
    DoRequest(s, w, Sessions.RevokeAll(key.user, key.tenant, None))
  }

  function Updated(p: Policy, updates: Update, actions: Option<seq<string>>): Policy {
    Policy(if updates.resource.Some? then updates.resource.value else p.resource,
           Dedup(if actions.Some? then actions.value else p.actions),
           if updates.validUntil.Some? then updates.validUntil.value else p.validUntil)
  }

  /** An update that does not repeat the resource, or drops an action, ends the user's sessions. */
  predicate MustRevoke(p: Policy, updates: Update, updated: Policy) {
    updates.resource != Some(p.resource) || exists a :: a in p.actions && a !in updated.actions
  }

  function DoUpdate(s: State, w: nat, key: Key, updates: Update): State
    requires w < |s.filters|
  {
    var actions := if updates.actions.Some? then Validated(updates.actions.value) else None;
    if key !in s.policies || (updates.actions.Some? && actions.None?) then s
    else
      var p := s.policies[key];
      var updated := Updated(p, updates, actions);
      var t := s.(policies := s.policies[key := updated]);
      if MustRevoke(p, updates, updated) then RevokeUser(t, w, key) else t
  }

  function DoCreate(s: State, key: Key, policy: Policy): State {
    match Validated(policy.actions)
    case None => s
    case Some(actions) =>
      if key in s.policies then s else s.(policies := s.policies[key := policy.(actions := actions)])
  }

  /** Writes the row for every listed user, without validation and without ending sessions. */
  function Upserted(policies: Table, users: seq<string>, tenant: string, id: string, policy: Policy): Table {
    policies + map u | u in users :: Key(tenant, u, id) := policy
  }

  ghost function Step(s: State, e: Event): State {
    match e
    case Tick(d) => s.(clock := s.clock + d)
    case Login(jti, user, tenant, order) =>
      if CurrentIds(s, user, tenant, order) then DoLogin(s, jti, user, tenant, order) else s
    case CreatePolicy(key, policy) => DoCreate(s, key, policy)
    case UpdatePolicy(w, key, updates) => if w < |s.filters| then DoUpdate(s, w, key, updates) else s
    case DeletePolicy(w, key) =>
      if w < |s.filters| && key in s.policies then RevokeUser(s.(policies := s.policies - {key}), w, key) else s
    case BulkAssign(users, tenant, id, policy) =>
      s.(policies := Upserted(s.policies, users, tenant, id, policy))
    case SessionRequest(w, request) =>
      if w < |s.filters| && !request.Create? && (request.Cleanup? ==> request.now == s.clock)
      then DoRequest(s, w, request) else s
    case Sync(w, jti) =>
      if w < |s.filters| && jti in s.revoked then s.(filters := s.filters[w := s.filters[w].Add(jti)]) else s
  }

  ghost function Run(s: State, events: seq<Event>): State
    decreases |events|
  {
    if events == [] then s else Run(Step(s, events[0]), events[1..])
  }

  /*** What the rows list, and what a token embeds ***/

  /** The row lists the action on the resource and, when a time is given, is valid then. */
  predicate RowGrants(policies: Table, key: Key, resource: string, i: nat, at: Option<int>) {
    key in policies && policies[key].resource == resource && Lists(policies[key].actions, i) &&
    (at.Some? ==> Valid(policies[key], at.value))
  }

  /** Some policy row of the user grants the action, whatever its validity or at the given time. */
  ghost predicate Granted(policies: Table, user: string, tenant: string, resource: string, i: nat, at: Option<int>) {
    exists id :: RowGrants(policies, Key(tenant, user, id), resource, i, at)
  }

  /** The token embeds only what the user's rows grant. */
  ghost predicate Fits(policies: Table, t: Token, at: Option<int>) {
    forall resource, i: nat :: resource in t.policy && Bit(t.policy[resource], i) ==>
      Granted(policies, t.user, t.tenant, resource, i, at)
  }

  /** What is asked of a token: rows whatever their validity, or rows valid up to its last second. */
  function Horizon(t: Token, lasting: bool): Option<int> {
    if lasting then Some(t.exp - 1) else None
  }

  ghost predicate NoStale(policies: Table, tokens: seq<Token>, lasting: bool) {
    forall k :: 0 <= k < |tokens| ==> Fits(policies, tokens[k], Horizon(tokens[k], lasting))
  }

  /** No pair that the user's rows grant is lost. */
  ghost predicate Keeps(before: Table, after: Table, user: string, tenant: string, at: Option<int>) {
    forall resource, i: nat :: Granted(before, user, tenant, resource, i, at) ==>
      Granted(after, user, tenant, resource, i, at)
  }

  ghost predicate KeepsAll(before: Table, after: Table, lasting: bool) {
    forall user, tenant, at: Option<int> :: at.Some? == lasting ==> Keeps(before, after, user, tenant, at)
  }

  lemma FitsLater(before: Table, after: Table, t: Token, at: Option<int>)
    requires Fits(before, t, at) && Keeps(before, after, t.user, t.tenant, at)
    ensures Fits(after, t, at)
  {}

  /** What is granted at a time is granted before it, and listed. */
  lemma FitsEarlier(policies: Table, t: Token, at: int, earlier: int)
    requires Fits(policies, t, Some(at)) && earlier <= at
    ensures Fits(policies, t, Some(earlier)) && Fits(policies, t, None)
  {}

  /**
   With the rows unchanged, a token stays within the rows valid at each moment of its
   life exactly when it is within those valid at its last.
   */
  lemma StaysWithinValidRowsIff(policies: Table, t: Token, now: int)
    requires now < t.exp
    ensures (forall at :: now <= at < t.exp ==> Fits(policies, t, Some(at))) <==> Fits(policies, t, Some(t.exp - 1))
  {
    if Fits(policies, t, Some(t.exp - 1)) {
      forall at | now <= at < t.exp ensures Fits(policies, t, Some(at)) { FitsEarlier(policies, t, t.exp - 1, at); }
    }
  }

  /** A new row takes nothing away. */
  lemma NewRowKeeps(before: Table, key: Key, policy: Policy, lasting: bool)
    requires key !in before
    ensures KeepsAll(before, before[key := policy], lasting)
  {}

  /*** Overwriting rows ***/

  predicate Outlasts(p: Policy, old_: Policy) {
    p.validUntil.Some? ==> old_.validUntil.Some? && old_.validUntil.value <= p.validUntil.value
  }

  /** The row does for the action what the old one did. */
  predicate Replaces(p: Policy, old_: Policy, i: nat, lasting: bool) {
    p.resource == old_.resource && Lists(p.actions, i) && (lasting ==> Outlasts(p, old_))
  }

  /** Another row of the same user does. */
  predicate OtherRow(policies: Table, key: Key, id: string, i: nat, lasting: bool)
    requires key in policies
  {
    id != key.policy && Key(key.tenant, key.user, id) in policies &&
    Replaces(policies[Key(key.tenant, key.user, id)], policies[key], i, lasting)
  }

  ghost predicate Covered(policies: Table, key: Key, policy: Policy, i: nat, lasting: bool)
    requires key in policies
  {
    Replaces(policy, policies[key], i, lasting) || exists id :: OtherRow(policies, key, id, i, lasting)
  }

  /**
   The guard of a write over rows: every action an overwritten row lists is also listed,
   on the same resource, by the new policy or by another row of that user; for lasting
   grants, by one that is valid as long.
   */
  ghost predicate CoveredWrite(policies: Table, users: seq<string>, tenant: string, id: string, policy: Policy,
                               lasting: bool) {
    forall u, i: nat :: u in users && Key(tenant, u, id) in policies && Lists(policies[Key(tenant, u, id)].actions, i) ==>
      Covered(policies, Key(tenant, u, id), policy, i, lasting)
  }

  /** A time after every validity of the table. */
  lemma AfterAll(policies: Table) returns (m: int)
    ensures forall k :: k in policies && policies[k].validUntil.Some? ==> policies[k].validUntil.value < m
  {
    m := 0;
    var rest := policies.Keys;
    while rest != {}
      invariant rest <= policies.Keys
      invariant forall k :: k in policies && k !in rest && policies[k].validUntil.Some? ==> policies[k].validUntil.value < m
      decreases |rest|
    {
      var k :| k in rest;
      if policies[k].validUntil.Some? && m <= policies[k].validUntil.value { m := policies[k].validUntil.value + 1; }
      rest := rest - {k};
    }
  }

  lemma CoveredWriteKeeps(policies: Table, users: seq<string>, tenant: string, id: string, policy: Policy, lasting: bool)
    requires CoveredWrite(policies, users, tenant, id, policy, lasting)
    ensures KeepsAll(policies, Upserted(policies, users, tenant, id, policy), lasting)
  {
    var after := Upserted(policies, users, tenant, id, policy);
    forall user, tenant', resource, i: nat, at: Option<int>
      | at.Some? == lasting && Granted(policies, user, tenant', resource, i, at)
      ensures Granted(after, user, tenant', resource, i, at)
    {
      var pid :| RowGrants(policies, Key(tenant', user, pid), resource, i, at);
      var key := Key(tenant', user, pid);
      if tenant' == tenant && pid == id && user in users {
        assert Covered(policies, key, policy, i, lasting);
        if Replaces(policy, policies[key], i, lasting) {
          assert RowGrants(after, key, resource, i, at);
        } else {
          var other :| OtherRow(policies, key, other, i, lasting);
          assert RowGrants(after, Key(tenant, user, other), resource, i, at);
        }
      } else {
        assert RowGrants(after, key, resource, i, at);
      }
    }
  }

  lemma KeptWriteIsCovered(policies: Table, users: seq<string>, tenant: string, id: string, policy: Policy,
                           lasting: bool, u: string, i: nat)
    requires KeepsAll(policies, Upserted(policies, users, tenant, id, policy), lasting)
    requires u in users && Key(tenant, u, id) in policies && Lists(policies[Key(tenant, u, id)].actions, i)
    ensures Covered(policies, Key(tenant, u, id), policy, i, lasting)
  {
    var after, key := Upserted(policies, users, tenant, id, policy), Key(tenant, u, id);
    var old_ := policies[key];
    var m := AfterAll(after);
    var at := if !lasting then None else if old_.validUntil.Some? then old_.validUntil else Some(m);
    assert RowGrants(policies, key, old_.resource, i, at);
    assert Granted(policies, u, tenant, old_.resource, i, at);
    assert Keeps(policies, after, u, tenant, at);
    assert Granted(after, u, tenant, old_.resource, i, at);
    var pid :| RowGrants(after, Key(tenant, u, pid), old_.resource, i, at);
    if pid == id {
      assert after[key] == policy;
    } else {
      assert OtherRow(policies, key, pid, i, lasting);
    }
  }

  /** The guard is exact: the write loses no user a pair, or a moment of one, exactly when the rows it overwrites are covered. */
  lemma BulkKeepsIff(policies: Table, users: seq<string>, tenant: string, id: string, policy: Policy, lasting: bool)
    ensures KeepsAll(policies, Upserted(policies, users, tenant, id, policy), lasting) <==>
            CoveredWrite(policies, users, tenant, id, policy, lasting)
  {
    if CoveredWrite(policies, users, tenant, id, policy, lasting) {
      CoveredWriteKeeps(policies, users, tenant, id, policy, lasting);
    }
    if KeepsAll(policies, Upserted(policies, users, tenant, id, policy), lasting) {
      forall u, i: nat | u in users && Key(tenant, u, id) in policies && Lists(policies[Key(tenant, u, id)].actions, i)
        ensures Covered(policies, Key(tenant, u, id), policy, i, lasting)
      {
        KeptWriteIsCovered(policies, users, tenant, id, policy, lasting, u, i);
      }
    }
  }

  /*** Action lists ***/

  lemma {:induction false} DedupSame(actions: seq<string>)
    ensures forall a :: a in Dedup(actions) <==> a in actions
    ensures forall i, j :: 0 <= i < j < |Dedup(actions)| ==> Dedup(actions)[i] != Dedup(actions)[j]
  {
    if actions != [] {
      DedupSame(actions[..|actions| - 1]);
      assert actions == actions[..|actions| - 1] + [actions[|actions| - 1]];
    }
  }

  /** The list names only actions the other one names. */
  lemma ListsSubset(a: seq<string>, b: seq<string>, i: nat)
    requires Lists(a, i) && forall x :: x in a ==> x in b
    ensures Lists(b, i)
  {
    var k :| 0 <= k < |a| && ActionIndex(a[k]) == Some(i);
    assert a[k] in b;
    var j :| 0 <= j < |b| && b[j] == a[k];
  }

  /** Different lower-case names are different flags. */
  lemma LowerCaseDistinct(actions: seq<string>)
    requires forall a :: a in actions ==> Lower(a) == a
    requires forall i, j :: 0 <= i < j < |actions| ==> actions[i] != actions[j]
    ensures Distinct(actions)
  {}

  /** Dropping repeated strings from a list without repeated flags keeps it so. */
  lemma DedupDistinct(actions: seq<string>)
    requires Distinct(actions)
    ensures Distinct(Dedup(actions))
  {
    var d := Dedup(actions);
    DedupSame(actions);
    forall j, k | 0 <= j < k < |d| && ActionIndex(d[j]).Some? ensures ActionIndex(d[j]) != ActionIndex(d[k]) {
      assert d[j] in actions && d[k] in actions;
      var m :| 0 <= m < |actions| && actions[m] == d[j];
      var n :| 0 <= n < |actions| && actions[n] == d[k];
    }
  }

  lemma ValidatedIsLower(actions: seq<string>)
    requires Validated(actions).Some?
    ensures forall a :: a in Validated(actions).value ==> Lower(a) == a
    ensures forall i :: 0 <= i < |actions| ==> ActionIndex(Validated(actions).value[i]) == ActionIndex(actions[i])
  {}

  /** Validated lists name each flag once as soon as they repeat no string. */
  lemma ValidatedDistinct(actions: seq<string>)
    requires Validated(actions).Some?
    ensures Distinct(Dedup(Validated(actions).value))
    ensures Distinct(actions) ==> Distinct(Validated(actions).value)
  {
    var lowered := Validated(actions).value;
    ValidatedIsLower(actions);
    DedupSame(lowered);
    LowerCaseDistinct(Dedup(lowered));
  }

  /*** The invariant ***/

  ghost predicate DistinctTable(policies: Table) {
    forall key :: key in policies ==> Distinct(policies[key].actions)
  }

  /** An unexpired token has its session row, which is unrevoked unless the token id was revoked. */
  ghost predicate HasSession(s: State, t: Token) {
    t.jti in s.sessions &&
    var row := s.sessions[t.jti];
    row.user == t.user && row.tenant == t.tenant && row.expires == t.exp && (row.revoked ==> t.jti in s.revoked)
  }

  ghost predicate TokenInv(s: State, t: Token, lasting: bool) {
    s.clock < t.exp ==> HasSession(s, t) && (t.jti in s.revoked || Fits(s.policies, t, Horizon(t, lasting)))
  }

  ghost predicate TokensInv(s: State, lasting: bool) {
    forall k :: 0 <= k < |s.tokens| ==> TokenInv(s, s.tokens[k], lasting)
  }

  ghost predicate Inv(s: State, lasting: bool) {
    DistinctTable(s.policies) && TokensInv(s, lasting)
  }

  /** Every pair the login would embed is granted by a row that is valid to the end of the token. */
  ghost predicate LoginLasts(s: State, user: string, tenant: string, order: seq<string>) {
    var compiled := LoginCompile(RowsOf(s.policies, user, tenant, order));
    compiled.Ok? ==>
      var t := Token("", user, tenant, compiled.value, s.clock + LOGIN_LIFETIME);
      Fits(s.policies, t, Horizon(t, true))
  }

  /** An update that ends no sessions shortens nothing that no other row covers. */
  ghost predicate UpdateLasts(s: State, key: Key, updates: Update) {
    var actions := if updates.actions.Some? then Validated(updates.actions.value) else None;
    key in s.policies && (updates.actions.Some? ==> actions.Some?) ==>
      var updated := Updated(s.policies[key], updates, actions);
      MustRevoke(s.policies[key], updates, updated) ||
      CoveredWrite(s.policies, [key.user], key.tenant, key.policy, updated, true)
  }

  /**
   What a run is asked to respect: token ids are new, created and bulk-assigned
   action lists do not repeat an action, and a bulk assignment covers what it
   overwrites.  For lasting grants, logins and updates must also respect validity.
   */
  ghost predicate Respects(s: State, e: Event, lasting: bool) {
    match e
    case Login(jti, user, tenant, order) => jti !in s.sessions && (lasting ==> LoginLasts(s, user, tenant, order))
    case CreatePolicy(_, policy) => Distinct(policy.actions)
    case UpdatePolicy(_, key, updates) => lasting ==> UpdateLasts(s, key, updates)
    case BulkAssign(users, tenant, id, policy) =>
      Distinct(policy.actions) && CoveredWrite(s.policies, users, tenant, id, policy, lasting)
    case _ => true
  }

  ghost predicate RespectsAll(s: State, events: seq<Event>, lasting: bool)
    decreases |events|
  {
    events == [] || (Respects(s, events[0], lasting) && RespectsAll(Step(s, events[0]), events[1..], lasting))
  }

  /*** Preservation ***/

  /** At login, every embedded pair is granted by a row that is valid then. */
  lemma LoginFits(s: State, user: string, tenant: string, order: seq<string>, t: Token)
    requires DistinctTable(s.policies) && CurrentIds(s, user, tenant, order)
    requires LoginCompile(RowsOf(s.policies, user, tenant, order)) == Ok(t.policy) && t.user == user && t.tenant == tenant
    ensures Fits(s.policies, t, Some(s.clock)) && Fits(s.policies, t, None)
  {
    var rows := RowsOf(s.policies, user, tenant, order);
    LoginNeedsARow(rows);
    forall resource, i: nat | resource in t.policy && Bit(t.policy[resource], i)
      ensures Granted(s.policies, user, tenant, resource, i, Some(s.clock))
    {
      LastWinsBit(rows, resource, i);
      var k := LastOn(rows, resource).value;
      assert Compilable(rows[k]);
      assert order[k] in order;
      assert RowGrants(s.policies, Key(tenant, user, order[k]), resource, i, Some(s.clock));
    }
    FitsEarlier(s.policies, t, s.clock, s.clock);
  }

  /**
   With the rows left as they are, the token of a login stays within the rows valid at
   every moment of its life exactly when its pairs are granted to the end at login.
   */
  lemma LoginStaysValidIff(s: State, user: string, tenant: string, order: seq<string>, t: Token)
    requires LoginCompile(RowsOf(s.policies, user, tenant, order)) == Ok(t.policy) && t.user == user && t.tenant == tenant
    requires t.exp == s.clock + LOGIN_LIFETIME
    ensures (forall at :: s.clock <= at < t.exp ==> Fits(s.policies, t, Some(at))) <==>
            LoginLasts(s, user, tenant, order)
  {
    StaysWithinValidRowsIff(s.policies, t, s.clock);
  }

  lemma LoginKeepsInv(s: State, jti: string, user: string, tenant: string, order: seq<string>, lasting: bool)
    requires Inv(s, lasting) && jti !in s.sessions && CurrentIds(s, user, tenant, order)
    requires lasting ==> LoginLasts(s, user, tenant, order)
    ensures Inv(DoLogin(s, jti, user, tenant, order), lasting)
  {
    var s' := DoLogin(s, jti, user, tenant, order);
    if s' != s {
      var t := s'.tokens[|s.tokens|];
      LoginFits(s, user, tenant, order, t);
      assert Fits(s.policies, t, Horizon(t, lasting));
      forall k | 0 <= k < |s'.tokens| ensures TokenInv(s', s'.tokens[k], lasting) {
        if k < |s.tokens| { assert TokenInv(s, s.tokens[k], lasting); }
      }
    }
  }

  lemma RequestKeepsInv(s: State, w: nat, request: Sessions.Event, lasting: bool)
    requires w < |s.filters| && !request.Create? && (request.Cleanup? ==> request.now == s.clock) && Inv(s, lasting)
    ensures Inv(DoRequest(s, w, request), lasting)
  {}

  /** The table may change at will for a user whose sessions all end. */
  lemma ChangeAndRevoke(s: State, w: nat, key: Key, after: Table, lasting: bool)
    requires Inv(s, lasting) && w < |s.filters| && DistinctTable(after)
    requires forall k :: k in s.policies && k != key ==> k in after && after[k] == s.policies[k]
    ensures Inv(RevokeUser(s.(policies := after), w, key), lasting)
  {}

  /** The table may change for anyone as long as nothing is lost. */
  lemma ChangeAndKeep(s: State, after: Table, lasting: bool)
    requires Inv(s, lasting) && DistinctTable(after) && KeepsAll(s.policies, after, lasting)
    ensures Inv(s.(policies := after), lasting)
  {
    var s' := s.(policies := after);
    forall k | 0 <= k < |s'.tokens| ensures TokenInv(s', s'.tokens[k], lasting) {
      var t := s.tokens[k];
      assert TokenInv(s, t, lasting);
      assert Keeps(s.policies, after, t.user, t.tenant, Horizon(t, lasting));
    }
  }

  /** An update is an upsert for one user. */
  lemma UpdateIsUpsert(policies: Table, key: Key, p: Policy)
    ensures Upserted(policies, [key.user], key.tenant, key.policy, p) == policies[key := p]
  {}

  lemma KeptActionsCover(policies: Table, key: Key, updated: Policy)
    requires key in policies && updated.resource == policies[key].resource
    requires forall a :: a in policies[key].actions ==> a in updated.actions
    ensures CoveredWrite(policies, [key.user], key.tenant, key.policy, updated, false)
  {
    forall i: nat | Lists(policies[key].actions, i) ensures Lists(updated.actions, i) {
      ListsSubset(policies[key].actions, updated.actions, i);
    }
  }

  lemma UpdateKeepsInv(s: State, w: nat, key: Key, updates: Update, lasting: bool)
    requires Inv(s, lasting) && w < |s.filters| && (lasting ==> UpdateLasts(s, key, updates))
    ensures Inv(DoUpdate(s, w, key, updates), lasting)
  {
    var actions := if updates.actions.Some? then Validated(updates.actions.value) else None;
    if key in s.policies && (updates.actions.Some? ==> actions.Some?) {
      var p := s.policies[key];
      var updated := Updated(p, updates, actions);
      var after := s.policies[key := updated];
      if actions.Some? {
        ValidatedDistinct(updates.actions.value);
      } else {
        DedupDistinct(p.actions);
      }
      if MustRevoke(p, updates, updated) {
        ChangeAndRevoke(s, w, key, after, lasting);
      } else {
        if !lasting { KeptActionsCover(s.policies, key, updated); }
        CoveredWriteKeeps(s.policies, [key.user], key.tenant, key.policy, updated, lasting);
        UpdateIsUpsert(s.policies, key, updated);
        ChangeAndKeep(s, after, lasting);
      }
    }
  }

  lemma SameTokens(s: State, s': State, lasting: bool)
    requires Inv(s, lasting) && s'.policies == s.policies && s'.sessions == s.sessions && s'.tokens == s.tokens
    requires s'.revoked == s.revoked && s.clock <= s'.clock
    ensures Inv(s', lasting)
  {}

  lemma StepKeepsInv(s: State, e: Event, lasting: bool)
    requires Inv(s, lasting) && Respects(s, e, lasting)
    ensures Inv(Step(s, e), lasting)
  {
    match e
    case Tick(_) => SameTokens(s, Step(s, e), lasting);
    case Login(jti, user, tenant, order) =>
      if CurrentIds(s, user, tenant, order) { LoginKeepsInv(s, jti, user, tenant, order, lasting); }
    case CreatePolicy(key, policy) =>
      if Validated(policy.actions).Some? && key !in s.policies {
        var p := policy.(actions := Validated(policy.actions).value);
        ValidatedDistinct(policy.actions);
        NewRowKeeps(s.policies, key, p, lasting);
        ChangeAndKeep(s, s.policies[key := p], lasting);
      }
    case UpdatePolicy(w, key, updates) => if w < |s.filters| { UpdateKeepsInv(s, w, key, updates, lasting); }
    case DeletePolicy(w, key) =>
      if w < |s.filters| && key in s.policies { ChangeAndRevoke(s, w, key, s.policies - {key}, lasting); }
    case BulkAssign(users, tenant, id, policy) =>
      CoveredWriteKeeps(s.policies, users, tenant, id, policy, lasting);
      ChangeAndKeep(s, Upserted(s.policies, users, tenant, id, policy), lasting);
    case SessionRequest(w, request) =>
      if w < |s.filters| && !request.Create? && (request.Cleanup? ==> request.now == s.clock) {
        RequestKeepsInv(s, w, request, lasting);
      }
    case Sync(_, _) => SameTokens(s, Step(s, e), lasting);
  }

  lemma {:induction false} RunKeepsInv(s: State, events: seq<Event>, lasting: bool)
    requires Inv(s, lasting) && RespectsAll(s, events, lasting)
    ensures Inv(Run(s, events), lasting)
    decreases |events|
  {
    if events != [] {
      StepKeepsInv(s, events[0], lasting);
      RunKeepsInv(Step(s, events[0]), events[1..], lasting);
    }
  }

  /*** Main results ***/

  /** The worker has heard of every revocation. */
  ghost predicate CaughtUp(s: State, w: nat) {
    w < |s.filters| && forall jti :: jti in s.revoked ==> s.filters[w].Contains(jti)
  }

  /** The worker lets the token through and it has not expired. */
  predicate Accepted(s: State, w: nat, t: Token)
    requires w < |s.filters|
  {
    s.clock < t.exp && Accepts(s.filters[w], Some(t.jti))
  }

  /**
   What the permission check grants from a token, some policy row of its user grants:
   whatever its validity or, for lasting grants, by being valid now.
   */
  ghost predicate UpToDate(s: State, t: Token, lasting: bool) {
    forall permission, resource :: CheckPermission(t.policy, permission, resource) ==>
      ActionIndex(permission).Some? &&
      Granted(s.policies, t.user, t.tenant, resource, ActionIndex(permission).value,
              if lasting then Some(s.clock) else None)
  }

  lemma FitsIsUpToDate(s: State, t: Token, lasting: bool)
    requires Fits(s.policies, t, Horizon(t, lasting)) && s.clock < t.exp
    ensures UpToDate(s, t, lasting)
  {
    if lasting { FitsEarlier(s.policies, t, t.exp - 1, s.clock); }
    forall permission, resource | CheckPermission(t.policy, permission, resource)
      ensures ActionIndex(permission).Some? &&
              Granted(s.policies, t.user, t.tenant, resource, ActionIndex(permission).value,
                      if lasting then Some(s.clock) else None)
    {
      CheckReadsBit(t.policy, permission, resource);
    }
  }

  /** A live token whose id no one has revoked is up to date. */
  lemma UnrevokedIsUpToDate(clock: int, filters: seq<Bloom>, events: seq<Event>, t: Token, lasting: bool)
    requires RespectsAll(Start(clock, filters), events, lasting)
    requires var s := Run(Start(clock, filters), events); t in s.tokens && s.clock < t.exp && t.jti !in s.revoked
    ensures UpToDate(Run(Start(clock, filters), events), t, lasting)
  {
    var s := Run(Start(clock, filters), events);
    RunKeepsInv(Start(clock, filters), events, lasting);
    var k :| 0 <= k < |s.tokens| && s.tokens[k] == t;
    assert TokenInv(s, t, lasting);
    FitsIsUpToDate(s, t, lasting);
  }

  /**
   No stale grants: in every run, a token that a caught-up worker accepts grants only
   what the user's policy rows list now; and if logins, updates and bulk assignments
   also respect validity, only what rows valid now list.
   */
  lemma NoStaleGrant(clock: int, filters: seq<Bloom>, events: seq<Event>, w: nat, t: Token, lasting: bool)
    requires RespectsAll(Start(clock, filters), events, lasting)
    requires var s := Run(Start(clock, filters), events); CaughtUp(s, w) && t in s.tokens && Accepted(s, w, t)
    ensures UpToDate(Run(Start(clock, filters), events), t, lasting)
  {
    UnrevokedIsUpToDate(clock, filters, events, t, lasting);
  }

  /** Every request of the run that revokes is handled by this worker. */
  predicate HandledBy(events: seq<Event>, w: nat) {
    forall k :: 0 <= k < |events| ==>
      match events[k]
      case UpdatePolicy(v, _, _) => v == w
      case DeletePolicy(v, _) => v == w
      case SessionRequest(v, _) => v == w
      case _ => true
  }

  lemma RequestCatchesUp(s: State, w: nat, request: Sessions.Event)
    requires CaughtUp(s, w)
    ensures CaughtUp(DoRequest(s, w, request), w)
  {}

  lemma StepCatchesUp(s: State, e: Event, w: nat)
    requires CaughtUp(s, w) && HandledBy([e], w)
    ensures CaughtUp(Step(s, e), w)
  {
    assert [e][0] == e;
    match e
    case UpdatePolicy(_, key, updates) =>
      var actions := if updates.actions.Some? then Validated(updates.actions.value) else None;
      if key in s.policies && (updates.actions.Some? ==> actions.Some?) {
        var updated := Updated(s.policies[key], updates, actions);
        var t := s.(policies := s.policies[key := updated]);
        assert CaughtUp(t, w);
        RequestCatchesUp(t, w, Sessions.RevokeAll(key.user, key.tenant, None));
      }
    case DeletePolicy(_, key) =>
      var t := s.(policies := s.policies - {key});
      assert CaughtUp(t, w);
      RequestCatchesUp(t, w, Sessions.RevokeAll(key.user, key.tenant, None));
    case SessionRequest(_, request) => RequestCatchesUp(s, w, request);
    case Sync(_, _) =>
    case _ =>
  }

  /** The worker that handles the requests needs no other worker to be caught up. */
  lemma {:induction false} HandlerIsCaughtUp(s: State, events: seq<Event>, w: nat)
    requires CaughtUp(s, w) && HandledBy(events, w)
    ensures CaughtUp(Run(s, events), w)
    decreases |events|
  {
    if events != [] {
      assert [events[0]][0] == events[0];
      StepCatchesUp(s, events[0], w);
      assert HandledBy(events[1..], w) by {
        forall k | 0 <= k < |events| - 1 ensures events[1..][k] == events[k + 1] {}
      }
      HandlerIsCaughtUp(Step(s, events[0]), events[1..], w);
    }
  }

  /** On the handling worker the guarantee is unconditional. */
  lemma NoStaleGrantOnHandler(clock: int, filters: seq<Bloom>, events: seq<Event>, w: nat, t: Token, lasting: bool)
    requires RespectsAll(Start(clock, filters), events, lasting) && HandledBy(events, w) && w < |filters|
    requires var s := Run(Start(clock, filters), events); w < |s.filters| && t in s.tokens && Accepted(s, w, t)
    ensures UpToDate(Run(Start(clock, filters), events), t, lasting)
  {
    HandlerIsCaughtUp(Start(clock, filters), events, w);
    NoStaleGrant(clock, filters, events, w, t, lasting);
  }

  /** Adding a set of token ids is adding them in any order. */
  lemma {:induction false} AddSetIsAddAll(bloom: Bloom, items: seq<string>)
    ensures AddAll(bloom, items) == AddSet(bloom, set x | x in items)
  {
    if items == [] {
      assert AddSet(bloom, {}).bits == bloom.bits;
    } else {
      var init, last := items[..|items| - 1], items[|items| - 1];
      assert items == init + [last];
      AddSetIsAddAll(bloom, init);
      assert AddSet(bloom, set x | x in items).bits == AddSet(bloom, set x | x in init).bits + bloom.hash(last);
    }
  }

  /*** What the requests write ***/

  /** Every session of the user in the tenant is over, all others are as they were, and the ids are revoked. */
  ghost predicate SessionsEnded(s: State, t: State, w: nat, user: string, tenant: string)
    requires w < |s.filters|
  {
    var ids := set j | j in s.sessions && s.sessions[j].user == user && s.sessions[j].tenant == tenant && !s.sessions[j].revoked;
    t.sessions.Keys == s.sessions.Keys && t.revoked == s.revoked + ids &&
    (forall j :: j in s.sessions ==>
      t.sessions[j] == s.sessions[j].(revoked := s.sessions[j].revoked || j in ids)) &&
    |t.filters| == |s.filters| &&
    (forall v :: 0 <= v < |s.filters| && v != w ==> t.filters[v] == s.filters[v]) &&
    (forall j :: j in ids ==> t.filters[w].Contains(j))
  }

  lemma {:induction false} DedupKeeps(actions: seq<string>, a: string)
    ensures a in Dedup(actions) <==> a in actions
  {
    if actions != [] {
      DedupKeeps(actions[..|actions| - 1], a);
      assert actions == actions[..|actions| - 1] + [actions[|actions| - 1]];
    }
  }

  lemma DedupLists(actions: seq<string>, i: nat)
    ensures Lists(Dedup(actions), i) <==> Lists(actions, i)
  {
    var d := Dedup(actions);
    DedupSame(actions);
    if k :| 0 <= k < |d| && ActionIndex(d[k]) == Some(i) { assert d[k] in actions; }
    if k :| 0 <= k < |actions| && ActionIndex(actions[k]) == Some(i) {
      assert actions[k] in d;
    }
  }

  /** Validated lists list the same flags as the lists they were given as. */
  lemma ValidatedLists(actions: seq<string>, i: nat)
    requires Validated(actions).Some?
    ensures Lists(Validated(actions).value, i) <==> Lists(actions, i)
    ensures forall a :: a in Validated(actions).value <==> exists k :: 0 <= k < |actions| && a == Lower(actions[k])
  {
    var v := Validated(actions).value;
    ValidatedIsLower(actions);
    if k :| 0 <= k < |actions| && ActionIndex(actions[k]) == Some(i) { assert ActionIndex(v[k]) == Some(i); }
    if k :| 0 <= k < |v| && ActionIndex(v[k]) == Some(i) { assert ActionIndex(actions[k]) == Some(i); }
    forall k | 0 <= k < |actions| ensures Lower(actions[k]) in v { assert v[k] == Lower(actions[k]); }
  }

  /** The update takes from the user: the resource is not repeated, or an action of the row is not requested. */
  predicate TakesAway(p: Policy, updates: Update) {
    updates.resource != Some(p.resource) ||
    (updates.actions.Some? && exists a :: a in p.actions && forall b :: b in updates.actions.value ==> Lower(b) != a)
  }

  /**
   An accepted update, in terms of the old row and the request: the row lists the flags that
   were requested, or what it listed; resource and validity are the requested ones, or as
   they were; no other row changes; and the user's sessions end exactly when the update
   takes something away.  A refused one changes nothing.
   */
  lemma UpdateMeans(s: State, w: nat, key: Key, updates: Update, i: nat)
    requires w < |s.filters|
    ensures key !in s.policies || (updates.actions.Some? && !AllKnown(updates.actions.value)) ==>
              DoUpdate(s, w, key, updates) == s
    ensures key in s.policies && (updates.actions.Some? ==> AllKnown(updates.actions.value)) ==>
            var t, p := DoUpdate(s, w, key, updates), s.policies[key];
            t.policies.Keys == s.policies.Keys &&
            (forall k :: k in s.policies && k != key ==> t.policies[k] == s.policies[k]) &&
            (Lists(t.policies[key].actions, i) <==>
              Lists(if updates.actions.Some? then updates.actions.value else p.actions, i)) &&
            t.policies[key].resource == (if updates.resource.Some? then updates.resource.value else p.resource) &&
            t.policies[key].validUntil == (if updates.validUntil.Some? then updates.validUntil.value else p.validUntil) &&
            t.clock == s.clock && t.tokens == s.tokens &&
            if TakesAway(p, updates) then SessionsEnded(s, t, w, key.user, key.tenant)
            else t.sessions == s.sessions && t.revoked == s.revoked && t.filters == s.filters
  {
    if key in s.policies && (updates.actions.Some? ==> AllKnown(updates.actions.value)) {
      var p := s.policies[key];
      var actions := if updates.actions.Some? then Validated(updates.actions.value) else None;
      var list := if actions.Some? then actions.value else p.actions;
      DedupLists(list, i);
      if updates.actions.Some? { ValidatedLists(updates.actions.value, i); }
      forall a ensures a in Updated(p, updates, actions).actions <==> a in list { DedupKeeps(list, a); }
      assert MustRevoke(p, updates, Updated(p, updates, actions)) <==> TakesAway(p, updates);
      RevokeUserMeans(s.(policies := s.policies[key := Updated(p, updates, actions)]), w, key);
    }
  }

  lemma RevokeUserMeans(s: State, w: nat, key: Key)
    requires w < |s.filters|
    ensures SessionsEnded(s, RevokeUser(s, w, key), w, key.user, key.tenant)
    ensures var t := RevokeUser(s, w, key); t.policies == s.policies && t.clock == s.clock && t.tokens == s.tokens
  {}

  /** A created row is what was asked for; an unknown action or a taken id changes nothing. */
  lemma CreateMeans(s: State, key: Key, policy: Policy, i: nat)
    ensures var t := DoCreate(s, key, policy);
            if AllKnown(policy.actions) && key !in s.policies then
              t == s.(policies := s.policies[key := t.policies[key]]) && key in t.policies &&
              t.policies[key].resource == policy.resource && t.policies[key].validUntil == policy.validUntil &&
              (Lists(t.policies[key].actions, i) <==> Lists(policy.actions, i))
            else t == s
  {
    if Validated(policy.actions).Some? { ValidatedLists(policy.actions, i); }
  }

  /** A deletion removes that row alone and ends the user's sessions. */
  lemma DeleteMeans(s: State, w: nat, key: Key)
    requires w < |s.filters|
    ensures var t := Step(s, DeletePolicy(w, key));
            if key !in s.policies then t == s else
            t.policies == s.policies - {key} && t.clock == s.clock && t.tokens == s.tokens &&
            SessionsEnded(s, t, w, key.user, key.tenant)
  {
    RevokeUserMeans(s.(policies := s.policies - {key}), w, key);
  }

  /** A session request writes no policy, issues no token and creates no session; it revokes the active ones it covers. */
  lemma SessionRequestMeans(s: State, w: nat, request: Sessions.Event)
    requires w < |s.filters|
    ensures var t := Step(s, SessionRequest(w, request));
            t.policies == s.policies && t.tokens == s.tokens && t.clock == s.clock && t.sessions.Keys <= s.sessions.Keys &&
            (request.Create? ==> t == s) &&
            t.revoked == s.revoked + set j | j in s.sessions && !s.sessions[j].revoked &&
                                             Sessions.MayEnd(request, j, s.sessions[j])
  {}

  /** The row is the last of the listed ones on the resource. */
  predicate LastRowOn(policies: Table, user: string, tenant: string, order: seq<string>, n: nat, resource: string)
    requires forall id :: id in order ==> Key(tenant, user, id) in policies
  {
    n < |order| && policies[Key(tenant, user, order[n])].resource == resource &&
    forall m :: n < m < |order| ==> policies[Key(tenant, user, order[m])].resource != resource
  }

  /** The last of the listed rows on the resource lists the action. */
  ghost predicate LastRowLists(policies: Table, user: string, tenant: string, order: seq<string>, resource: string, i: nat)
    requires forall id :: id in order ==> Key(tenant, user, id) in policies
  {
    exists n: nat ::
      LastRowOn(policies, user, tenant, order, n, resource) && Lists(policies[Key(tenant, user, order[n])].actions, i)
  }

  lemma RowsAre(policies: Table, user: string, tenant: string, order: seq<string>)
    requires DistinctTable(policies) && forall id :: id in order ==> Key(tenant, user, id) in policies
    requires forall id :: id in order ==> AllKnown(policies[Key(tenant, user, id)].actions)
    ensures var rows := RowsOf(policies, user, tenant, order);
            |rows| == |order| && AllCompilable(rows) && DistinctRows(rows) &&
            forall k :: 0 <= k < |rows| ==>
              rows[k] == Parsed(Some(policies[Key(tenant, user, order[k])].resource),
                                Some(policies[Key(tenant, user, order[k])].actions))
  {
    forall k | 0 <= k < |order| ensures order[k] in order {}
  }

  lemma LoginGrantsIff(policies: Table, user: string, tenant: string, order: seq<string>, permission: string,
                       resource: string)
    requires DistinctTable(policies) && order != [] && forall id :: id in order ==> Key(tenant, user, id) in policies
    requires forall id :: id in order ==> AllKnown(policies[Key(tenant, user, id)].actions)
    ensures var compiled := LoginCompile(RowsOf(policies, user, tenant, order));
            compiled.Ok? &&
            (CheckPermission(compiled.value, permission, resource) <==>
              ActionIndex(permission).Some? &&
              LastRowLists(policies, user, tenant, order, resource, ActionIndex(permission).value))
  {
    var rows := RowsOf(policies, user, tenant, order);
    RowsAre(policies, user, tenant, order);
    LoginNeedsARow(rows);
    LoginMeaning(rows, permission, resource);
    var last := LastOn(rows, resource);
    if last.Some? { assert LastRowOn(policies, user, tenant, order, last.value, resource); }
    forall n: nat | LastRowOn(policies, user, tenant, order, n, resource) ensures last == Some(n) {
      assert rows[n].resource == Some(resource);
    }
  }

  /**
   A login whose rows name known actions only issues one token, for an hour, with a session
   of the same expiry; the permission check grants from it what the last row on the resource
   lists, in the order the rows came in.
   */
  lemma LoginMeans(s: State, jti: string, user: string, tenant: string, order: seq<string>, permission: string,
                   resource: string)
    requires DistinctTable(s.policies) && CurrentIds(s, user, tenant, order) && order != []
    requires forall id :: id in order ==> AllKnown(s.policies[Key(tenant, user, id)].actions)
    ensures var t := DoLogin(s, jti, user, tenant, order);
            |t.tokens| == |s.tokens| + 1 && t == s.(tokens := s.tokens + [t.tokens[|s.tokens|]], sessions := t.sessions) &&
            (jti !in s.sessions ==> t.sessions == s.sessions[jti := Sessions.Session(user, tenant, s.clock + 3600, false)]) &&
            var token := t.tokens[|s.tokens|];
            token == Token(jti, user, tenant, token.policy, s.clock + 3600) &&
            (CheckPermission(token.policy, permission, resource) <==>
              ActionIndex(permission).Some? &&
              LastRowLists(s.policies, user, tenant, order, resource, ActionIndex(permission).value))
  {
    LoginGrantsIff(s.policies, user, tenant, order, permission, resource);
  }

  /*** Writing policies without revoking ***/

  /** A write that ends no session is safe for whatever tokens are out exactly when nothing granted is lost. */
  lemma UnrevokedWriteIff(before: Table, after: Table, lasting: bool)
    ensures (forall tokens: seq<Token> :: NoStale(before, tokens, lasting) ==> NoStale(after, tokens, lasting)) <==>
            KeepsAll(before, after, lasting)
  {
    if KeepsAll(before, after, lasting) {
      forall tokens: seq<Token> | NoStale(before, tokens, lasting) ensures NoStale(after, tokens, lasting) {
        forall k | 0 <= k < |tokens| ensures Fits(after, tokens[k], Horizon(tokens[k], lasting)) {
          assert Keeps(before, after, tokens[k].user, tokens[k].tenant, Horizon(tokens[k], lasting));
          FitsLater(before, after, tokens[k], Horizon(tokens[k], lasting));
        }
      }
    } else {
      var user, tenant, at: Option<int> :| at.Some? == lasting && !Keeps(before, after, user, tenant, at);
      LostPairGoesStale(before, after, user, tenant, at);
    }
  }

  lemma LostPairGoesStale(before: Table, after: Table, user: string, tenant: string, at: Option<int>)
    requires !Keeps(before, after, user, tenant, at)
    ensures exists tokens: seq<Token> :: NoStale(before, tokens, at.Some?) && !NoStale(after, tokens, at.Some?)
  {
    var resource, i: nat :|
      Granted(before, user, tenant, resource, i, at) && !Granted(after, user, tenant, resource, i, at);
    var t := Token("", user, tenant, map[resource := Pow2(i)], if at.Some? then at.value + 1 else 0);
    forall j: nat ensures Bit(Pow2(i), j) <==> i == j { Pow2Bit(i, j); }
    assert Horizon(t, at.Some?) == at;
    assert Fits(before, t, at);
    assert NoStale(before, [t], at.Some?);
    assert [t][0] == t && !Fits(after, t, at);
    assert !NoStale(after, [t], at.Some?);
  }

  /** A bulk assignment is safe for whatever tokens are out exactly when the rows it overwrites are covered. */
  lemma BulkAssignSafeIff(policies: Table, users: seq<string>, tenant: string, id: string, policy: Policy, lasting: bool)
    ensures (forall tokens: seq<Token> :: NoStale(policies, tokens, lasting) ==>
               NoStale(Upserted(policies, users, tenant, id, policy), tokens, lasting)) <==>
            CoveredWrite(policies, users, tenant, id, policy, lasting)
  {
    UnrevokedWriteIff(policies, Upserted(policies, users, tenant, id, policy), lasting);
    BulkKeepsIff(policies, users, tenant, id, policy, lasting);
  }

  /** Likewise for an update that ends no sessions. */
  lemma UnrevokedUpdateSafeIff(policies: Table, key: Key, updated: Policy, lasting: bool)
    requires key in policies
    ensures (forall tokens: seq<Token> :: NoStale(policies, tokens, lasting) ==>
               NoStale(policies[key := updated], tokens, lasting)) <==>
            forall i: nat :: Lists(policies[key].actions, i) ==> Covered(policies, key, updated, i, lasting)
  {
    BulkAssignSafeIff(policies, [key.user], key.tenant, key.policy, updated, lasting);
    UpdateIsUpsert(policies, key, updated);
  }

  /** Over missing rows, or rows whose resource and actions it repeats, an assignment is covered. */
  lemma WideningBulkKeeps(policies: Table, users: seq<string>, tenant: string, id: string, policy: Policy)
    requires forall u :: u in users && Key(tenant, u, id) in policies ==>
               var old_ := policies[Key(tenant, u, id)];
               old_.resource == policy.resource && forall a :: a in old_.actions ==> a in policy.actions
    ensures CoveredWrite(policies, users, tenant, id, policy, false)
  {
    forall u, i: nat | u in users && Key(tenant, u, id) in policies && Lists(policies[Key(tenant, u, id)].actions, i)
      ensures Covered(policies, Key(tenant, u, id), policy, i, false)
    {
      ListsSubset(policies[Key(tenant, u, id)].actions, policy.actions, i);
    }
  }

  /** An unexpired token whose id has not been revoked. */
  predicate LiveToken(s: State, t: Token) {
    t in s.tokens && s.clock < t.exp && t.jti !in s.revoked
  }

  /** After the assignment the new policy grants the pair, or a row of another id does. */
  ghost predicate PairStays(policies: Table, t: Token, id: string, policy: Policy, resource: string, i: nat,
                            at: Option<int>) {
    (policy.resource == resource && Lists(policy.actions, i) && (at.Some? ==> Valid(policy, at.value))) ||
    exists pid :: pid != id && RowGrants(policies, Key(t.tenant, t.user, pid), resource, i, at)
  }

  ghost predicate PairsStay(policies: Table, t: Token, id: string, policy: Policy, at: Option<int>) {
    forall resource, i: nat :: resource in t.policy && Bit(t.policy[resource], i) ==>
      PairStays(policies, t, id, policy, resource, i, at)
  }

  /**
   In any reached state, a bulk assignment leaves every live token within the rows
   exactly when each pair that a listed user's live token embeds stays granted.
   */
  lemma BulkSparesLiveTokensIff(clock: int, filters: seq<Bloom>, events: seq<Event>, users: seq<string>,
                                tenant: string, id: string, policy: Policy, lasting: bool)
    requires RespectsAll(Start(clock, filters), events, lasting)
    ensures var s := Run(Start(clock, filters), events);
            var after := Step(s, BulkAssign(users, tenant, id, policy));
            (forall t :: LiveToken(s, t) ==> Fits(after.policies, t, Horizon(t, lasting))) <==>
            (forall t :: LiveToken(s, t) && t.tenant == tenant && t.user in users ==>
               PairsStay(s.policies, t, id, policy, Horizon(t, lasting)))
  {
    var s := Run(Start(clock, filters), events);
    RunKeepsInv(Start(clock, filters), events, lasting);
    var after := Upserted(s.policies, users, tenant, id, policy);
    forall t: Token | LiveToken(s, t)
      ensures Fits(after, t, Horizon(t, lasting)) <==>
              (t.tenant == tenant && t.user in users ==> PairsStay(s.policies, t, id, policy, Horizon(t, lasting)))
    {
      if t.tenant == tenant && t.user in users {
        OverwrittenFitsIff(s.policies, users, tenant, id, policy, t, Horizon(t, lasting));
      } else {
        FitsOfReached(s, t, lasting);
        UntouchedUser(s.policies, users, tenant, id, policy, t, Horizon(t, lasting));
      }
    }
  }

  lemma OverwrittenFitsIff(policies: Table, users: seq<string>, tenant: string, id: string, policy: Policy, t: Token,
                           at: Option<int>)
    requires t.tenant == tenant && t.user in users
    ensures Fits(Upserted(policies, users, tenant, id, policy), t, at) <==> PairsStay(policies, t, id, policy, at)
  {}

  lemma FitsOfReached(s: State, t: Token, lasting: bool)
    requires Inv(s, lasting) && LiveToken(s, t)
    ensures Fits(s.policies, t, Horizon(t, lasting))
  {}

  lemma UntouchedUser(policies: Table, users: seq<string>, tenant: string, id: string, policy: Policy, t: Token,
                      at: Option<int>)
    requires Fits(policies, t, at) && !(t.tenant == tenant && t.user in users)
    ensures Fits(Upserted(policies, users, tenant, id, policy), t, at)
  {}

  /*** Runs on which the unrestricted property fails ***/

  const OWNER := Key("t", "u", "p")

  function OneWrite(validUntil: Option<int>): Policy {
    Policy("doc", ["write"], validUntil)
  }

  function WriterRun(jti: string, validUntil: Option<int>): seq<Event> {
    [CreatePolicy(OWNER, OneWrite(validUntil)), Login(jti, "u", "t", ["p"])]
  }

  function WriterToken(clock: int, jti: string): Token {
    Token(jti, "u", "t", map["doc" := 2], clock + LOGIN_LIFETIME)
  }

  lemma LowerWrite(s: string)
    requires s == "write"
    ensures Lower(s) == s
  {
    assert LowerChar('w') == 'w' && LowerChar('r') == 'r' && LowerChar('i') == 'i' && LowerChar('t') == 't' &&
           LowerChar('e') == 'e';
  }

  lemma PositionOfWrite(s: string)
    requires s == "write"
    ensures Position(ACTIONS, s) == Some(1)
  {
    assert ACTIONS[0] == "read" && ACTIONS[1] == "write";
    assert "read" != "write" by { assert |"read"| != |"write"|; }
    assert ACTIONS[1..][0] == s;
    assert Position(ACTIONS[1..], s) == Some(0);
  }

  lemma WriteIndex()
    ensures Lower("write") == "write" && ActionIndex("write") == Some(1)
  {
    LowerWrite("write");
    PositionOfWrite("write");
  }

  lemma WriteMask()
    ensures SumMask(["write"]) == 2 && AllKnown(["write"]) && Validated(["write"]) == Some(["write"])
  {
    WriteIndex();
    assert ["write"][1..] == [];
    assert Pow2(1) == 2;
    var lowered := seq(1, i requires 0 <= i < 1 => Lower(["write"][i]));
    assert lowered == ["write"];
  }

  lemma WriteCompiles()
    ensures LoginCompile([Parsed(Some("doc"), Some(["write"]))]) == Ok(map["doc" := 2])
  {
    WriteMask();
    var rows := [Parsed(Some("doc"), Some(["write"]))];
    assert rows[..0] == [];
    assert Compilable(rows[0]);
    assert LastWins(rows) == map["doc" := 2];
  }

  lemma WriteGranted(clock: int, jti: string)
    ensures CheckPermission(WriterToken(clock, jti).policy, "write", "doc")
  {
    WriteIndex();
    assert Pow2(1) == 2;
    assert And(2, 2) == 2;
  }

  /** A user with one policy, allowing writes to one resource, logs in. */
  lemma WriterLogsIn(clock: int, filters: seq<Bloom>, jti: string, validUntil: Option<int>)
    requires validUntil.Some? ==> clock <= validUntil.value
    ensures var s := Run(Start(clock, filters), WriterRun(jti, validUntil));
            s.clock == clock && s.filters == filters && s.revoked == {} &&
            s.policies == map[OWNER := OneWrite(validUntil)] && s.tokens == [WriterToken(clock, jti)]
  {
    var e := WriterRun(jti, validUntil);
    var s0 := Start(clock, filters);
    WriteMask();
    var s1 := s0.(policies := map[OWNER := OneWrite(validUntil)]);
    assert Step(s0, e[0]) == s1;
    assert CurrentIds(s1, "u", "t", ["p"]);
    assert RowsOf(s1.policies, "u", "t", ["p"]) == [Parsed(Some("doc"), Some(["write"]))];
    WriteCompiles();
    assert e[1..] == [e[1]] && [e[1]][1..] == [];
    assert Run(s0, e) == Run(s1, [e[1]]);
    assert Run(s1, [e[1]]) == Step(s1, e[1]);
  }

  /** Overwriting that policy by a bulk assignment leaves the token accepted and stale. */
  lemma NarrowingBulkGoesStale(clock: int, hash: string -> set<nat>, jti: string)
    requires jti != "" && hash(jti) != {}
    ensures var s := Run(Start(clock, [Bloom(hash, {})]),
                         WriterRun(jti, None) + [BulkAssign(["u"], "t", "p", Policy("doc", [], None))]);
            CaughtUp(s, 0) && s.tokens == [WriterToken(clock, jti)] && |s.filters| == 1 &&
            Accepted(s, 0, WriterToken(clock, jti)) && !UpToDate(s, WriterToken(clock, jti), false)
  {
    var bulk := BulkAssign(["u"], "t", "p", Policy("doc", [], None));
    var s0 := Start(clock, [Bloom(hash, {})]);
    WriterLogsIn(clock, [Bloom(hash, {})], jti, None);
    RunSnoc(s0, WriterRun(jti, None), bulk);
    NothingGranted(Run(s0, WriterRun(jti, None)).policies);
    WriteIndex();
    WriteGranted(clock, jti);
  }

  lemma NothingGranted(policies: Table)
    requires policies.Keys == {OWNER}
    ensures !Granted(Upserted(policies, ["u"], "t", "p", Policy("doc", [], None)), "u", "t", "doc", 1, None)
  {}

  /** Only the owner's one row could grant, and it is not valid at that time. */
  lemma LapsedRowGrantsNothing(policies: Table, clock: int)
    requires policies.Keys == {OWNER} && !Valid(policies[OWNER], clock)
    ensures !Granted(policies, "u", "t", "doc", 1, Some(clock))
  {}

  /** A token outlives the validity of the policy row it was compiled from. */
  lemma ValidityLapses(clock: int, hash: string -> set<nat>, jti: string)
    requires jti != "" && hash(jti) != {}
    ensures var s := Run(Start(clock, [Bloom(hash, {})]), WriterRun(jti, Some(clock)) + [Tick(1)]);
            CaughtUp(s, 0) && s.tokens == [WriterToken(clock, jti)] && |s.filters| == 1 &&
            Accepted(s, 0, WriterToken(clock, jti)) && !UpToDate(s, WriterToken(clock, jti), true)
  {
    var s0 := Start(clock, [Bloom(hash, {})]);
    WriterLogsIn(clock, [Bloom(hash, {})], jti, Some(clock));
    RunSnoc(s0, WriterRun(jti, Some(clock)), Tick(1));
    LapsedRowGrantsNothing(Run(s0, WriterRun(jti, Some(clock))).policies, clock + 1);
    WriteIndex();
    WriteGranted(clock, jti);
  }

  /** The update repeats resource and actions, and ends the row's validity a second ago. */
  function Shortening(clock: int): Update {
    Update(Some("doc"), Some(["write"]), Some(Some(clock - 1)))
  }

  lemma ShorteningUpdates(s: State, clock: int)
    requires s.policies == map[OWNER := OneWrite(None)] && |s.filters| == 1
    ensures Step(s, UpdatePolicy(0, OWNER, Shortening(clock))) == s.(policies := map[OWNER := OneWrite(Some(clock - 1))])
  {
    WriteMask();
    assert ["write"][..0] == [];
    assert Dedup(["write"]) == ["write"];
    assert Updated(OneWrite(None), Shortening(clock), Some(["write"])) == OneWrite(Some(clock - 1));
  }

  /** Shortening a row that way ends no sessions, and the token goes on granting what no valid row does. */
  lemma ShorteningGoesStale(clock: int, hash: string -> set<nat>, jti: string)
    requires jti != "" && hash(jti) != {}
    ensures var s := Run(Start(clock, [Bloom(hash, {})]),
                         WriterRun(jti, None) + [UpdatePolicy(0, OWNER, Shortening(clock))]);
            CaughtUp(s, 0) && s.tokens == [WriterToken(clock, jti)] && |s.filters| == 1 &&
            Accepted(s, 0, WriterToken(clock, jti)) && !UpToDate(s, WriterToken(clock, jti), true)
  {
    var s0 := Start(clock, [Bloom(hash, {})]);
    WriterLogsIn(clock, [Bloom(hash, {})], jti, None);
    RunSnoc(s0, WriterRun(jti, None), UpdatePolicy(0, OWNER, Shortening(clock)));
    ShorteningUpdates(Run(s0, WriterRun(jti, None)), clock);
    LapsedRowGrantsNothing(map[OWNER := OneWrite(Some(clock - 1))], clock);
    WriteIndex();
    WriteGranted(clock, jti);
  }

  lemma {:induction false} RunSnoc(s: State, events: seq<Event>, e: Event)
    ensures Run(s, events + [e]) == Step(Run(s, events), e)
    decreases |events|
  {
    if events == [] {
      assert [e][1..] == [];
    } else {
      assert (events + [e])[1..] == events[1..] + [e];
      RunSnoc(Step(s, events[0]), events[1..], e);
    }
  }
}
