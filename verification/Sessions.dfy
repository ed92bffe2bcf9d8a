/**
 User sessions: the table of issued login tokens, and the operations that mark
 rows revoked and hand their token ids to the revocation manager.

 Source: app/services/session_service.py.  Each operation is one atomic request;
 rows come back from a query in any order.
 */
module Sessions {
  import opened Common
  import opened Revocation

  datatype Session = Session(user: string, tenant: string, expires: int, revoked: bool)

  type Table = map<string, Session>

  /** Rows older than this past their expiry are deleted by the cleanup: seven days. */
  const KEPT_AFTER_EXPIRY := 604_800

  /*** What the WHERE clauses select ***/

  /** An empty exclusion is no exclusion. */
  predicate Excludes(exclude: Option<string>, jti: string) {
    exclude.Some? && exclude.value != "" && exclude.value == jti
  }

  function One(rows: Table, jti: string, user: string, tenant: string): set<string> {
    if jti in rows && rows[jti].user == user && rows[jti].tenant == tenant && !rows[jti].revoked then {jti} else {}
  }

  function AllOf(rows: Table, user: string, tenant: string, exclude: Option<string>): set<string> {
    set j | j in rows && rows[j].user == user && rows[j].tenant == tenant && !rows[j].revoked && !Excludes(exclude, j)
  }

  function InTenant(rows: Table, jti: string, tenant: string): set<string> {
    if jti in rows && rows[jti].tenant == tenant && !rows[jti].revoked then {jti} else {}
  }

  function Listed(rows: Table, jtis: seq<string>, tenant: string): set<string> {
    set j | j in rows && j in jtis && rows[j].tenant == tenant && !rows[j].revoked
  }

  function Inserted(rows: Table, jti: string, user: string, tenant: string, expires: int): Table {
    if jti in rows then rows else rows[jti := Session(user, tenant, expires, false)]
  }

  function MarkRevoked(rows: Table, selected: set<string>): Table {
    map j | j in rows :: if j in selected then rows[j].(revoked := true) else rows[j]
  }

  function Cleaned(rows: Table, now: int): Table {
    map j | j in rows && rows[j].expires >= now - KEPT_AFTER_EXPIRY :: rows[j]
  }

  /** The revocations owed for the selected rows: each under its own owner. */
  function Owed(rows: Table, selected: set<string>): set<Request> {
    set j | j in selected && j in rows :: Request(j, rows[j].user, rows[j].tenant)
  }

  function TokenIds(requests: seq<Request>): seq<string> {
    seq(|requests|, i requires 0 <= i < |requests| => requests[i].jti)
  }

  /** Exactly the owed revocations were requested, each once, and nothing else. */
  predicate Publishes(before: seq<Request>, after: seq<Request>, owed: set<Request>) {
    before <= after && multiset(after[|before|..]) == multiset(owed)
  }

  /*** Grouping ***/

  datatype Found = Found(jti: string, user: string)

  function OfUser(found: seq<Found>, user: string): seq<string> {
    if found == [] then []
    else
      var last := found[|found| - 1];
      OfUser(found[..|found| - 1], user) + if last.user == user then [last.jti] else []
  }

  predicate NoRepeats(users: seq<string>) {
    forall i, j :: 0 <= i < j < |users| ==> users[i] != users[j]
  }

  /** Each row as a revocation under its own user. */
  function AsRequests(found: seq<Found>, tenant: string): seq<Request> {
    seq(|found|, i requires 0 <= i < |found| => Request(found[i].jti, found[i].user, tenant))
  }

  /** Publishing group by group, in the order the groups were opened. */
  function ByGroup(users: seq<string>, found: seq<Found>, tenant: string): seq<Request> {
    if users == [] then []
    else
      var last := users[|users| - 1];
      ByGroup(users[..|users| - 1], found, tenant) + RequestsFor(last, tenant, OfUser(found, last))
  }

  /** Adding a row adds its revocation to the group of its own user only. */
  lemma GroupSnoc(found: seq<Found>, x: Found, user: string, tenant: string)
    ensures multiset(RequestsFor(user, tenant, OfUser(found + [x], user))) ==
            multiset(RequestsFor(user, tenant, OfUser(found, user))) +
            if x.user == user then multiset{Request(x.jti, user, tenant)} else multiset{}
  {
    assert (found + [x])[..|found|] == found;
    if x.user == user {
      assert RequestsFor(user, tenant, OfUser(found, user) + [x.jti]) ==
             RequestsFor(user, tenant, OfUser(found, user)) + [Request(x.jti, user, tenant)];
    } else {
      assert OfUser(found + [x], user) == OfUser(found, user);
    }
  }

  lemma ByGroupLast(users: seq<string>, found: seq<Found>, tenant: string)
    requires users != []
    ensures multiset(ByGroup(users, found, tenant)) ==
            multiset(ByGroup(users[..|users| - 1], found, tenant)) +
            multiset(RequestsFor(users[|users| - 1], tenant, OfUser(found, users[|users| - 1])))
  {}

  lemma {:induction false} ByGroupSnoc(users: seq<string>, found: seq<Found>, x: Found, tenant: string)
    requires NoRepeats(users)
    ensures multiset(ByGroup(users, found + [x], tenant)) ==
            multiset(ByGroup(users, found, tenant)) +
            if x.user in users then multiset{Request(x.jti, x.user, tenant)} else multiset{}
  {
    if users != [] {
      var init, last := users[..|users| - 1], users[|users| - 1];
      ByGroupSnoc(init, found, x, tenant);
      GroupSnoc(found, x, last, tenant);
      ByGroupLast(users, found, tenant);
      ByGroupLast(users, found + [x], tenant);
      InLast(users, x.user);
    }
  }

  lemma InLast(users: seq<string>, user: string)
    requires users != [] && NoRepeats(users)
    ensures user in users <==> user in users[..|users| - 1] || user == users[|users| - 1]
    ensures user == users[|users| - 1] ==> user !in users[..|users| - 1]
  {}

  lemma {:induction false} ByGroupOfNone(users: seq<string>, tenant: string)
    ensures ByGroup(users, [], tenant) == []
  {
    if users != [] { ByGroupOfNone(users[..|users| - 1], tenant); }
  }

  /** The groups partition the rows: every row is published once, under its own user. */
  lemma {:induction false} GroupsPartition(users: seq<string>, found: seq<Found>, tenant: string)
    requires NoRepeats(users) && forall i :: 0 <= i < |found| ==> found[i].user in users
    ensures multiset(ByGroup(users, found, tenant)) == multiset(AsRequests(found, tenant))
  {
    if found == [] {
      ByGroupOfNone(users, tenant);
    } else {
      var init, last := found[..|found| - 1], found[|found| - 1];
      assert found == init + [last];
      GroupsPartition(users, init, tenant);
      ByGroupSnoc(users, init, last, tenant);
      assert AsRequests(found, tenant) == AsRequests(init, tenant) + [Request(last.jti, last.user, tenant)];
    }
  }

  lemma {:induction false} OfUserOfStranger(found: seq<Found>, user: string)
    requires forall i :: 0 <= i < |found| ==> found[i].user != user
    ensures OfUser(found, user) == []
  {
    if found != [] { OfUserOfStranger(found[..|found| - 1], user); }
  }

  predicate Appears(found: seq<Found>, user: string) {
    exists i :: 0 <= i < |found| && found[i].user == user
  }

  /** One list for each user of the rows, holding that user's ids in order. */
  ghost predicate Grouped(users: seq<string>, groups: map<string, seq<string>>, found: seq<Found>) {
    NoRepeats(users) && (forall u :: u in users <==> u in groups) &&
    (forall u :: u in groups ==> groups[u] == OfUser(found, u)) &&
    (forall u :: u in users <==> Appears(found, u))
  }

  lemma OneMoreRow(found: seq<Found>, x: Found, u: string)
    ensures Appears(found + [x], u) <==> Appears(found, u) || u == x.user
    ensures OfUser(found + [x], u) == OfUser(found, u) + if u == x.user then [x.jti] else []
    ensures !Appears(found, u) ==> OfUser(found, u) == []
  {
    var more := found + [x];
    assert more[..|found|] == found && more[|found|] == x;
    if Appears(found, u) {
      var i :| 0 <= i < |found| && found[i].user == u;
      assert more[i].user == u;
    } else {
      OfUserOfStranger(found, u);
    }
  }

  lemma GroupedMore(users: seq<string>, groups: map<string, seq<string>>, found: seq<Found>, x: Found)
    requires Grouped(users, groups, found) && x.user in groups
    ensures Grouped(users, groups[x.user := groups[x.user] + [x.jti]], found + [x])
  {}

  lemma GroupOpened(users: seq<string>, groups: map<string, seq<string>>, found: seq<Found>, x: Found)
    requires Grouped(users, groups, found) && x.user !in groups
    ensures Grouped(users + [x.user], groups[x.user := [x.jti]], found + [x])
  {
    OneMoreRow(found, x, x.user);
    forall u: string
      ensures Appears(found + [x], u) <==> Appears(found, u) || u == x.user
      ensures OfUser(found + [x], u) == OfUser(found, u) + if u == x.user then [x.jti] else []
    {
      OneMoreRow(found, x, u);
    }
  }

  /** The dictionary loop: one list per user, users in order of first appearance. */
  method GroupByUser(found: seq<Found>) returns (users: seq<string>, groups: map<string, seq<string>>)
    ensures Grouped(users, groups, found)
  {
    users, groups := [], map[];
    for n := 0 to |found|
      invariant Grouped(users, groups, found[..n])
    {
      var row := found[n];
      if row.user in groups {
        GroupedMore(users, groups, found[..n], row);
      } else {
        GroupOpened(users, groups, found[..n], row);
      }
      assert found[..n + 1] == found[..n] + [row];
      if row.user !in groups {
        users := users + [row.user];
        groups := groups[row.user := []];
      }
      groups := groups[row.user := groups[row.user] + [row.jti]];
    }
    assert found[..|found|] == found;
  }

  /*** The service ***/

  class SessionTable {
    var rows: Table

    constructor ()
      ensures rows == map[]
    {
      rows := map[];
    }

    method Insert(jti: string, user: string, tenant: string, expires: int)
      modifies this
      ensures rows == Inserted(old(rows), jti, user, tenant, expires)
    {
      if jti !in rows {
        rows := rows[jti := Session(user, tenant, expires, false)];
      }
    }

    /** Marks the selected rows revoked and tells how many rows that changed. */
    method Revoke(selected: set<string>) returns (count: nat)
      requires selected <= rows.Keys && forall j :: j in selected ==> !rows[j].revoked
      modifies this
      ensures rows == MarkRevoked(old(rows), selected) && count == |selected|
    {
      rows := map j | j in rows :: if j in selected then rows[j].(revoked := true) else rows[j];
      count := |selected|;
    }
  }

  /** A query result: the ids in some order. */
  method Fetch(ids: set<string>) returns (r: seq<string>)
    ensures multiset(r) == multiset(ids)
  {
    r := [];
    var rest := ids;
    while rest != {}
      invariant rest <= ids && multiset(r) == multiset(ids - rest)
      decreases |rest|
    {
      var j :| j in rest;
      assert ids - (rest - {j}) == (ids - rest) + {j};
      r := r + [j];
      rest := rest - {j};
    }
    assert ids - {} == ids;
  }

  lemma RequestsForIds(user: string, tenant: string, jtis: seq<string>)
    ensures TokenIds(RequestsFor(user, tenant, jtis)) == jtis
  {}

  lemma WithoutLast(jtis: seq<string>, selected: set<string>)
    requires jtis != [] && multiset(jtis) == multiset(selected)
    ensures multiset(jtis[..|jtis| - 1]) == multiset(selected - {jtis[|jtis| - 1]})
  {
    var init, last := jtis[..|jtis| - 1], jtis[|jtis| - 1];
    assert jtis == init + [last];
    assert multiset(jtis) == multiset(init) + multiset{last};
    assert last in multiset(jtis);
    forall x ensures multiset(init)[x] == multiset(selected - {last})[x] {
      assert multiset(selected)[x] == multiset(init)[x] + if x == last then 1 else 0;
    }
  }

  /** The revocations of one user's rows, whatever the order of the rows. */
  lemma {:induction false} OwnedRequests(rows: Table, selected: set<string>, user: string, tenant: string, jtis: seq<string>)
    requires multiset(jtis) == multiset(selected) && selected <= rows.Keys
    requires forall j :: j in selected ==> rows[j].user == user && rows[j].tenant == tenant
    ensures multiset(RequestsFor(user, tenant, jtis)) == multiset(Owed(rows, selected))
    ensures |jtis| == |selected|
  {
    assert |multiset(jtis)| == |multiset(selected)|;
    if jtis == [] {
      assert |selected| == 0;
      assert Owed(rows, {}) == {};
    } else {
      var init, last := jtis[..|jtis| - 1], jtis[|jtis| - 1];
      assert jtis == init + [last];
      assert last in multiset(jtis);
      WithoutLast(jtis, selected);
      OwnedRequests(rows, selected - {last}, user, tenant, init);
      assert RequestsFor(user, tenant, jtis) == RequestsFor(user, tenant, init) + [Request(last, user, tenant)];
      assert Owed(rows, selected) == Owed(rows, selected - {last}) + {Request(last, user, tenant)};
    }
  }

  method CreateSession(db: SessionTable, jti: string, user: string, tenant: string, expires: int)
    modifies db
    ensures db.rows == Inserted(old(db.rows), jti, user, tenant, expires)
    ensures db.rows == if jti in old(db.rows) then old(db.rows)
                       else old(db.rows)[jti := Session(user, tenant, expires, false)]
  {
    db.Insert(jti, user, tenant, expires);
  }

  /** What an operation that revokes the selected rows does to the table and the manager. */
  twostate predicate Revokes(db: SessionTable, manager: TokenRevocationManager, selected: set<string>)
    reads db, manager
  {
    db.rows == MarkRevoked(old(db.rows), selected) &&
    Publishes(old(manager.requests), manager.requests, Owed(old(db.rows), selected)) &&
    manager.bloom == AddAll(old(manager.bloom), TokenIds(manager.requests[|old(manager.requests)|..]))
  }

  method RevokeSession(db: SessionTable, manager: TokenRevocationManager, jti: string, user: string, tenant: string)
    returns (ok: bool)
    requires manager.redis.Valid()
    modifies db, manager`bloom, manager`requests, manager.redis
    ensures manager.redis.Valid()
    ensures Revokes(db, manager, One(old(db.rows), jti, user, tenant))
    ensures ok <==> jti in old(db.rows) && old(db.rows)[jti].user == user && old(db.rows)[jti].tenant == tenant &&
                    !old(db.rows)[jti].revoked
    ensures db.rows == if ok then old(db.rows)[jti := old(db.rows)[jti].(revoked := true)] else old(db.rows)
    ensures manager.requests == old(manager.requests) + if ok then [Request(jti, user, tenant)] else []
    ensures manager.bloom == if ok then old(manager.bloom).Add(jti) else old(manager.bloom)
  {
    ghost var rows := db.rows;
    var selected := One(db.rows, jti, user, tenant);
    var result := db.Revoke(selected);
    if result != 0 {
      assert Owed(rows, selected) == {Request(jti, user, tenant)};
      ok := manager.RevokeToken(jti, user, tenant);
      ok := true;
    } else {
      assert Owed(rows, selected) == {};
      ok := false;
    }
  }

  function Changed(before: Table, after: Table): set<string> {
    set j | j in before && j in after && before[j] != after[j]
  }

  /** Exactly these rows of a query became revoked, and nothing else changed. */
  ghost predicate Ended(before: Table, after: Table, gone: set<string>, count: nat) {
    after.Keys == before.Keys && gone <= before.Keys && count == |Changed(before, after)| &&
    forall j :: j in before ==> after[j] == before[j].(revoked := before[j].revoked || j in gone)
  }

  lemma MarkedIsEnded(rows: Table, selected: set<string>)
    requires selected <= rows.Keys && forall j :: j in selected ==> !rows[j].revoked
    ensures Changed(rows, MarkRevoked(rows, selected)) == selected
    ensures Ended(rows, MarkRevoked(rows, selected), selected, |selected|)
  {}

  /** Revokes before it updates the rows; an empty exclusion excludes nothing. */
  method RevokeAllSessions(db: SessionTable, manager: TokenRevocationManager, user: string, tenant: string,
                           exclude: Option<string>)
    returns (count: nat)
    requires manager.redis.Valid()
    modifies db, manager`bloom, manager`requests, manager.redis
    ensures manager.redis.Valid()
    ensures Revokes(db, manager, AllOf(old(db.rows), user, tenant, exclude))
    ensures count == |AllOf(old(db.rows), user, tenant, exclude)|
    ensures Ended(old(db.rows), db.rows,
                  (set j | j in old(db.rows) && old(db.rows)[j].user == user && old(db.rows)[j].tenant == tenant &&
                           !old(db.rows)[j].revoked && (exclude == Some(j) ==> j == "")),
                  count)
  {
    ghost var rows, requests := db.rows, manager.requests;
    var selected := AllOf(db.rows, user, tenant, exclude);
    MarkedIsEnded(rows, selected);
    var jtis := Fetch(selected);
    OwnedRequests(rows, selected, user, tenant, jtis);
    if jtis == [] {
      assert selected == {};
      assert MarkRevoked(rows, {}) == rows;
      return 0;
    }
    var published := manager.RevokeUserTokens(user, tenant, jtis);
    assert manager.requests[|requests|..] == RequestsFor(user, tenant, jtis);
    RequestsForIds(user, tenant, jtis);
    count := db.Revoke(selected);
    count := |jtis|;
  }

  method AdminRevokeSession(db: SessionTable, manager: TokenRevocationManager, jti: string, tenant: string)
    returns (ok: bool)
    requires manager.redis.Valid()
    modifies db, manager`bloom, manager`requests, manager.redis
    ensures manager.redis.Valid()
    ensures Revokes(db, manager, InTenant(old(db.rows), jti, tenant))
    ensures ok <==> jti in old(db.rows) && old(db.rows)[jti].tenant == tenant && !old(db.rows)[jti].revoked
    ensures db.rows == if ok then old(db.rows)[jti := old(db.rows)[jti].(revoked := true)] else old(db.rows)
    ensures manager.requests ==
            old(manager.requests) + if ok then [Request(jti, old(db.rows)[jti].user, tenant)] else []
  {
    ghost var rows := db.rows;
    var selected := InTenant(db.rows, jti, tenant);
    if jti !in db.rows || db.rows[jti].tenant != tenant {
      assert MarkRevoked(rows, {}) == rows;
      return false;
    }
    var user := db.rows[jti].user;
    var result := db.Revoke(selected);
    if result != 0 {
      assert Owed(rows, selected) == {Request(jti, user, tenant)};
      ok := manager.RevokeToken(jti, user, tenant);
      ok := true;
    } else {
      assert Owed(rows, selected) == {};
      ok := false;
    }
  }

  /** The groups of these users have been published, and nothing else. */
  ghost predicate GroupsSent(requests: seq<Request>, bloom: Bloom, requests': seq<Request>, bloom': Bloom,
                             users: seq<string>, found: seq<Found>, tenant: string) {
    var sent := ByGroup(users, found, tenant);
    requests' == requests + sent && bloom' == AddAll(bloom, TokenIds(sent))
  }

  lemma ByGroupStep(requests: seq<Request>, bloom: Bloom, requests': seq<Request>, bloom': Bloom,
                    users: seq<string>, n: nat, found: seq<Found>, tenant: string)
    requires n < |users| && GroupsSent(requests, bloom, requests', bloom', users[..n], found, tenant)
    ensures var jtis := OfUser(found, users[n]);
            GroupsSent(requests, bloom, requests' + RequestsFor(users[n], tenant, jtis), AddAll(bloom', jtis),
                       users[..n + 1], found, tenant)
  {
    var before, jtis := ByGroup(users[..n], found, tenant), OfUser(found, users[n]);
    assert users[..n + 1][..n] == users[..n];
    assert TokenIds(before + RequestsFor(users[n], tenant, jtis)) == TokenIds(before) + jtis;
    AddAllSplits(bloom, TokenIds(before), jtis);
  }

  /** Publishes the groups one after the other. */
  method PublishGroups(manager: TokenRevocationManager, users: seq<string>, groups: map<string, seq<string>>,
                       tenant: string, ghost found: seq<Found>)
    requires manager.redis.Valid() && forall u :: u in users ==> u in groups && groups[u] == OfUser(found, u)
    modifies manager`bloom, manager`requests, manager.redis
    ensures manager.redis.Valid()
    ensures GroupsSent(old(manager.requests), old(manager.bloom), manager.requests, manager.bloom, users, found, tenant)
  {
    ghost var requests, bloom := manager.requests, manager.bloom;
    assert users[..0] == [];
    for n := 0 to |users|
      invariant manager.redis.Valid()
      invariant GroupsSent(requests, bloom, manager.requests, manager.bloom, users[..n], found, tenant)
    {
      ByGroupStep(requests, bloom, manager.requests, manager.bloom, users, n, found, tenant);
      var user := users[n];
      var published := manager.RevokeUserTokens(user, tenant, groups[user]);
    }
    assert users[..|users|] == users;
  }

  function FoundIn(rows: Table, jtis: seq<string>): seq<Found>
    requires forall j :: j in jtis ==> j in rows
  {
    seq(|jtis|, i requires 0 <= i < |jtis| => Found(jtis[i], rows[jtis[i]].user))
  }

  /** The revocations of rows of several users, whatever the order of the rows. */
  lemma {:induction false} FoundRequests(rows: Table, selected: set<string>, tenant: string, jtis: seq<string>)
    requires multiset(jtis) == multiset(selected) && selected <= rows.Keys
    requires forall j :: j in selected ==> rows[j].tenant == tenant
    requires forall j :: j in jtis ==> j in rows
    ensures multiset(AsRequests(FoundIn(rows, jtis), tenant)) == multiset(Owed(rows, selected))
    ensures |jtis| == |selected|
  {
    assert |multiset(jtis)| == |multiset(selected)|;
    if jtis == [] {
      assert |selected| == 0;
      assert Owed(rows, {}) == {};
    } else {
      var init, last := jtis[..|jtis| - 1], jtis[|jtis| - 1];
      assert jtis == init + [last];
      assert last in multiset(jtis);
      WithoutLast(jtis, selected);
      FoundRequests(rows, selected - {last}, tenant, init);
      var request := Request(last, rows[last].user, tenant);
      assert AsRequests(FoundIn(rows, jtis), tenant) == AsRequests(FoundIn(rows, init), tenant) + [request];
      assert Owed(rows, selected) == Owed(rows, selected - {last}) + {request};
    }
  }

  /**
   Whatever duplicates or foreign ids the list holds, every matching active row is
   revoked and published once, under its own user, and the count is the rows changed.
   */
  method AdminBulkRevokeSessions(db: SessionTable, manager: TokenRevocationManager, jtis: seq<string>, tenant: string)
    returns (count: nat)
    requires manager.redis.Valid()
    modifies db, manager`bloom, manager`requests, manager.redis
    ensures manager.redis.Valid()
    ensures Revokes(db, manager, Listed(old(db.rows), jtis, tenant))
    ensures count == |Listed(old(db.rows), jtis, tenant)|
    ensures Ended(old(db.rows), db.rows,
                  (set j | j in old(db.rows) && j in jtis && old(db.rows)[j].tenant == tenant && !old(db.rows)[j].revoked),
                  count)
  {
    ghost var rows, requests := db.rows, manager.requests;
    var selected := Listed(db.rows, jtis, tenant);
    MarkedIsEnded(rows, selected);
    if jtis == [] {
      assert selected == {};
      assert MarkRevoked(rows, {}) == rows;
      return 0;
    }
    var ids := Fetch(selected);
    forall j | j in ids ensures j in rows { assert j in multiset(ids); }
    var found := FoundIn(db.rows, ids);
    FoundRequests(rows, selected, tenant, ids);
    if found == [] {
      assert selected == {};
      assert MarkRevoked(rows, {}) == rows;
      return 0;
    }
    count := db.Revoke(selected);
    var users, groups := GroupByUser(found);
    PublishGroups(manager, users, groups, tenant, found);
    GroupsPartition(users, found, tenant);
    assert manager.requests[|requests|..] == ByGroup(users, found, tenant);
    count := |found|;
  }

  method CleanupExpiredSessions(db: SessionTable, now: int) returns (count: nat)
    modifies db
    ensures db.rows == Cleaned(old(db.rows), now) && count == |old(db.rows).Keys| - |db.rows.Keys|
    ensures forall j, row :: j in db.rows && db.rows[j] == row <==>
              j in old(db.rows) && old(db.rows)[j] == row && row.expires + 7 * 24 * 3600 >= now
  {
    var kept := map j | j in db.rows && db.rows[j].expires >= now - KEPT_AFTER_EXPIRY :: db.rows[j];
    var gone := db.rows.Keys - kept.Keys;
    count := |gone|;
    db.rows := kept;
  }

  /*** Runs of requests ***/

  /** The table, and every revocation the handling worker's manager was asked for. */
  datatype State = State(rows: Table, sent: multiset<Request>)

  datatype Event =
    | Create(jti: string, user: string, tenant: string, expires: int)
    | Revoke(jti: string, user: string, tenant: string)
    | RevokeAll(user: string, tenant: string, exclude: Option<string>)
    | AdminRevoke(jti: string, tenant: string)
    | BulkRevoke(jtis: seq<string>, tenant: string)
    | Cleanup(now: int)

  /** The rows a request revokes. */
  function Selected(rows: Table, e: Event): (r: set<string>)
    ensures r <= rows.Keys && forall j :: j in r ==> !rows[j].revoked
  {
    match e
    case Create(_, _, _, _) => {}
    case Revoke(jti, user, tenant) => One(rows, jti, user, tenant)
    case RevokeAll(user, tenant, exclude) => AllOf(rows, user, tenant, exclude)
    case AdminRevoke(jti, tenant) => InTenant(rows, jti, tenant)
    case BulkRevoke(jtis, tenant) => Listed(rows, jtis, tenant)
    case Cleanup(_) => {}
  }

  function Step(s: State, e: Event): State {
    match e
    case Create(jti, user, tenant, expires) => s.(rows := Inserted(s.rows, jti, user, tenant, expires))
    case Cleanup(now) => s.(rows := Cleaned(s.rows, now))
    case _ =>
      var selected := Selected(s.rows, e);
      State(MarkRevoked(s.rows, selected), s.sent + multiset(Owed(s.rows, selected)))
  }

  /** What the methods above establish is exactly this step. */
  lemma RevokesIsStep(rows: Table, rows': Table, before: seq<Request>, after: seq<Request>, e: Event)
    requires !e.Create? && !e.Cleanup?
    requires rows' == MarkRevoked(rows, Selected(rows, e)) && Publishes(before, after, Owed(rows, Selected(rows, e)))
    ensures State(rows', multiset(after)) == Step(State(rows, multiset(before)), e)
  {
    assert after == before + after[|before|..];
  }

  function Run(s: State, events: seq<Event>): State
    decreases |events|
  {
    if events == [] then s else Run(Step(s, events[0]), events[1..])
  }

  /** A token id was never handed to the manager. */
  ghost predicate Unsent(s: State, jti: string) {
    forall r :: r in s.sent ==> r.jti != jti
  }

  ghost predicate RowInv(s: State, jti: string)
    requires jti in s.rows
  {
    var row := s.rows[jti];
    if row.revoked then s.sent[Request(jti, row.user, row.tenant)] == 1 else Unsent(s, jti)
  }

  /**
   Every row marked revoked has been published, once; no active row has been; and
   no token id was ever published twice.
   */
  ghost predicate Inv(s: State) {
    (forall j :: j in s.rows ==> RowInv(s, j)) &&
    (forall r, r' :: r in s.sent && r' in s.sent && r.jti == r'.jti ==> r == r') &&
    (forall r :: r in s.sent ==> s.sent[r] == 1)
  }

  /** A new session's token id is not one that was revoked and whose row has been cleaned up. */
  ghost predicate FreshStep(s: State, e: Event) {
    e.Create? && e.jti !in s.rows ==> Unsent(s, e.jti)
  }

  ghost predicate FreshRun(s: State, events: seq<Event>)
    decreases |events|
  {
    events == [] || (FreshStep(s, events[0]) && FreshRun(Step(s, events[0]), events[1..]))
  }

  lemma RevokingKeepsInv(s: State, selected: set<string>)
    requires Inv(s) && selected <= s.rows.Keys && forall j :: j in selected ==> !s.rows[j].revoked
    ensures Inv(State(MarkRevoked(s.rows, selected), s.sent + multiset(Owed(s.rows, selected))))
  {}

  lemma StepKeepsInv(s: State, e: Event)
    requires Inv(s) && FreshStep(s, e)
    ensures Inv(Step(s, e))
  {
    match e
    case Create(jti, _, _, _) =>
      forall j | j in Step(s, e).rows ensures RowInv(Step(s, e), j) {
        assert j in s.rows ==> RowInv(s, j);
      }
    case Cleanup(_) =>
      forall j | j in Step(s, e).rows ensures RowInv(Step(s, e), j) { assert RowInv(s, j); }
    case _ => RevokingKeepsInv(s, Selected(s.rows, e));
  }

  /** The freshness of new token ids is exactly what the invariant needs. */
  lemma StepKeepsInvIff(s: State, e: Event)
    requires Inv(s)
    ensures Inv(Step(s, e)) <==> FreshStep(s, e)
  {
    if FreshStep(s, e) {
      StepKeepsInv(s, e);
    } else {
      assert e.jti in Step(s, e).rows && !RowInv(Step(s, e), e.jti);
    }
  }

  lemma {:induction false} RunKeepsInv(s: State, events: seq<Event>)
    requires Inv(s) && FreshRun(s, events)
    ensures Inv(Run(s, events))
    decreases |events|
  {
    if events != [] {
      StepKeepsInv(s, events[0]);
      RunKeepsInv(Step(s, events[0]), events[1..]);
    }
  }

  /** In every run, revoked rows and published revocations correspond exactly. */
  lemma RevokedExactlyPublished(events: seq<Event>, jti: string)
    requires FreshRun(State(map[], multiset{}), events) && jti in Run(State(map[], multiset{}), events).rows
    ensures var s := Run(State(map[], multiset{}), events);
            var row := s.rows[jti];
            (row.revoked <==> !Unsent(s, jti)) &&
            (row.revoked ==> s.sent[Request(jti, row.user, row.tenant)] == 1)
  {
    var s := Run(State(map[], multiset{}), events);
    RunKeepsInv(State(map[], multiset{}), events);
    assert RowInv(s, jti);
    assert s.rows[jti].revoked ==> Request(jti, s.rows[jti].user, s.rows[jti].tenant) in s.sent;
  }

  /** The request may end the session: its own user's, for all or for that one, or an administrator's of its tenant. */
  predicate MayEnd(e: Event, jti: string, row: Session) {
    match e
    case Revoke(j, user, tenant) => j == jti && user == row.user && tenant == row.tenant
    case RevokeAll(user, tenant, exclude) => user == row.user && tenant == row.tenant && (exclude == Some(jti) ==> jti == "")
    case AdminRevoke(j, tenant) => j == jti && tenant == row.tenant
    case BulkRevoke(jtis, tenant) => jti in jtis && tenant == row.tenant
    case _ => false
  }

  /**
   A session that exists keeps its user, tenant and expiry in every run, until a cleanup
   seven days after its expiry, and becomes revoked exactly when some request of the run
   may end it: one of its own user in its own tenant, or of an administrator of that tenant.
   */
  lemma {:induction false} EndedByItsOwnIff(s: State, events: seq<Event>, jti: string)
    requires jti in s.rows && jti in Run(s, events).rows
    requires forall k :: 0 <= k < |events| && events[k].Cleanup? ==> s.rows[jti].expires + 7 * 24 * 3600 >= events[k].now
    ensures var row, row' := s.rows[jti], Run(s, events).rows[jti];
            row' == row.(revoked := row'.revoked) &&
            (row'.revoked <==> row.revoked || exists k :: 0 <= k < |events| && MayEnd(events[k], jti, row))
    decreases |events|
  {
    if events != [] {
      var t, rest := Step(s, events[0]), events[1..];
      assert jti in t.rows && t.rows[jti] == s.rows[jti].(revoked := t.rows[jti].revoked);
      assert t.rows[jti].revoked <==> s.rows[jti].revoked || MayEnd(events[0], jti, s.rows[jti]);
      forall k | 0 <= k < |rest| ensures rest[k] == events[k + 1] {}
      EndedByItsOwnIff(t, rest, jti);
      forall k | 0 <= k < |rest| ensures MayEnd(rest[k], jti, t.rows[jti]) <==> MayEnd(events[k + 1], jti, s.rows[jti]) {}
      if k :| 0 <= k < |events| && MayEnd(events[k], jti, s.rows[jti]) && k > 0 {
        assert MayEnd(rest[k - 1], jti, t.rows[jti]);
      }
    }
  }

  /** A row that is not there was never inserted, or expired seven days before some cleanup. */
  lemma {:induction false} CleanedOnlyWhenOld(s: State, events: seq<Event>, jti: string)
    requires jti in s.rows
    ensures jti in Run(s, events).rows ||
            exists k :: 0 <= k < |events| && events[k].Cleanup? && s.rows[jti].expires + 7 * 24 * 3600 < events[k].now
    decreases |events|
  {
    if events != [] {
      var t, rest := Step(s, events[0]), events[1..];
      if jti in t.rows {
        assert t.rows[jti].expires == s.rows[jti].expires;
        CleanedOnlyWhenOld(t, rest, jti);
        if k :| 0 <= k < |rest| && rest[k].Cleanup? && t.rows[jti].expires + 7 * 24 * 3600 < rest[k].now {
          assert events[k + 1] == rest[k];
        }
      }
    }
  }

  /** A filter that was given the published ids reports every one of them. */
  lemma PublishedArePresent(bloom: Bloom, requests: seq<Request>, sent: multiset<Request>, r: Request)
    requires multiset(requests) == sent && r in sent
    ensures AddAll(bloom, TokenIds(requests)).Contains(r.jti)
  {
    assert r in multiset(requests);
    var i :| 0 <= i < |requests| && requests[i] == r;
    assert TokenIds(requests)[i] == r.jti;
    NoFalseNegatives(bloom, TokenIds(requests), r.jti);
  }

  /**
   revoke_all leaves of that user's sessions in that tenant exactly the excluded one
   active, changes no other row, and its count is the number of rows it changed.
   */
  lemma RevokeAllIsExact(rows: Table, user: string, tenant: string, exclude: Option<string>)
    ensures var selected := AllOf(rows, user, tenant, exclude);
            var after := MarkRevoked(rows, selected);
            AllOf(after, user, tenant, None) ==
              (if exclude.Some? && exclude.value != "" then AllOf(rows, user, tenant, None) * {exclude.value} else {}) &&
            (forall j :: j in rows && (rows[j].user != user || rows[j].tenant != tenant) ==> after[j] == rows[j]) &&
            (forall j :: j in rows && rows[j].revoked ==> after[j] == rows[j]) &&
            selected == Changed(rows, after)
  {}

  /** What the list of ids selects does not depend on repetitions, order or ids of other tenants. */
  lemma BulkIgnoresNoise(rows: Table, jtis: seq<string>, others: seq<string>, tenant: string)
    requires forall j :: j in jtis ==> j in others
    requires forall j :: j in others && j !in jtis ==> j !in rows || rows[j].tenant != tenant || rows[j].revoked
    ensures Listed(rows, jtis, tenant) == Listed(rows, others, tenant)
    ensures Changed(rows, MarkRevoked(rows, Listed(rows, jtis, tenant))) == Listed(rows, jtis, tenant)
  {}
}
