/**
 Read-through caching of identity providers and policy templates: the cached
 services against the same services without a cache.

 Sources: app/services/federation_service.py (providers, 60 seconds) and
 app/services/policy_service.py (templates, 30 seconds).
 */
module Caches {
  import opened Common

  datatype Row<B> = Row(id: string, tenant: string, body: B)

  datatype ProviderBody = ProviderBody(issuer: string, protocol: string, settings: string)

  datatype TemplateBody = TemplateBody(policies: string, roles: seq<string>)

  /** Both tables, in order of creation. */
  datatype Db = Db(providers: seq<Row<ProviderBody>>, templates: seq<Row<TemplateBody>>)

  datatype Key = ProviderKey(tenant: string) | TemplateKey(tenant: string)

  datatype Answer =
    | Providers(providers: seq<Row<ProviderBody>>)
    | Templates(templates: seq<Row<TemplateBody>>)
    | Done
    | NotFound
    | Rejected

  /** The fields an update carries; a field left out keeps its value. */
  datatype ProviderPatch = ProviderPatch(issuer: Option<string>, protocol: Option<string>, settings: Option<string>)

  datatype Request =
    | List(key: Key)
    | CreateProvider(id: string, tenant: string, provider: ProviderBody)
    | UpdateProvider(id: string, tenant: string, patch: ProviderPatch)
    | DeleteProvider(id: string, tenant: string)
    | CreateTemplate(id: string, tenant: string, template: TemplateBody)
    | UpdateTemplate(id: string, tenant: string, policies: Option<string>, roles: Option<seq<string>>)
    | DeleteTemplate(id: string, tenant: string)

  function Ttl(key: Key): nat {
    if key.ProviderKey? then 60 else 30
  }

  /** The rows of a tenant, newest first. */
  function ListOf<B>(rows: seq<Row<B>>, tenant: string): seq<Row<B>> {
    if rows == [] then []
    else
      var last := rows[|rows| - 1];
      (if last.tenant == tenant then [last] else []) + ListOf(rows[..|rows| - 1], tenant)
  }

  function ListFor(db: Db, key: Key): Answer {
    match key
    case ProviderKey(tenant) => Providers(ListOf(db.providers, tenant))
    case TemplateKey(tenant) => Templates(ListOf(db.templates, tenant))
  }

  /*** What a connection sees ***/

  /**
   The templates table is under row-level security: a connection sees the rows of the
   tenant it is set to, which the request names beside its token.  Providers are not.
   */
  function Visible<B>(rows: seq<Row<B>>, conn: string): seq<Row<B>> {
    if rows == [] then []
    else
      var last := rows[|rows| - 1];
      Visible(rows[..|rows| - 1], conn) + if last.tenant == conn then [last] else []
  }

  function ListSeen(db: Db, conn: string, key: Key): Answer {
    match key
    case ProviderKey(tenant) => Providers(ListOf(db.providers, tenant))
    case TemplateKey(tenant) => Templates(ListOf(Visible(db.templates, conn), tenant))
  }

  predicate Own(conn: string, key: Key) {
    key.TemplateKey? ==> conn == key.tenant
  }

  lemma {:induction false} ListOfVisible<B>(rows: seq<Row<B>>, conn: string, tenant: string)
    ensures ListOf(Visible(rows, conn), tenant) == if conn == tenant then ListOf(rows, tenant) else []
  {
    if rows != [] {
      var init, last := rows[..|rows| - 1], rows[|rows| - 1];
      ListOfVisible(init, conn, tenant);
      if last.tenant == conn {
        assert (Visible(init, conn) + [last])[..|Visible(init, conn)|] == Visible(init, conn);
      } else {
        assert Visible(rows, conn) == Visible(init, conn);
      }
    }
  }

  /** A connection of another tenant sees no templates, and every connection sees all providers. */
  lemma SeenIffOwn(db: Db, conn: string, key: Key)
    ensures ListSeen(db, conn, key) == if Own(conn, key) then ListFor(db, key) else Templates([])
    ensures ListSeen(db, conn, key) == ListFor(db, key) <==> Own(conn, key) || ListFor(db, key) == Templates([])
  {
    if key.TemplateKey? { ListOfVisible(db.templates, conn, key.tenant); }
  }

  /*** The uncached service ***/

  predicate Has<B(==)>(rows: seq<Row<B>>, id: string, tenant: string) {
    exists i :: 0 <= i < |rows| && rows[i].id == id && rows[i].tenant == tenant
  }

  predicate IdTaken<B(==)>(rows: seq<Row<B>>, id: string) {
    exists i :: 0 <= i < |rows| && rows[i].id == id
  }

  predicate IssuerTaken(rows: seq<Row<ProviderBody>>, id: string, tenant: string, issuer: string) {
    exists i :: 0 <= i < |rows| && rows[i].id != id && rows[i].tenant == tenant && rows[i].body.issuer == issuer
  }

  function Rewrite<B>(rows: seq<Row<B>>, id: string, tenant: string, f: B -> B): seq<Row<B>> {
    seq(|rows|, i requires 0 <= i < |rows| =>
      if rows[i].id == id && rows[i].tenant == tenant then rows[i].(body := f(rows[i].body)) else rows[i])
  }

  function Without<B>(rows: seq<Row<B>>, id: string, tenant: string): seq<Row<B>> {
    if rows == [] then []
    else
      var last := rows[|rows| - 1];
      Without(rows[..|rows| - 1], id, tenant) + if last.id == id && last.tenant == tenant then [] else [last]
  }

  function BodyOf<B>(rows: seq<Row<B>>, id: string, tenant: string): (r: Option<B>)
    ensures r.Some? <==> Has(rows, id, tenant)
  {
    if rows == [] then None
    else
      var last := rows[|rows| - 1];
      if last.id == id && last.tenant == tenant then Some(last.body)
      else
        assert rows == rows[..|rows| - 1] + [last];
        BodyOf(rows[..|rows| - 1], id, tenant)
  }

  function Or<T>(o: Option<T>, d: T): T {
    if o.Some? then o.value else d
  }

  function Patched(p: ProviderBody, patch: ProviderPatch): ProviderBody {
    ProviderBody(Or(patch.issuer, p.issuer), Or(patch.protocol, p.protocol), Or(patch.settings, p.settings))
  }

  /** The effect and the answer of a request on the tables alone, on a connection set to that tenant. */
  function Apply(db: Db, conn: string, r: Request): (Db, Answer) {
    match r
    case List(key) => (db, ListSeen(db, conn, key))
    case CreateProvider(id, tenant, p) =>
      if p.protocol != "oidc" || IdTaken(db.providers, id) || IssuerTaken(db.providers, id, tenant, p.issuer)
      then (db, Rejected)
      else (db.(providers := db.providers + [Row(id, tenant, p)]), Done)
    case UpdateProvider(id, tenant, patch) =>
      (match BodyOf(db.providers, id, tenant)
       case None => (db, NotFound)
       case Some(p) =>
         if Patched(p, patch).protocol != "oidc" || IssuerTaken(db.providers, id, tenant, Patched(p, patch).issuer)
         then (db, Rejected)
         else (db.(providers := Rewrite(db.providers, id, tenant, b => Patched(b, patch))), Done))
    case DeleteProvider(id, tenant) =>
      (db.(providers := Without(db.providers, id, tenant)), if Has(db.providers, id, tenant) then Done else NotFound)
    case CreateTemplate(id, tenant, t) =>
      if conn != tenant || IdTaken(db.templates, id) then (db, Rejected)
      else (db.(templates := db.templates + [Row(id, tenant, t)]), Done)
    case UpdateTemplate(id, tenant, policies, roles) =>
      if !Has(Visible(db.templates, conn), id, tenant) then (db, NotFound)
      else
        (db.(templates := Rewrite(db.templates, id, tenant,
                                  (b: TemplateBody) => TemplateBody(Or(policies, b.policies), Or(roles, b.roles)))),
         Done)
    case DeleteTemplate(id, tenant) =>
      if !Has(Visible(db.templates, conn), id, tenant) then (db, NotFound)
      else (db.(templates := Without(db.templates, id, tenant)), Done)
  }

  /** The cache key a write deletes; a provider deletion deletes it even when nothing was there. */
  function Invalidated(db: Db, conn: string, r: Request): set<Key> {
    match r
    case List(_) => {}
    case DeleteProvider(_, tenant) => {ProviderKey(tenant)}
    case CreateProvider(_, tenant, _) => if Apply(db, conn, r).1.Done? then {ProviderKey(tenant)} else {}
    case UpdateProvider(_, tenant, _) => if Apply(db, conn, r).1.Done? then {ProviderKey(tenant)} else {}
    case CreateTemplate(_, tenant, _) => if Apply(db, conn, r).1.Done? then {TemplateKey(tenant)} else {}
    case UpdateTemplate(_, tenant, _, _) => if Apply(db, conn, r).1.Done? then {TemplateKey(tenant)} else {}
    case DeleteTemplate(_, tenant) => if Apply(db, conn, r).1.Done? then {TemplateKey(tenant)} else {}
  }

  /*** What the requests write and list ***/

  /** The list holds the tenant's rows, each as often as the table does, newest first. */
  lemma {:induction false} ListIsNewestFirst<B>(rows: seq<Row<B>>, tenant: string) returns (at: seq<nat>)
    ensures |at| == |ListOf(rows, tenant)|
    ensures forall k :: 0 <= k < |at| ==> at[k] < |rows| && ListOf(rows, tenant)[k] == rows[at[k]]
    ensures forall j, k :: 0 <= j < k < |at| ==> at[j] > at[k]
    ensures forall i: nat :: i < |rows| ==> (i in at <==> rows[i].tenant == tenant)
  {
    if rows == [] {
      at := [];
    } else {
      var n := |rows| - 1;
      var rest := ListIsNewestFirst(rows[..n], tenant);
      at := (if rows[n].tenant == tenant then [n] else []) + rest;
    }
  }

  /** No row but the one in the middle has this id in this tenant. */
  ghost predicate Sole<B>(a: seq<Row<B>>, id: string, tenant: string, b: seq<Row<B>>) {
    (forall i :: 0 <= i < |a| ==> a[i].id != id || a[i].tenant != tenant) &&
    (forall i :: 0 <= i < |b| ==> b[i].id != id || b[i].tenant != tenant)
  }

  lemma {:induction false} WithoutNone<B>(rows: seq<Row<B>>, id: string, tenant: string)
    requires forall i :: 0 <= i < |rows| ==> rows[i].id != id || rows[i].tenant != tenant
    ensures Without(rows, id, tenant) == rows && BodyOf(rows, id, tenant) == None && !Has(rows, id, tenant)
  {
    if rows != [] { WithoutNone(rows[..|rows| - 1], id, tenant); }
  }

  lemma {:induction false} WithoutSole<B>(a: seq<Row<B>>, row: Row<B>, b: seq<Row<B>>)
    requires Sole(a, row.id, row.tenant, b)
    ensures Without(a + [row] + b, row.id, row.tenant) == a + b
    ensures BodyOf(a + [row] + b, row.id, row.tenant) == Some(row.body) && Has(a + [row] + b, row.id, row.tenant)
  {
    var rows := a + [row] + b;
    assert rows[|a|] == row;
    if b == [] {
      assert rows[..|rows| - 1] == a;
      WithoutNone(a, row.id, row.tenant);
    } else {
      var init, last := b[..|b| - 1], b[|b| - 1];
      WithoutSole(a, row, init);
      WithoutSnoc(a + [row] + init, last, row.id, row.tenant);
      assert rows == a + [row] + init + [last] && a + init + [last] == a + b;
    }
  }

  lemma WithoutSnoc<B>(rows: seq<Row<B>>, last: Row<B>, id: string, tenant: string)
    requires last.id != id || last.tenant != tenant
    ensures Without(rows + [last], id, tenant) == Without(rows, id, tenant) + [last]
    ensures BodyOf(rows + [last], id, tenant) == BodyOf(rows, id, tenant)
  {
    assert (rows + [last])[..|rows|] == rows;
  }

  lemma RewriteSole<B>(a: seq<Row<B>>, row: Row<B>, b: seq<Row<B>>, f: B -> B)
    requires Sole(a, row.id, row.tenant, b)
    ensures Rewrite(a + [row] + b, row.id, row.tenant, f) == a + [row.(body := f(row.body))] + b
  {}

  /** Another provider of the tenant has the issuer. */
  ghost predicate Clashes(rows: seq<Row<ProviderBody>>, id: string, tenant: string, issuer: string) {
    exists i :: 0 <= i < |rows| && rows[i].id != id && rows[i].tenant == tenant && rows[i].body.issuer == issuer
  }

  /**
   A new provider comes last; an update replaces, of the row with that id in that tenant,
   the fields it gives; a deletion removes that row.  Protocols other than OIDC and an
   issuer the tenant has already are rejected, and a rejected or missed write changes nothing.
   */
  lemma ProviderWritesMean(db: Db, conn: string, a: seq<Row<ProviderBody>>, row: Row<ProviderBody>, b: seq<Row<ProviderBody>>,
                           patch: ProviderPatch, other: Row<ProviderBody>)
    requires db.providers == a + [row] + b && Sole(a, row.id, row.tenant, b)
    requires forall i :: 0 <= i < |db.providers| ==> db.providers[i].id != other.id
    ensures Apply(db, conn, CreateProvider(other.id, other.tenant, other.body)) ==
            if other.body.protocol != "oidc" || Clashes(db.providers, other.id, other.tenant, other.body.issuer)
            then (db, Rejected)
            else (db.(providers := db.providers + [other]), Done)
    ensures Apply(db, conn, CreateProvider(row.id, other.tenant, other.body)) == (db, Rejected)
    ensures var p := ProviderBody(if patch.issuer.Some? then patch.issuer.value else row.body.issuer,
                                  if patch.protocol.Some? then patch.protocol.value else row.body.protocol,
                                  if patch.settings.Some? then patch.settings.value else row.body.settings);
            Apply(db, conn, UpdateProvider(row.id, row.tenant, patch)) ==
            if p.protocol != "oidc" || Clashes(db.providers, row.id, row.tenant, p.issuer) then (db, Rejected)
            else (db.(providers := a + [row.(body := p)] + b), Done)
    ensures Apply(db, conn, UpdateProvider(other.id, other.tenant, patch)) == (db, NotFound)
  {
    WithoutSole(a, row, b);
    WithoutNone(db.providers, other.id, other.tenant);
    assert db.providers[|a|] == row;
    RewriteSole(a, row, b, body => Patched(body, patch));
  }

  /** A provider deletion takes that row alone, or finds nothing. */
  lemma ProviderDeletesMean(db: Db, conn: string,
                            a: seq<Row<ProviderBody>>, row: Row<ProviderBody>, b: seq<Row<ProviderBody>>)
    requires db.providers == a + b || (db.providers == a + [row] + b && Sole(a, row.id, row.tenant, b))
    requires forall i :: 0 <= i < |a + b| ==> (a + b)[i].id != row.id
    ensures Apply(db, conn, DeleteProvider(row.id, row.tenant)) ==
            (db.(providers := a + b), if |db.providers| == |a + b| then NotFound else Done)
  {
    if db.providers == a + b { WithoutNone(a + b, row.id, row.tenant); } else { WithoutSole(a, row, b); }
  }

  /** The same of templates, on a connection of the tenant; on any other every write is refused or finds nothing. */
  lemma TemplateWritesMean(db: Db, a: seq<Row<TemplateBody>>, row: Row<TemplateBody>, b: seq<Row<TemplateBody>>,
                           policies: Option<string>, roles: Option<seq<string>>, other: Row<TemplateBody>, conn: string)
    requires db.templates == a + [row] + b && Sole(a, row.id, row.tenant, b)
    requires forall i :: 0 <= i < |db.templates| ==> db.templates[i].id != other.id
    ensures Apply(db, conn, CreateTemplate(other.id, other.tenant, other.body)) ==
            if conn == other.tenant then (db.(templates := db.templates + [other]), Done) else (db, Rejected)
    ensures Apply(db, conn, CreateTemplate(row.id, other.tenant, other.body)) == (db, Rejected)
    ensures var body := TemplateBody(if policies.Some? then policies.value else row.body.policies,
                                     if roles.Some? then roles.value else row.body.roles);
            Apply(db, conn, UpdateTemplate(row.id, row.tenant, policies, roles)) ==
            if conn == row.tenant then (db.(templates := a + [row.(body := body)] + b), Done) else (db, NotFound)
    ensures Apply(db, conn, UpdateTemplate(other.id, other.tenant, policies, roles)) == (db, NotFound)
  {
    WithoutSole(a, row, b);
    assert db.templates[|a|] == row;
    RewriteSole(a, row, b, (body: TemplateBody) => TemplateBody(Or(policies, body.policies), Or(roles, body.roles)));
    HasVisible(db.templates, conn, row.id, row.tenant);
    HasVisible(db.templates, conn, other.id, other.tenant);
  }

  /** A template deletion takes that row alone on its tenant's connection, and finds nothing on another. */
  lemma TemplateDeletesMean(db: Db, conn: string,
                            a: seq<Row<TemplateBody>>, row: Row<TemplateBody>, b: seq<Row<TemplateBody>>)
    requires db.templates == a + b || (db.templates == a + [row] + b && Sole(a, row.id, row.tenant, b))
    requires forall i :: 0 <= i < |a + b| ==> (a + b)[i].id != row.id
    ensures Apply(db, conn, DeleteTemplate(row.id, row.tenant)) ==
            if conn == row.tenant && |db.templates| > |a + b| then (db.(templates := a + b), Done) else (db, NotFound)
  {
    HasVisible(db.templates, conn, row.id, row.tenant);
    if db.templates == a + b { WithoutNone(a + b, row.id, row.tenant); } else { WithoutSole(a, row, b); }
  }

  lemma {:induction false} HasVisible<B>(rows: seq<Row<B>>, conn: string, id: string, tenant: string)
    ensures Has(Visible(rows, conn), id, tenant) <==> conn == tenant && Has(rows, id, tenant)
  {
    if rows != [] {
      var init, last := rows[..|rows| - 1], rows[|rows| - 1];
      HasVisible(init, conn, id, tenant);
      assert rows == init + [last];
      HasSnoc(init, last, id, tenant);
      HasSnoc(Visible(init, conn), last, id, tenant);
      assert Visible(rows, conn) == if last.tenant == conn then Visible(init, conn) + [last] else Visible(init, conn);
    }
  }

  lemma HasSnoc<B>(rows: seq<Row<B>>, row: Row<B>, id: string, tenant: string)
    ensures Has(rows + [row], id, tenant) <==> Has(rows, id, tenant) || (row.id == id && row.tenant == tenant)
  {
    var all := rows + [row];
    if Has(rows, id, tenant) {
      var i :| 0 <= i < |rows| && rows[i].id == id && rows[i].tenant == tenant;
      assert all[i] == rows[i];
    }
    if row.id == id && row.tenant == tenant { assert all[|rows|] == row; }
  }

  /*** The cached service ***/

  datatype Entry = Entry(value: Answer, expires: int)

  datatype State = State(clock: int, db: Db, cache: map<Key, Entry>)

  /** `redis` tells whether the caller passed a connection; entries may also vanish at any time. */
  datatype Event = Tick(seconds: nat) | Evict(key: Key) | Serve(conn: string, request: Request, redis: bool)

  predicate Hit(s: State, key: Key) {
    key in s.cache && s.clock < s.cache[key].expires
  }

  function Handle(s: State, e: Event): (State, Option<Answer>) {
    match e
    case Tick(d) => (s.(clock := s.clock + d), None)
    case Evict(key) => (s.(cache := s.cache - {key}), None)
    case Serve(conn, List(key), redis) =>
      if redis && Hit(s, key) then (s, Some(s.cache[key].value))
      else
        var list := ListSeen(s.db, conn, key);
        (if redis then s.(cache := s.cache[key := Entry(list, s.clock + Ttl(key))]) else s, Some(list))
    case Serve(conn, r, redis) =>
      var (db, answer) := Apply(s.db, conn, r);
      (State(s.clock, db, if redis then s.cache - Invalidated(s.db, conn, r) else s.cache), Some(answer))
  }

  function Step(s: State, e: Event): State {
    Handle(s, e).0
  }

  function Answers(s: State, events: seq<Event>): seq<Option<Answer>>
    decreases |events|
  {
    if events == [] then [] else [Handle(s, events[0]).1] + Answers(Step(s, events[0]), events[1..])
  }

  function Uncached(db: Db, e: Event): (Db, Option<Answer>) {
    match e
    case Serve(conn, r, _) => (Apply(db, conn, r).0, Some(Apply(db, conn, r).1))
    case _ => (db, None)
  }

  function UncachedAnswers(db: Db, events: seq<Event>): seq<Option<Answer>>
    decreases |events|
  {
    if events == [] then []
    else [Uncached(db, events[0]).1] + UncachedAnswers(Uncached(db, events[0]).0, events[1..])
  }

  /*** Coherence ***/

  /** Every entry that a read would use is the list the tables would give. */
  ghost predicate Coherent(s: State) {
    forall key :: Hit(s, key) ==> s.cache[key].value == ListFor(s.db, key)
  }

  lemma {:induction false} ListOfSame<B>(a: seq<Row<B>>, b: seq<Row<B>>, tenant: string)
    requires |a| == |b|
    requires forall i :: 0 <= i < |a| ==> a[i].tenant == b[i].tenant && (a[i].tenant == tenant ==> a[i] == b[i])
    ensures ListOf(a, tenant) == ListOf(b, tenant)
  {
    if a != [] { ListOfSame(a[..|a| - 1], b[..|b| - 1], tenant); }
  }

  lemma {:induction false} ListOfWithout<B>(rows: seq<Row<B>>, id: string, tenant: string, other: string)
    requires other != tenant || !Has(rows, id, tenant)
    ensures ListOf(Without(rows, id, tenant), other) == ListOf(rows, other)
  {
    if rows != [] {
      var init, last := rows[..|rows| - 1], rows[|rows| - 1];
      assert Has(init, id, tenant) ==> Has(rows, id, tenant) by {
        if Has(init, id, tenant) {
          var i :| 0 <= i < |init| && init[i].id == id && init[i].tenant == tenant;
          assert rows[i] == init[i];
        }
      }
      ListOfWithout(init, id, tenant, other);
      assert last == rows[|rows| - 1];
      if !(last.id == id && last.tenant == tenant) {
        assert (Without(init, id, tenant) + [last])[..|Without(init, id, tenant)|] == Without(init, id, tenant);
      } else {
        assert Without(rows, id, tenant) == Without(init, id, tenant);
      }
    }
  }

  lemma ListOfSnoc<B>(rows: seq<Row<B>>, row: Row<B>, tenant: string)
    requires row.tenant != tenant
    ensures ListOf(rows + [row], tenant) == ListOf(rows, tenant)
  {}

  /** A request changes no list but the one whose key it deletes. */
  lemma OnlyInvalidatedListsChange(db: Db, conn: string, r: Request, key: Key)
    requires key !in Invalidated(db, conn, r)
    ensures ListFor(Apply(db, conn, r).0, key) == ListFor(db, key)
  {
    var (db', answer) := Apply(db, conn, r);
    match r
    case List(_) =>
    case CreateProvider(id, tenant, p) =>
      if key.ProviderKey? && answer.Done? { ListOfSnoc(db.providers, Row(id, tenant, p), key.tenant); }
    case UpdateProvider(id, tenant, patch) =>
      if key.ProviderKey? && answer.Done? { ListOfSame(db'.providers, db.providers, key.tenant); }
    case DeleteProvider(id, tenant) =>
      if key.ProviderKey? { ListOfWithout(db.providers, id, tenant, key.tenant); }
    case CreateTemplate(id, tenant, t) =>
      if key.TemplateKey? && answer.Done? { ListOfSnoc(db.templates, Row(id, tenant, t), key.tenant); }
    case UpdateTemplate(id, tenant, policies, roles) =>
      if key.TemplateKey? && answer.Done? { ListOfSame(db'.templates, db.templates, key.tenant); }
    case DeleteTemplate(id, tenant) =>
      if key.TemplateKey? && answer.Done? { ListOfWithout(db.templates, id, tenant, key.tenant); }
  }

  /**
   A read through the cache is safe when its connection is set to the tenant of the list,
   or that list is empty; a write when it passes a cache connection, or changes no list
   that is cached.
   */
  ghost predicate SafeStep(s: State, e: Event) {
    e.Serve? ==>
      if e.request.List? then e.redis ==> ReadsOwn(s.db, e.conn, e.request.key)
      else !e.redis ==> forall key :: Hit(s, key) ==> ListFor(Apply(s.db, e.conn, e.request).0, key) == ListFor(s.db, key)
  }

  predicate ReadsOwn(db: Db, conn: string, key: Key) {
    Own(conn, key) || ListFor(db, key) == Templates([])
  }

  /** One step cannot be told from the uncached service, now or by a later read. */
  ghost predicate Invisible(s: State, e: Event) {
    Coherent(Step(s, e)) && Handle(s, e).1 == Uncached(s.db, e).1
  }

  /** Safety is exactly what one step needs. */
  lemma StepIsInvisibleIff(s: State, e: Event)
    requires Coherent(s)
    ensures Invisible(s, e) <==> SafeStep(s, e)
    ensures Step(s, e).db == Uncached(s.db, e).0
  {
    if e.Serve? && e.request.List? {
      SeenIffOwn(s.db, e.conn, e.request.key);
      if e.redis && !Hit(s, e.request.key) { assert Hit(Step(s, e), e.request.key); }
    } else if e.Serve? {
      WriteIsInvisibleIff(s, e);
    }
  }

  lemma WriteIsInvisibleIff(s: State, e: Event)
    requires Coherent(s) && e.Serve? && !e.request.List?
    ensures Invisible(s, e) <==> SafeStep(s, e)
  {
    var t := Step(s, e);
    if e.redis {
      forall key | Hit(t, key) ensures t.cache[key].value == ListFor(t.db, key) {
        assert Hit(s, key);
        OnlyInvalidatedListsChange(s.db, e.conn, e.request, key);
      }
    } else if !SafeStep(s, e) {
      var key :| Hit(s, key) && ListFor(Apply(s.db, e.conn, e.request).0, key) != ListFor(s.db, key);
      assert Hit(t, key);
    }
  }

  ghost predicate SafeRun(s: State, events: seq<Event>)
    decreases |events|
  {
    events == [] || (SafeStep(s, events[0]) && SafeRun(Step(s, events[0]), events[1..]))
  }

  ghost predicate InvisibleRun(s: State, events: seq<Event>)
    decreases |events|
  {
    events == [] || (Invisible(s, events[0]) && InvisibleRun(Step(s, events[0]), events[1..]))
  }

  /** Over a run, every step is invisible exactly when every step is safe. */
  lemma {:induction false} CachingIsInvisibleIff(s: State, events: seq<Event>)
    requires Coherent(s)
    ensures InvisibleRun(s, events) <==> SafeRun(s, events)
    decreases |events|
  {
    if events != [] {
      StepIsInvisibleIff(s, events[0]);
      if SafeStep(s, events[0]) { CachingIsInvisibleIff(Step(s, events[0]), events[1..]); }
    }
  }

  /** An invisible run gives the answers of the service without a cache. */
  lemma {:induction false} InvisibleRunsMatch(s: State, events: seq<Event>)
    requires InvisibleRun(s, events)
    ensures Answers(s, events) == UncachedAnswers(s.db, events)
    decreases |events|
  {
    if events != [] {
      assert Step(s, events[0]).db == Uncached(s.db, events[0]).0;
      InvisibleRunsMatch(Step(s, events[0]), events[1..]);
    }
  }

  /** Every write passes a cache connection, as the API does. */
  predicate AlwaysConnected(events: seq<Event>) {
    forall i :: 0 <= i < |events| && events[i].Serve? && !events[i].request.List? ==> events[i].redis
  }

  /**
   On the tables alone: each template read through the cache is on its tenant's connection,
   or finds that tenant without templates.
   */
  predicate ReadsOwnRun(db: Db, events: seq<Event>)
    decreases |events|
  {
    events == [] ||
    ((events[0].Serve? && events[0].request.List? && events[0].redis ==>
       ReadsOwn(db, events[0].conn, events[0].request.key)) &&
     ReadsOwnRun(Uncached(db, events[0]).0, events[1..]))
  }

  lemma {:induction false} ConnectedRunsAreSafeIff(s: State, events: seq<Event>)
    requires AlwaysConnected(events)
    ensures SafeRun(s, events) <==> ReadsOwnRun(s.db, events)
    decreases |events|
  {
    if events != [] {
      forall i | 0 <= i < |events| - 1 ensures events[1..][i] == events[i + 1] {}
      assert Step(s, events[0]).db == Uncached(s.db, events[0]).0;
      ConnectedRunsAreSafeIff(Step(s, events[0]), events[1..]);
    }
  }

  /**
   From an empty cache, with connected writes, whatever reads, writes, expiries and
   evictions happen in whatever order: the cache cannot be noticed at any moment exactly
   when no template read is on a foreign connection while its tenant has templates.
   */
  lemma ApiRunsMatchUncachedIff(clock: int, db: Db, events: seq<Event>)
    requires AlwaysConnected(events)
    ensures InvisibleRun(State(clock, db, map[]), events) <==> ReadsOwnRun(db, events)
    ensures ReadsOwnRun(db, events) ==> Answers(State(clock, db, map[]), events) == UncachedAnswers(db, events)
  {
    var s := State(clock, db, map[]);
    ConnectedRunsAreSafeIff(s, events);
    CachingIsInvisibleIff(s, events);
    if InvisibleRun(s, events) { InvisibleRunsMatch(s, events); }
  }

  /** If the run is safe, the cached service answers it as the uncached one. */
  ghost predicate Matches(s: State, events: seq<Event>) {
    SafeRun(s, events) ==> Answers(s, events) == UncachedAnswers(s.db, events)
  }

  /** Coherence is exactly what a client can tell: all safe continuations agree with the uncached service. */
  lemma CoherentIffInvisible(s: State)
    ensures Coherent(s) <==> forall events :: Matches(s, events)
  {
    if Coherent(s) {
      forall events | SafeRun(s, events) ensures Matches(s, events) {
        CachingIsInvisibleIff(s, events);
        InvisibleRunsMatch(s, events);
      }
    } else {
      var key :| Hit(s, key) && s.cache[key].value != ListFor(s.db, key);
      var events := [Serve(key.tenant, List(key), true)];
      SeenIffOwn(s.db, key.tenant, key);
      assert Answers(s, events)[0] == Some(s.cache[key].value);
      assert UncachedAnswers(s.db, events)[0] == Some(ListFor(s.db, key));
      assert Answers(s, events) != UncachedAnswers(s.db, events);
      assert SafeStep(s, events[0]) && events[1..] == [];
      assert SafeRun(Step(s, events[0]), events[1..]);
      assert !Matches(s, events);
    }
  }

  /**
   A read of t's templates on a connection of y, then one on t's own: the second is
   answered with no templates, although t has one.
   */
  lemma ForeignReadEmptiesList(clock: int, y: string, b: TemplateBody)
    requires y != "t"
    ensures var key, db := TemplateKey("t"), Db([], [Row("a", "t", b)]);
            var events := [Serve(y, List(key), true), Serve("t", List(key), true)];
            Answers(State(clock, db, map[]), events) == [Some(Templates([])), Some(Templates([]))] &&
            UncachedAnswers(db, events) == [Some(Templates([])), Some(Templates([Row("a", "t", b)]))]
  {
    var key, db := TemplateKey("t"), Db([], [Row("a", "t", b)]);
    var events := [Serve(y, List(key), true), Serve("t", List(key), true)];
    var s := State(clock, db, map[]);
    SeenIffOwn(db, y, key);
    SeenIffOwn(db, "t", key);
    OneRow(Row("a", "t", b));
    var t := Step(s, events[0]);
    assert Hit(t, key) && t.cache[key].value == Templates([]) && t.db == db;
    assert events[1..] == [Serve("t", List(key), true)] && events[1..][1..] == [];
    assert Handle(s, events[0]).1 == Some(Templates([])) && Handle(t, events[1]).1 == Some(Templates([]));
    assert Answers(t, events[1..]) == [Handle(t, events[1]).1];
    assert UncachedAnswers(db, events[1..]) == [Some(Templates([Row("a", "t", b)]))];
  }

  lemma OneRow<B>(row: Row<B>)
    ensures ListOf([row], row.tenant) == [row]
  {
    assert [row][..0] == [];
  }

  /*** Reads and writes cut into their database and cache steps ***/

  /** A list read whose database fetch is done and whose cache write is still to come. */
  datatype Pending = Pending(conn: string, key: Key, value: Answer, fetched: nat)

  datatype Stamped = Stamped(entry: Entry, conn: string, fetched: nat)

  datatype Moment = Moment(clock: int, db: Db)

  /**
   `past` is every state the tables were in, newest last; the other positions say
   which of them, and on which connection, a value was fetched.  `drops` are keys whose deletion is still to come.
   */
  datatype Shared = Shared(clock: int, past: seq<Moment>, cache: map<Key, Stamped>,
                           inFlight: seq<Pending>, drops: set<Key>)

  datatype Move =
    | Wait(seconds: nat)
    | Lose(key: Key)
    | Fetch(conn: string, key: Key)
    | Fill(read: nat)
    | Write(conn: string, request: Request, redis: bool)
    | Drop(key: Key)

  function Now(s: Shared): Db
    requires s.past != []
  {
    s.past[|s.past| - 1].db
  }

  function Act(s: Shared, m: Move): Shared
    requires s.past != []
  {
    match m
    case Wait(d) => s.(clock := s.clock + d, past := s.past + [Moment(s.clock + d, Now(s))])
    case Lose(key) => s.(cache := s.cache - {key})
    case Fetch(conn, key) =>
      s.(inFlight := s.inFlight + [Pending(conn, key, ListSeen(Now(s), conn, key), |s.past| - 1)])
    case Fill(i) =>
      if i < |s.inFlight| then
        var p := s.inFlight[i];
        s.(cache := s.cache[p.key := Stamped(Entry(p.value, s.clock + Ttl(p.key)), p.conn, p.fetched)])
      else s
    case Write(conn, r, redis) =>
      s.(past := s.past + [Moment(s.clock, Apply(Now(s), conn, r).0)],
         drops := if redis then s.drops + Invalidated(Now(s), conn, r) else s.drops)
    case Drop(key) => if key in s.drops then s.(cache := s.cache - {key}, drops := s.drops - {key}) else s
  }

  function Play(s: Shared, ms: seq<Move>): Shared
    requires s.past != []
    decreases |ms|
  {
    if ms == [] then s else Play(Act(s, ms[0]), ms[1..])
  }

  /** No read takes longer than this from its fetch to its cache write. */
  ghost predicate Brisk(s: Shared, ms: seq<Move>, limit: nat)
    requires s.past != []
    decreases |ms|
  {
    ms == [] ||
    ((ms[0].Fill? && ms[0].read < |s.inFlight| && s.inFlight[ms[0].read].fetched < |s.past| ==>
       s.clock <= s.past[s.inFlight[ms[0].read].fetched].clock + limit) &&
     Brisk(Act(s, ms[0]), ms[1..], limit))
  }

  /** The value is what the connection saw at a moment of the past. */
  ghost predicate Was(s: Shared, conn: string, key: Key, value: Answer, fetched: nat) {
    fetched < |s.past| && value == ListSeen(s.past[fetched].db, conn, key)
  }

  ghost predicate EntryWas(s: Shared, key: Key, limit: nat)
    requires key in s.cache
  {
    var e := s.cache[key];
    Was(s, e.conn, key, e.entry.value, e.fetched) && e.entry.expires <= s.past[e.fetched].clock + limit + Ttl(key)
  }

  /** A read in flight carries the list its connection saw when it was fetched. */
  ghost predicate FetchedInv(s: Shared) {
    s.past != [] &&
    forall i :: 0 <= i < |s.inFlight| ==>
      var p := s.inFlight[i];
      Was(s, p.conn, p.key, p.value, p.fetched)
  }

  ghost predicate SharedInv(s: Shared, limit: nat) {
    s.past != [] && s.past[|s.past| - 1].clock == s.clock &&
    FetchedInv(s) &&
    (forall key :: key in s.cache ==> EntryWas(s, key, limit))
  }

  lemma MoveKeepsFetched(s: Shared, m: Move)
    requires FetchedInv(s)
    ensures FetchedInv(Act(s, m))
  {}

  lemma {:induction false} MovesKeepInv(s: Shared, ms: seq<Move>, limit: nat)
    requires SharedInv(s, limit) && Brisk(s, ms, limit)
    ensures SharedInv(Play(s, ms), limit)
    decreases |ms|
  {
    if ms != [] {
      var t := Act(s, ms[0]);
      assert s.past <= t.past;
      MoveKeepsFetched(s, ms[0]);
      forall key | key in t.cache ensures EntryWas(t, key, limit) {
        if key in s.cache && t.cache[key] == s.cache[key] {
          assert EntryWas(s, key, limit);
        } else {
          var p := s.inFlight[ms[0].read];
          assert Was(s, p.conn, p.key, p.value, p.fetched);
        }
      }
      MovesKeepInv(t, ms[1..], limit);
    }
  }

  function Fresh(clock: int, db: Db): Shared {
    Shared(clock, [Moment(clock, db)], map[], [], {})
  }

  /**
   Bounded staleness: however fetches, cache writes, table writes and deletions
   interleave, whether or not writes pass a connection, and whatever the connections, a
   cached list is what its reader saw less than the time to live plus one read ago.  That
   was the tables' list exactly when the connection was the tenant's own or the list empty.
   */
  lemma StalenessIsBounded(clock: int, db: Db, ms: seq<Move>, limit: nat, key: Key)
    requires Brisk(Fresh(clock, db), ms, limit)
    requires var s := Play(Fresh(clock, db), ms); key in s.cache && s.clock < s.cache[key].entry.expires
    ensures var s := Play(Fresh(clock, db), ms);
            exists i :: 0 <= i < |s.past| &&
                        s.clock - s.past[i].clock < (if key.ProviderKey? then 60 else 30) + limit &&
                        s.cache[key].entry.value == ListSeen(s.past[i].db, s.cache[key].conn, key) &&
                        (s.cache[key].entry.value == ListFor(s.past[i].db, key) <==>
                          ReadsOwn(s.past[i].db, s.cache[key].conn, key))
  {
    MovesKeepInv(Fresh(clock, db), ms, limit);
    var s := Play(Fresh(clock, db), ms);
    assert EntryWas(s, key, limit);
    SeenIffOwn(s.past[s.cache[key].fetched].db, s.cache[key].conn, key);
  }

  /*** When an interleaved hit is current ***/

  predicate LiveEntry(s: Shared, key: Key) {
    key in s.cache && s.clock < s.cache[key].entry.expires
  }

  /** Every entry a read would use is the list of the tables now, unless its deletion is still to come. */
  ghost predicate Current(s: Shared)
    requires s.past != []
  {
    forall key :: LiveEntry(s, key) && key !in s.drops ==> s.cache[key].entry.value == ListFor(Now(s), key)
  }

  /**
   A fill comes while the writes since its fetch leave the key's list as it was, or, from a
   foreign connection, while that list is empty, or before a deletion of the key; a write
   without a connection changes no cached list.
   */
  ghost predicate Timely(s: Shared, m: Move)
    requires s.past != []
  {
    match m
    case Fill(i) =>
      i < |s.inFlight| ==>
        var p := s.inFlight[i];
        p.key in s.drops || FillsNow(s, p)
    case Write(conn, r, redis) =>
      !redis ==> forall key :: LiveEntry(s, key) && key !in s.drops ==>
                   ListFor(Apply(Now(s), conn, r).0, key) == ListFor(Now(s), key)
    case _ => true
  }

  predicate FillsNow(s: Shared, p: Pending)
    requires s.past != []
  {
    if Own(p.conn, p.key) then p.fetched < |s.past| && ListFor(s.past[p.fetched].db, p.key) == ListFor(Now(s), p.key)
    else ListFor(Now(s), p.key) == Templates([])
  }

  /** One move keeps the hits current exactly when it is timely. */
  lemma MoveKeepsCurrentIff(s: Shared, m: Move)
    requires FetchedInv(s) && Current(s)
    ensures Current(Act(s, m)) <==> Timely(s, m)
  {
    var t := Act(s, m);
    match m
    case Fill(i) =>
      if i < |s.inFlight| {
        var p, key := s.inFlight[i], s.inFlight[i].key;
        assert Was(s, p.conn, p.key, p.value, p.fetched);
        SeenIffOwn(s.past[p.fetched].db, p.conn, p.key);
        assert LiveEntry(t, key);
        assert forall k :: k != key ==> (LiveEntry(t, k) <==> LiveEntry(s, k));
      }
    case Write(conn, r, redis) =>
      WriteKeepsCurrentIff(s, conn, r, redis);
    case Wait(_) =>
      assert forall key :: LiveEntry(t, key) ==> LiveEntry(s, key);
    case Drop(_) =>
      assert forall key :: LiveEntry(t, key) ==> LiveEntry(s, key);
    case Lose(_) =>
      assert forall key :: LiveEntry(t, key) ==> LiveEntry(s, key);
    case Fetch(_, _) =>
  }

  lemma WriteKeepsCurrentIff(s: Shared, conn: string, r: Request, redis: bool)
    requires s.past != [] && Current(s)
    ensures Current(Act(s, Write(conn, r, redis))) <==> Timely(s, Write(conn, r, redis))
  {
    var t := Act(s, Write(conn, r, redis));
    assert Now(t) == Apply(Now(s), conn, r).0;
    forall key ensures LiveEntry(t, key) <==> LiveEntry(s, key) {}
    if redis {
      forall key | LiveEntry(t, key) && key !in t.drops ensures t.cache[key].entry.value == ListFor(Now(t), key) {
        OnlyInvalidatedListsChange(Now(s), conn, r, key);
      }
    }
  }

  ghost predicate TimelyRun(s: Shared, ms: seq<Move>)
    requires s.past != []
    decreases |ms|
  {
    ms == [] || (Timely(s, ms[0]) && TimelyRun(Act(s, ms[0]), ms[1..]))
  }

  /** Whenever the run is looked at, the hits are current. */
  ghost predicate StaysCurrent(s: Shared, ms: seq<Move>)
    requires s.past != []
  {
    forall k: nat :: k <= |ms| ==> Play(s, ms[..k]).past != [] && Current(Play(s, ms[..k]))
  }

  lemma StaysCurrentFromNext(s: Shared, ms: seq<Move>)
    requires s.past != [] && Current(s) && ms != []
    ensures StaysCurrent(s, ms) <==> StaysCurrent(Act(s, ms[0]), ms[1..])
  {
    var t, rest := Act(s, ms[0]), ms[1..];
    forall k: nat | k <= |rest| ensures Play(t, rest[..k]) == Play(s, ms[..k + 1]) {
      assert ms[..k + 1][1..] == rest[..k];
    }
    if StaysCurrent(t, rest) {
      forall k: nat | k <= |ms| ensures Play(s, ms[..k]).past != [] && Current(Play(s, ms[..k])) {
        if k > 0 { assert Play(t, rest[..k - 1]) == Play(s, ms[..k]); }
      }
    }
  }

  lemma {:induction false} RunStaysCurrentIff(s: Shared, ms: seq<Move>)
    requires FetchedInv(s) && Current(s)
    ensures StaysCurrent(s, ms) <==> TimelyRun(s, ms)
    decreases |ms|
  {
    if ms != [] {
      var t := Act(s, ms[0]);
      MoveKeepsFetched(s, ms[0]);
      StaysCurrentFromNext(s, ms);
      MoveKeepsCurrentIff(s, ms[0]);
      assert ms[1..][..0] == [];
      if Current(t) {
        RunStaysCurrentIff(t, ms[1..]);
      } else {
        assert Play(t, ms[1..][..0]) == t;
      }
    }
  }

  /** Nothing has changed the key's list since that moment. */
  ghost predicate Unchanged(s: Shared, key: Key, since: nat) {
    forall j, j' :: since <= j < |s.past| && j' == j + 1 && j' < |s.past| ==>
      ListFor(s.past[j].db, key) == ListFor(s.past[j'].db, key)
  }

  lemma {:induction false} UnchangedIsSame(s: Shared, key: Key, since: nat, until: nat)
    requires since <= until < |s.past| && Unchanged(s, key, since)
    ensures ListFor(s.past[since].db, key) == ListFor(s.past[until].db, key)
    decreases until
  {
    if since != until { UnchangedIsSame(s, key, since, until - 1); }
  }

  /**
   A fill leaves the entry current exactly when its connection was the tenant's own and the
   writes since its fetch have left the key's list as it was, in particular when none of
   them changed it; or when it was a foreign one and the tenant has no templates now.
   */
  lemma FillIsCurrentIff(s: Shared, i: nat)
    requires FetchedInv(s) && i < |s.inFlight|
    ensures var p, t := s.inFlight[i], Act(s, Fill(i));
            p.fetched < |s.past| && p.key in t.cache &&
            (t.cache[p.key].entry.value == ListFor(Now(t), p.key) <==> FillsNow(s, p)) &&
            (Own(p.conn, p.key) && Unchanged(s, p.key, p.fetched) ==>
              t.cache[p.key].entry.value == ListFor(Now(t), p.key))
  {
    var p := s.inFlight[i];
    assert Was(s, p.conn, p.key, p.value, p.fetched);
    SeenIffOwn(s.past[p.fetched].db, p.conn, p.key);
    if Unchanged(s, p.key, p.fetched) { UnchangedIsSame(s, p.key, p.fetched, |s.past| - 1); }
  }

  /**
   At every moment of an interleaved run, every hit on a key without a pending deletion
   is the tables' list, exactly when each fill comes before the writes since its fetch
   change the list it fetched on the tenant's connection, or before a deletion still to
   come, and each write is connected or changes no cached list.
   */
  lemma HitsStayCurrentIff(clock: int, db: Db, ms: seq<Move>)
    ensures StaysCurrent(Fresh(clock, db), ms) <==> TimelyRun(Fresh(clock, db), ms)
  {
    RunStaysCurrentIff(Fresh(clock, db), ms);
  }

  /**
   A fill that is not timely: a read that fetched before a connected
   write and fills after its deletion leaves the old list in the cache.
   */
  lemma RacingReadGoesStale(clock: int, p: ProviderBody)
    requires p.protocol == "oidc"
    ensures var key := ProviderKey("t");
            var s := Play(Fresh(clock, Db([], [])),
                           [Fetch("t", key), Write("t", CreateProvider("p", "t", p), true), Drop(key), Fill(0)]);
            s.past != [] && key in s.cache && s.drops == {} && s.clock < s.cache[key].entry.expires &&
            s.cache[key].entry.value == Providers([]) && ListFor(Now(s), key) == Providers([Row("p", "t", p)])
  {
    var key, s0 := ProviderKey("t"), Fresh(clock, Db([], []));
    var ms := [Fetch("t", key), Write("t", CreateProvider("p", "t", p), true), Drop(key), Fill(0)];
    OneMove(s0, ms, 0);
    var s2 := FetchThenWrite(clock, p);
    OneMove(Act(s0, ms[0]), ms, 1);
    OneMove(s2, ms, 2);
    OneMove(Act(s2, ms[2]), ms, 3);
    assert ms[0..] == ms && ms[4..] == [];
  }

  lemma FetchThenWrite(clock: int, p: ProviderBody) returns (s: Shared)
    requires p.protocol == "oidc"
    ensures var key := ProviderKey("t");
            s == Act(Act(Fresh(clock, Db([], [])), Fetch("t", key)), Write("t", CreateProvider("p", "t", p), true)) &&
            |s.past| == 2 && s.clock == clock && s.cache == map[] && s.drops == {key} &&
            s.inFlight == [Pending("t", key, Providers([]), 0)] && ListFor(Now(s), key) == Providers([Row("p", "t", p)])
  {
    var key, row := ProviderKey("t"), Row("p", "t", p);
    var s1 := Act(Fresh(clock, Db([], [])), Fetch("t", key));
    assert Now(s1) == Db([], []) && s1.inFlight == [Pending("t", key, Providers([]), 0)];
    s := Act(s1, Write("t", CreateProvider("p", "t", p), true));
    assert Now(s) == Db([row], []);
    assert [row][..0] == [];
  }

  lemma OneMove(s: Shared, ms: seq<Move>, k: nat)
    requires s.past != [] && k < |ms|
    ensures Play(s, ms[k..]) == Play(Act(s, ms[k]), ms[k + 1..])
  {}

  /*** The services on their tables and cache ***/

  class Redis {
    var entries: map<Key, Entry>
    var clock: int

    constructor (clock: int)
      ensures entries == map[] && this.clock == clock
    {
      entries, this.clock := map[], clock;
    }

    method Get(key: Key) returns (r: Option<Answer>)
      ensures r == if key in entries && clock < entries[key].expires then Some(entries[key].value) else None
    {
      r := if key in entries && clock < entries[key].expires then Some(entries[key].value) else None;
    }

    method SetEx(key: Key, value: Answer)
      modifies this`entries
      ensures entries == old(entries)[key := Entry(value, clock + Ttl(key))]
    {
      entries := entries[key := Entry(value, clock + Ttl(key))];
    }

    method Delete(key: Key)
      modifies this`entries
      ensures entries == old(entries) - {key}
    {
      entries := entries - {key};
    }
  }

  class Tables {
    var providers: seq<Row<ProviderBody>>
    var templates: seq<Row<TemplateBody>>

    constructor ()
      ensures providers == [] && templates == []
    {
      providers, templates := [], [];
    }
  }

  ghost function View(t: Tables, redis: Redis): State
    reads t, redis
  {
    State(redis.clock, Db(t.providers, t.templates), redis.entries)
  }

  /** What is collected, and the list of the rows still to come, make up the whole list. */
  ghost predicate Collected<B>(rows: seq<Row<B>>, tenant: string, n: nat, result: seq<Row<B>>) {
    n <= |rows| && result + ListOf(rows[..n], tenant) == ListOf(rows, tenant)
  }

  lemma CollectMore<B>(rows: seq<Row<B>>, tenant: string, n: nat, result: seq<Row<B>>)
    requires 0 < n && Collected(rows, tenant, n, result)
    ensures Collected(rows, tenant, n - 1, if rows[n - 1].tenant == tenant then result + [rows[n - 1]] else result)
  {
    assert rows[..n][..n - 1] == rows[..n - 1];
    var rest := ListOf(rows[..n - 1], tenant);
    if rows[n - 1].tenant == tenant {
      assert result + ([rows[n - 1]] + rest) == result + [rows[n - 1]] + rest;
    } else {
      assert [] + rest == rest;
    }
  }

  lemma CollectEnds<B>(rows: seq<Row<B>>, tenant: string, result: seq<Row<B>>)
    ensures Collected(rows, tenant, |rows|, [])
    ensures Collected(rows, tenant, 0, result) ==> result == ListOf(rows, tenant)
  {
    assert rows[..|rows|] == rows && rows[..0] == [];
    assert [] + ListOf(rows, tenant) == ListOf(rows, tenant);
    assert result + [] == result;
  }

  /** The query: the tenant's rows, newest first, collected by an append loop. */
  method FetchRows<B>(rows: seq<Row<B>>, tenant: string) returns (result: seq<Row<B>>)
    ensures result == ListOf(rows, tenant)
  {
    result := [];
    var n := |rows|;
    CollectEnds(rows, tenant, []);
    while n > 0
      invariant 0 <= n <= |rows| && Collected(rows, tenant, n, result)
    {
      CollectMore(rows, tenant, n, result);
      n := n - 1;
      if rows[n].tenant == tenant {
        result := result + [rows[n]];
      }
    }
    CollectEnds(rows, tenant, result);
  }

  method ListIdentityProviders(t: Tables, redis: Redis, conn: string, tenant: string, connected: bool)
    returns (answer: Answer)
    modifies redis`entries
    ensures (View(t, redis), Some(answer)) == Handle(old(View(t, redis)), Serve(conn, List(ProviderKey(tenant)), connected))
    ensures var key, before := ProviderKey(tenant), old(redis.entries);
            if connected && key in before && redis.clock < before[key].expires
            then answer == before[key].value && redis.entries == before
            else answer == Providers(ListOf(t.providers, tenant)) &&
                 redis.entries == if connected then before[key := Entry(answer, redis.clock + 60)] else before
  {
    if connected {
      var cached := redis.Get(ProviderKey(tenant));
      if cached.Some? {
        return cached.value;
      }
    }
    var rows := FetchRows(t.providers, tenant);
    answer := Providers(rows);
    if connected {
      redis.SetEx(ProviderKey(tenant), answer);
    }
  }

  method CreateIdentityProvider(t: Tables, redis: Redis, conn: string, id: string, tenant: string, p: ProviderBody,
                                connected: bool)
    returns (answer: Answer)
    modifies t, redis`entries
    ensures (View(t, redis), Some(answer)) ==
            Handle(old(View(t, redis)), Serve(conn, CreateProvider(id, tenant, p), connected))
    ensures redis.entries ==
            if connected && answer.Done? then old(redis.entries) - {ProviderKey(tenant)} else old(redis.entries)
  {
    if p.protocol != "oidc" || IdTaken(t.providers, id) || IssuerTaken(t.providers, id, tenant, p.issuer) {
      assert redis.entries - {} == redis.entries;
      return Rejected;
    }
    t.providers := t.providers + [Row(id, tenant, p)];
    if connected {
      redis.Delete(ProviderKey(tenant));
    }
    return Done;
  }

  method UpdateIdentityProvider(t: Tables, redis: Redis, conn: string, id: string, tenant: string, patch: ProviderPatch,
                                connected: bool)
    returns (answer: Answer)
    modifies t, redis`entries
    ensures (View(t, redis), Some(answer)) ==
            Handle(old(View(t, redis)), Serve(conn, UpdateProvider(id, tenant, patch), connected))
    ensures redis.entries ==
            if connected && answer.Done? then old(redis.entries) - {ProviderKey(tenant)} else old(redis.entries)
  {
    var current := BodyOf(t.providers, id, tenant);
    if current.None? {
      assert redis.entries - {} == redis.entries;
      return NotFound;
    }
    var merged := Patched(current.value, patch);
    if merged.protocol != "oidc" || IssuerTaken(t.providers, id, tenant, merged.issuer) {
      assert redis.entries - {} == redis.entries;
      return Rejected;
    }
    t.providers := Rewrite(t.providers, id, tenant, b => Patched(b, patch));
    if connected {
      redis.Delete(ProviderKey(tenant));
    }
    return Done;
  }

  method DeleteIdentityProvider(t: Tables, redis: Redis, conn: string, id: string, tenant: string, connected: bool)
    returns (answer: Answer)
    modifies t, redis`entries
    ensures (View(t, redis), Some(answer)) == Handle(old(View(t, redis)), Serve(conn, DeleteProvider(id, tenant), connected))
    ensures redis.entries == if connected then old(redis.entries) - {ProviderKey(tenant)} else old(redis.entries)
  {
    answer := if Has(t.providers, id, tenant) then Done else NotFound;
    t.providers := Without(t.providers, id, tenant);
    if connected {
      redis.Delete(ProviderKey(tenant));
    }
  }

  method ListTemplates(t: Tables, redis: Redis, conn: string, tenant: string, connected: bool)
    returns (answer: Answer)
    modifies redis`entries
    ensures (View(t, redis), Some(answer)) == Handle(old(View(t, redis)), Serve(conn, List(TemplateKey(tenant)), connected))
    ensures var key, before := TemplateKey(tenant), old(redis.entries);
            if connected && key in before && redis.clock < before[key].expires
            then answer == before[key].value && redis.entries == before
            else answer == Templates(if conn == tenant then ListOf(t.templates, tenant) else []) &&
                 redis.entries == if connected then before[key := Entry(answer, redis.clock + 30)] else before
  {
    if connected {
      var cached := redis.Get(TemplateKey(tenant));
      if cached.Some? {
        return cached.value;
      }
    }
    ListOfVisible(t.templates, conn, tenant);
    var rows := FetchRows(Visible(t.templates, conn), tenant);
    answer := Templates(rows);
    if connected {
      redis.SetEx(TemplateKey(tenant), answer);
    }
  }

  method CreateTenantPolicyTemplate(t: Tables, redis: Redis, conn: string, id: string, tenant: string, body: TemplateBody,
                                    connected: bool)
    returns (answer: Answer)
    modifies t, redis`entries
    ensures (View(t, redis), Some(answer)) ==
            Handle(old(View(t, redis)), Serve(conn, CreateTemplate(id, tenant, body), connected))
    ensures redis.entries ==
            if connected && answer.Done? then old(redis.entries) - {TemplateKey(tenant)} else old(redis.entries)
  {
    if conn != tenant || IdTaken(t.templates, id) {
      assert redis.entries - {} == redis.entries;
      return Rejected;
    }
    t.templates := t.templates + [Row(id, tenant, body)];
    if connected {
      redis.Delete(TemplateKey(tenant));
    }
    return Done;
  }

  method UpdateTenantPolicyTemplate(t: Tables, redis: Redis, conn: string, id: string, tenant: string,
                                    policies: Option<string>, roles: Option<seq<string>>, connected: bool)
    returns (answer: Answer)
    modifies t, redis`entries
    ensures (View(t, redis), Some(answer)) ==
            Handle(old(View(t, redis)), Serve(conn, UpdateTemplate(id, tenant, policies, roles), connected))
    ensures redis.entries ==
            if connected && answer.Done? then old(redis.entries) - {TemplateKey(tenant)} else old(redis.entries)
  {
    if !Has(Visible(t.templates, conn), id, tenant) {
      assert redis.entries - {} == redis.entries;
      return NotFound;
    }
    t.templates := Rewrite(t.templates, id, tenant,
                           (b: TemplateBody) => TemplateBody(Or(policies, b.policies), Or(roles, b.roles)));
    if connected {
      redis.Delete(TemplateKey(tenant));
    }
    return Done;
  }

  method DeleteTenantPolicyTemplate(t: Tables, redis: Redis, conn: string, id: string, tenant: string, connected: bool)
    returns (answer: Answer)
    modifies t, redis`entries
    ensures (View(t, redis), Some(answer)) == Handle(old(View(t, redis)), Serve(conn, DeleteTemplate(id, tenant), connected))
    ensures redis.entries ==
            if connected && answer.Done? then old(redis.entries) - {TemplateKey(tenant)} else old(redis.entries)
  {
    if !Has(Visible(t.templates, conn), id, tenant) {
      assert redis.entries - {} == redis.entries;
      return NotFound;
    }
    t.templates := Without(t.templates, id, tenant);
    if connected {
      redis.Delete(TemplateKey(tenant));
    }
    return Done;
  }
}
