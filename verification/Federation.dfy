/**
 Federated identities: how an external subject is resolved to a local user, over
 whole runs of atomic requests that also create and delete users and providers.

 Source: app/services/federation_service.py, with the unique constraints and
 cascades of its tables in app/database/migrations.
 */
module Federation {
  import opened Common
  import Policies

  datatype User = User(tenant: string, email: string, verified: bool)

  datatype Provider = Provider(tenant: string, issuer: string, enabled: bool, autoLink: bool, verifiedOnly: bool)

  datatype LinkKey = LinkKey(tenant: string, provider: string, subject: string)

  datatype Link = Link(user: string, email: Option<string>)

  datatype State = State(users: map<string, User>, providers: map<string, Provider>, links: map<LinkKey, Link>)

  /** The email_verified claim as it arrives. */
  datatype Verified = Missing | Flag(b: bool) | Text(s: string) | Other(truthy: bool)

  datatype Claims = Claims(subject: string, email: Option<string>, verified: Verified)

  datatype Error = NoProvider | NotLinked | EmailNotVerified | EmailTaken | UserTaken | LinkConflict | RowCheck

  datatype Event =
    | AddUser(id: string, tenant: string, email: string)
    | DeleteUser(id: string)
    | AddProvider(id: string, provider: Provider)
    | UpdateProvider(id: string, tenant: string, provider: Provider)
    | DeleteProvider(id: string, tenant: string)
    | Resolve(conn: Option<string>, tenant: string, via: string, issuer: string, claims: Claims, newUser: string)

  /**
   A connection set to a tenant sees and inserts only that tenant's users; the token
   exchange runs on one, which the request names, the sign-in callback on the owner's
   connection, which row-level security does not bind.
   */
  predicate Sees(conn: Option<string>, tenant: string) {
    conn.None? || conn.value == tenant
  }

  function Visible(users: map<string, User>, conn: Option<string>): map<string, User> {
    map id | id in users && Sees(conn, users[id].tenant) :: users[id]
  }

  function SubjectKey(e: Event): LinkKey
    requires e.Resolve?
  {
    LinkKey(e.tenant, e.via, e.claims.subject)
  }

  predicate NormalizedEmailVerified(v: Verified) {
    match v
    case Missing => false
    case Flag(b) => b
    case Text(s) => Policies.Lower(s) == "true"
    case Other(truthy) => truthy
  }

  predicate HasEmail(claims: Claims) {
    claims.email.Some? && claims.email.value != ""
  }

  /** A user of the tenant with that address. */
  predicate Owns(users: map<string, User>, id: string, tenant: string, email: string) {
    id in users && users[id].tenant == tenant && users[id].email == email
  }

  predicate EmailUsed(users: map<string, User>, tenant: string, email: string) {
    exists id :: id in users && Owns(users, id, tenant, email)
  }

  ghost predicate UniqueEmails(users: map<string, User>) {
    forall a, b, tenant, email :: Owns(users, a, tenant, email) && Owns(users, b, tenant, email) ==> a == b
  }

  /** The row found by (tenant, email), which is unique. */
  ghost function UserByEmail(users: map<string, User>, tenant: string, email: string): (r: Option<string>)
    ensures r.Some? ==> Owns(users, r.value, tenant, email)
    ensures r.None? ==> !EmailUsed(users, tenant, email)
  {
    if EmailUsed(users, tenant, email) then
      var id :| id in users && Owns(users, id, tenant, email);
      Some(id)
    else None
  }

  function LocalEmail(claims: Claims, tenant: string): string {
    if HasEmail(claims) then claims.email.value
    else "federated-" + claims.subject + "@" + tenant + ".local"
  }

  function InsertUser(s: State, id: string, user: User): Result<State, Error> {
    if id in s.users then Err(UserTaken)
    else if EmailUsed(s.users, user.tenant, user.email) then Err(EmailTaken)
    else Ok(s.(users := s.users[id := user]))
  }

  /** Some other subject of this provider is linked to the user. */
  predicate LinkedElsewhere(links: map<LinkKey, Link>, key: LinkKey, user: string) {
    exists k :: k in links && k.tenant == key.tenant && k.provider == key.provider && k != key && links[k].user == user
  }

  /** The insert of a link; a row that is already there keeps its user. */
  function InsertLink(s: State, key: LinkKey, user: string, email: Option<string>): Result<State, Error> {
    if LinkedElsewhere(s.links, key, user) then Err(LinkConflict)
    else if key in s.links then Ok(s.(links := s.links[key := s.links[key].(email := email)]))
    else Ok(s.(links := s.links[key := Link(user, email)]))
  }

  /** The new state and the outcome; the user insert stays when the link insert fails. */
  ghost function FindOrCreate(s: State, conn: Option<string>, tenant: string, id: string, claims: Claims, newUser: string)
    : (State, Result<string, Error>)
    requires id in s.providers
  {
    var key := LinkKey(tenant, id, claims.subject);
    var p := s.providers[id];
    var seen := Visible(s.users, conn);
    if key in s.links && s.links[key].user in seen then (s, Ok(s.links[key].user))
    else if !p.autoLink then (s, Err(NotLinked))
    else
      var found := if HasEmail(claims) then UserByEmail(seen, tenant, claims.email.value) else None;
      if found.Some? && p.verifiedOnly && !NormalizedEmailVerified(claims.verified) then (s, Err(EmailNotVerified))
      else if found.Some? then AddLink(s, key, found.value, claims.email)
      else if !Sees(conn, tenant) then (s, Err(RowCheck))
      else
        var user := User(tenant, LocalEmail(claims, tenant),
                         NormalizedEmailVerified(claims.verified) || HasEmail(claims));
        match InsertUser(s, newUser, user)
        case Err(e) => (s, Err(e))
        case Ok(t) => AddLink(t, key, newUser, claims.email)
  }

  function AddLink(s: State, key: LinkKey, user: string, email: Option<string>): (State, Result<string, Error>) {
    match InsertLink(s, key, user, email)
    case Err(e) => (s, Err(e))
    case Ok(t) => (t, Ok(user))
  }

  /** The provider is the enabled one of the tenant with the token's issuer. */
  predicate Issues(s: State, tenant: string, id: string, issuer: string) {
    id in s.providers && s.providers[id].tenant == tenant && s.providers[id].issuer == issuer && s.providers[id].enabled
  }

  ghost function DoResolve(s: State, e: Event): (State, Result<string, Error>)
    requires e.Resolve?
  {
    if Issues(s, e.tenant, e.via, e.issuer) then FindOrCreate(s, e.conn, e.tenant, e.via, e.claims, e.newUser)
    else (s, Err(NoProvider))
  }

  predicate IssuerUsed(s: State, id: string, tenant: string, issuer: string) {
    exists p :: p in s.providers && p != id && s.providers[p].tenant == tenant && s.providers[p].issuer == issuer
  }

  /** Deletions cascade to the links. */
  ghost function Step(s: State, e: Event): State {
    match e
    case AddUser(id, tenant, email) =>
      var r := InsertUser(s, id, User(tenant, email, false));
      if r.Ok? then r.value else s
    case DeleteUser(id) =>
      s.(users := s.users - {id}, links := map k | k in s.links && s.links[k].user != id :: s.links[k])
    case AddProvider(id, p) =>
      if id in s.providers || IssuerUsed(s, id, p.tenant, p.issuer) then s else s.(providers := s.providers[id := p])
    case UpdateProvider(id, tenant, p) =>
      if id in s.providers && s.providers[id].tenant == tenant && p.tenant == tenant && !IssuerUsed(s, id, tenant, p.issuer)
      then s.(providers := s.providers[id := p]) else s
    case DeleteProvider(id, tenant) =>
      if id in s.providers && s.providers[id].tenant == tenant
      then s.(providers := s.providers - {id}, links := map k | k in s.links && k.provider != id :: s.links[k]) else s
    case Resolve(_, _, _, _, _, _) => DoResolve(s, e).0
  }

  ghost function Run(s: State, events: seq<Event>): State
    decreases |events|
  {
    if events == [] then s else Run(Step(s, events[0]), events[1..])
  }

  /*** The invariant ***/

  /** A link is between a user and a provider of its own tenant. */
  ghost predicate TenantLocal(s: State, key: LinkKey)
    requires key in s.links
  {
    s.links[key].user in s.users && s.users[s.links[key].user].tenant == key.tenant &&
    key.provider in s.providers && s.providers[key.provider].tenant == key.tenant
  }

  ghost predicate AllTenantLocal(s: State) {
    forall key :: key in s.links ==> TenantLocal(s, key)
  }

  predicate Siblings(k: LinkKey, k': LinkKey) {
    k.tenant == k'.tenant && k.provider == k'.provider
  }

  /** Two subjects of one provider never share a user. */
  ghost predicate Injective(links: map<LinkKey, Link>) {
    forall k, k' :: k in links && k' in links && Siblings(k, k') && links[k].user == links[k'].user ==> k == k'
  }

  predicate SameIssuer(p: Provider, p': Provider) {
    p.tenant == p'.tenant && p.issuer == p'.issuer
  }

  ghost predicate UniqueIssuers(s: State) {
    forall p, p' :: p in s.providers && p' in s.providers && SameIssuer(s.providers[p], s.providers[p']) ==> p == p'
  }

  ghost predicate Inv(s: State) {
    AllTenantLocal(s) && Injective(s.links) && UniqueEmails(s.users) && UniqueIssuers(s)
  }

  lemma InsertUserKeepsInv(s: State, id: string, user: User)
    requires Inv(s) && InsertUser(s, id, user).Ok?
    ensures Inv(InsertUser(s, id, user).value)
  {
    var t := InsertUser(s, id, user).value;
    forall key | key in t.links ensures TenantLocal(t, key) { assert TenantLocal(s, key); }
    forall a, b, tenant, email | Owns(t.users, a, tenant, email) && Owns(t.users, b, tenant, email) ensures a == b {
      if a != id { assert Owns(s.users, a, tenant, email); }
      if b != id { assert Owns(s.users, b, tenant, email); }
    }
  }

  lemma InsertLinkKeepsInv(s: State, key: LinkKey, user: string, email: Option<string>)
    requires Inv(s) && InsertLink(s, key, user, email).Ok? && key !in s.links
    requires user in s.users && s.users[user].tenant == key.tenant
    requires key.provider in s.providers && s.providers[key.provider].tenant == key.tenant
    ensures Inv(InsertLink(s, key, user, email).value)
  {}

  /** A connection that sees the tenant's users finds by address what the whole table holds, another one nothing. */
  lemma LookupSeen(users: map<string, User>, conn: Option<string>, tenant: string, email: string)
    requires UniqueEmails(users)
    ensures UserByEmail(Visible(users, conn), tenant, email) ==
            if Sees(conn, tenant) then UserByEmail(users, tenant, email) else None
  {
    var seen := Visible(users, conn);
    assert forall id :: Owns(seen, id, tenant, email) <==> Owns(users, id, tenant, email) && Sees(conn, tenant);
    if EmailUsed(users, tenant, email) && Sees(conn, tenant) {
      var id :| id in users && Owns(users, id, tenant, email);
      assert Owns(seen, id, tenant, email);
    }
  }

  /** Refused without a trace when the connection does not see the tenant's users, linked or not. */
  lemma HiddenIsRefused(s: State, e: Event)
    requires Inv(s) && e.Resolve? && !Sees(e.conn, e.tenant)
    ensures DoResolve(s, e).1.Err? && DoResolve(s, e).0 == s
  {
    if HasEmail(e.claims) { LookupSeen(s.users, e.conn, e.tenant, e.claims.email.value); }
    var key := SubjectKey(e);
    if key in s.links { assert TenantLocal(s, key); }
  }

  lemma ResolveKeepsInv(s: State, e: Event)
    requires Inv(s) && e.Resolve?
    ensures Inv(DoResolve(s, e).0)
  {
    if !Sees(e.conn, e.tenant) {
      HiddenIsRefused(s, e);
    } else if Issues(s, e.tenant, e.via, e.issuer) {
      var key, p := SubjectKey(e), s.providers[e.via];
      if HasEmail(e.claims) { LookupSeen(s.users, e.conn, e.tenant, e.claims.email.value); }
      if key in s.links {
        assert TenantLocal(s, key);
      } else if p.autoLink {
        var found := if HasEmail(e.claims) then UserByEmail(s.users, e.tenant, e.claims.email.value) else None;
        if found.Some? {
          if (p.verifiedOnly ==> NormalizedEmailVerified(e.claims.verified)) &&
             !LinkedElsewhere(s.links, key, found.value) {
            InsertLinkKeepsInv(s, key, found.value, e.claims.email);
          }
        } else {
          var user := User(e.tenant, LocalEmail(e.claims, e.tenant),
                           NormalizedEmailVerified(e.claims.verified) || HasEmail(e.claims));
          if InsertUser(s, e.newUser, user).Ok? {
            var t := InsertUser(s, e.newUser, user).value;
            InsertUserKeepsInv(s, e.newUser, user);
            NewUserIsFree(s, key, e.newUser);
            InsertLinkKeepsInv(t, key, e.newUser, e.claims.email);
          }
        }
      }
    }
  }

  /** No link can refer to a user that does not exist yet. */
  lemma NewUserIsFree(s: State, key: LinkKey, user: string)
    requires AllTenantLocal(s) && user !in s.users
    ensures !LinkedElsewhere(s.links, key, user)
  {}

  lemma DeleteUserKeepsInv(s: State, id: string)
    requires Inv(s)
    ensures Inv(Step(s, DeleteUser(id)))
  {
    var t := Step(s, DeleteUser(id));
    forall key | key in t.links ensures TenantLocal(t, key) { assert TenantLocal(s, key); }
    assert forall a, tenant, email :: Owns(t.users, a, tenant, email) ==> Owns(s.users, a, tenant, email);
  }

  lemma ProvidersKeepInv(s: State, e: Event)
    requires Inv(s) && (e.AddProvider? || e.UpdateProvider?)
    ensures Inv(Step(s, e))
  {
    var t := Step(s, e);
    forall key | key in t.links ensures TenantLocal(t, key) { assert TenantLocal(s, key); }
  }

  lemma DeleteProviderKeepsInv(s: State, id: string, tenant: string)
    requires Inv(s)
    ensures Inv(Step(s, DeleteProvider(id, tenant)))
  {}

  lemma StepKeepsInv(s: State, e: Event)
    requires Inv(s)
    ensures Inv(Step(s, e))
  {
    match e
    case Resolve(_, _, _, _, _, _) => ResolveKeepsInv(s, e);
    case AddUser(id, tenant, email) =>
      if InsertUser(s, id, User(tenant, email, false)).Ok? { InsertUserKeepsInv(s, id, User(tenant, email, false)); }
    case DeleteUser(id) => DeleteUserKeepsInv(s, id);
    case DeleteProvider(id, tenant) => DeleteProviderKeepsInv(s, id, tenant);
    case _ => ProvidersKeepInv(s, e);
  }

  lemma {:induction false} RunKeepsInv(s: State, events: seq<Event>)
    requires Inv(s)
    ensures Inv(Run(s, events))
    decreases |events|
  {
    if events != [] {
      StepKeepsInv(s, events[0]);
      RunKeepsInv(Step(s, events[0]), events[1..]);
    }
  }

  function Reached0(): State {
    State(map[], map[], map[])
  }

  ghost function Reached(events: seq<Event>): State {
    Run(Reached0(), events)
  }

  /*** Main results ***/

  /** In every reachable state the identity map is injective per provider and local to the tenant. */
  lemma IdentityIsInjectiveAndLocal(events: seq<Event>)
    ensures Injective(Reached(events).links) && AllTenantLocal(Reached(events))
  {
    RunKeepsInv(Reached0(), events);
  }

  predicate Deletes(s: State, e: Event, key: LinkKey, user: string) {
    match e
    case DeleteUser(id) => id == user
    case DeleteProvider(id, tenant) => id == key.provider && tenant == key.tenant
    case _ => false
  }

  lemma StepKeepsLink(s: State, e: Event, key: LinkKey)
    requires Inv(s) && key in s.links && !Deletes(s, e, key, s.links[key].user)
    ensures key in Step(s, e).links && Step(s, e).links[key].user == s.links[key].user
  {}

  ghost predicate NeverDeleted(s: State, events: seq<Event>, key: LinkKey, user: string)
    decreases |events|
  {
    events == [] || (!Deletes(s, events[0], key, user) && NeverDeleted(Step(s, events[0]), events[1..], key, user))
  }

  lemma {:induction false} LinkIsStable(s: State, events: seq<Event>, key: LinkKey)
    requires Inv(s) && key in s.links && NeverDeleted(s, events, key, s.links[key].user)
    ensures key in Run(s, events).links && Run(s, events).links[key].user == s.links[key].user && Inv(Run(s, events))
    decreases |events|
  {
    if events != [] {
      StepKeepsInv(s, events[0]);
      StepKeepsLink(s, events[0], key);
      LinkIsStable(Step(s, events[0]), events[1..], key);
    }
  }

  lemma ResolvedIsLinked(s: State, e: Event)
    requires Inv(s) && e.Resolve? && DoResolve(s, e).1.Ok?
    ensures var key := SubjectKey(e);
            key in Step(s, e).links && Step(s, e).links[key].user == DoResolve(s, e).1.value
  {}

  /**
   Stable identity: once a subject has been resolved, and while user and provider exist,
   it resolves to the same user whatever its later claims say and whatever else happens,
   exactly when the connection sees the tenant's users; on another it is refused.  Either
   way nothing changes.
   */
  lemma SubjectAlwaysResolvesToSameUser(first: seq<Event>, e: Event, rest: seq<Event>, again: Event)
    requires e.Resolve? && again.Resolve? && DoResolve(Reached(first), e).1.Ok?
    requires again.tenant == e.tenant && again.via == e.via && again.claims.subject == e.claims.subject
    requires NeverDeleted(Step(Reached(first), e), rest, SubjectKey(e),
                          DoResolve(Reached(first), e).1.value)
    requires var t := Run(Step(Reached(first), e), rest); Issues(t, again.tenant, again.via, again.issuer)
    ensures var t := Run(Step(Reached(first), e), rest);
            (DoResolve(t, again).1 == DoResolve(Reached(first), e).1 <==> Sees(again.conn, again.tenant)) &&
            (DoResolve(t, again).1.Err? <==> !Sees(again.conn, again.tenant)) && Step(t, again) == t
  {
    var s := Reached(first);
    RunKeepsInv(Reached0(), first);
    StepKeepsInv(s, e);
    ResolvedIsLinked(s, e);
    var key := SubjectKey(e);
    LinkIsStable(Step(s, e), rest, key);
    var t := Run(Step(s, e), rest);
    assert TenantLocal(t, key);
    if !Sees(again.conn, again.tenant) { HiddenIsRefused(t, again); }
  }

  /** A subject resolved on its tenant's connection is refused on one set to another tenant. */
  lemma ForeignExchangeIsRefused(p: Provider, y: string)
    requires p.tenant == "t" && p.enabled && p.autoLink && y != "t"
    ensures var claims := Claims("sub", None, Missing);
            var s := Reached([AddProvider("p", p), Resolve(Some("t"), "t", "p", p.issuer, claims, "u")]);
            DoResolve(s, Resolve(Some("t"), "t", "p", p.issuer, claims, "v")).1 == Ok("u") &&
            DoResolve(s, Resolve(Some(y), "t", "p", p.issuer, claims, "v")).1 == Err(RowCheck)
  {
    var claims := Claims("sub", None, Missing);
    var first := Resolve(Some("t"), "t", "p", p.issuer, claims, "u");
    var s1 := Step(Reached0(), AddProvider("p", p));
    var s2 := Step(s1, first);
    assert Run(Reached0(), [AddProvider("p", p), first]) == s2 by {
      assert [AddProvider("p", p), first][1..] == [first] && [first][1..] == [];
      assert Run(s1, [first]) == s2;
    }
    assert s2.users.Keys == {"u"} && s2.users["u"].tenant == "t" && s2.links[LinkKey("t", "p", "sub")].user == "u";
  }

  /** A failed resolution changes nothing: in particular it leaves no unlinked user behind. */
  lemma FailedResolveChangesNothing(s: State, e: Event)
    requires Inv(s) && e.Resolve? && DoResolve(s, e).1.Err?
    ensures Step(s, e) == s
  {}

  /** The later state differs at most in the link of that key and in one new user. */
  ghost predicate TouchesOnly(s: State, t: State, key: LinkKey, made: Option<string>) {
    t.providers == s.providers &&
    (forall u :: u in s.users ==> u in t.users && t.users[u] == s.users[u]) &&
    (forall u :: u in t.users && u !in s.users ==> Some(u) == made) &&
    (forall k :: k != key ==> (k in t.links <==> k in s.links) && (k in s.links ==> t.links[k] == s.links[k]))
  }

  lemma AddLinkTouches(s: State, t: State, key: LinkKey, user: string, email: Option<string>, made: Option<string>)
    requires TouchesOnly(s, t, key, made)
    ensures TouchesOnly(s, AddLink(t, key, user, email).0, key, made)
  {}

  /** Resolving changes at most the subject's own link and one new user, the one it answers with. */
  lemma ResolveTouchesOnlyItsSubject(s: State, e: Event)
    requires Inv(s) && e.Resolve?
    ensures TouchesOnly(s, Step(s, e), SubjectKey(e),
                        if DoResolve(s, e).1 == Ok(e.newUser) then Some(e.newUser) else None)
  {
    var key := SubjectKey(e);
    if e.newUser !in s.users { NewUserIsFree(s, key, e.newUser); }
    if HasEmail(e.claims) { LookupSeen(s.users, e.conn, e.tenant, e.claims.email.value); }
    if !Sees(e.conn, e.tenant) {
      HiddenIsRefused(s, e);
    } else if Issues(s, e.tenant, e.via, e.issuer) && s.providers[e.via].autoLink {
      var found := if HasEmail(e.claims) then UserByEmail(s.users, e.tenant, e.claims.email.value) else None;
      var user := User(e.tenant, LocalEmail(e.claims, e.tenant),
                       NormalizedEmailVerified(e.claims.verified) || HasEmail(e.claims));
      if found.Some? {
        AddLinkTouches(s, s, key, found.value, e.claims.email, None);
      } else if InsertUser(s, e.newUser, user).Ok? {
        AddLinkTouches(s, InsertUser(s, e.newUser, user).value, key, e.newUser, e.claims.email, Some(e.newUser));
      }
    }
  }

  /** The text is the word "true" in some letter case. */
  lemma TrueInAnyCase(t: string)
    ensures Policies.Lower(t) == "true" <==>
            |t| == 4 && (t[0] == 't' || t[0] == 'T') && (t[1] == 'r' || t[1] == 'R') &&
            (t[2] == 'u' || t[2] == 'U') && (t[3] == 'e' || t[3] == 'E')
  {
    var l := Policies.Lower(t);
    assert |l| == 4 ==> (l == "true" <==> l[0] == 't' && l[1] == 'r' && l[2] == 'u' && l[3] == 'e');
  }

  /**
   A subject without a link is joined to an existing user exactly when the connection
   sees the tenant's users, the provider links automatically, that user has the claimed
   address, is not linked to another subject of the provider, and, wherever the provider
   asks for verified addresses, the claim is true, a truthy value, or the word "true" in
   some letter case.
   */
  lemma JoinsExistingUserIff(s: State, e: Event, user: string)
    requires Inv(s) && e.Resolve? && user in s.users && Issues(s, e.tenant, e.via, e.issuer)
    requires SubjectKey(e) !in s.links
    ensures DoResolve(s, e).1 == Ok(user) <==>
            (e.conn.None? || e.conn.value == e.tenant) && s.providers[e.via].autoLink &&
            e.claims.email.Some? && e.claims.email.value != "" &&
            s.users[user].tenant == e.tenant && s.users[user].email == e.claims.email.value &&
            (s.providers[e.via].verifiedOnly ==>
              match e.claims.verified
              case Missing => false
              case Flag(b) => b
              case Text(t) =>
                |t| == 4 && (t[0] == 't' || t[0] == 'T') && (t[1] == 'r' || t[1] == 'R') &&
                (t[2] == 'u' || t[2] == 'U') && (t[3] == 'e' || t[3] == 'E')
              case Other(truthy) => truthy) &&
            forall k :: k in s.links && k.tenant == e.tenant && k.provider == e.via ==> s.links[k].user != user
    ensures DoResolve(s, e).1 == Ok(user) ==>
              Step(s, e) == s.(links := s.links[LinkKey(e.tenant, e.via, e.claims.subject) := Link(user, e.claims.email)])
  {
    if HasEmail(e.claims) { LookupSeen(s.users, e.conn, e.tenant, e.claims.email.value); }
    if e.claims.verified.Text? { TrueInAnyCase(e.claims.verified.s); }
    var key := SubjectKey(e);
    assert LinkedElsewhere(s.links, key, user) <==>
           exists k :: k in s.links && k.tenant == e.tenant && k.provider == e.via && k != key && s.links[k].user == user;
    if HasEmail(e.claims) && Owns(s.users, user, e.tenant, e.claims.email.value) {
      assert EmailUsed(s.users, e.tenant, e.claims.email.value);
      assert UserByEmail(s.users, e.tenant, e.claims.email.value) == Some(user);
    }
  }

  /**
   Where the provider asks for verified addresses and the claimed one is taken, a claim
   that is missing, false, falsy or any other text is refused as unverified, and nothing
   is linked.
   */
  lemma UnverifiedIsRefused(s: State, e: Event, user: string)
    requires Inv(s) && e.Resolve? && Issues(s, e.tenant, e.via, e.issuer) && SubjectKey(e) !in s.links
    requires s.providers[e.via].autoLink && s.providers[e.via].verifiedOnly && (e.conn.None? || e.conn.value == e.tenant)
    requires user in s.users && s.users[user].tenant == e.tenant && e.claims.email == Some(s.users[user].email)
    requires s.users[user].email != ""
    requires match e.claims.verified
             case Missing => true
             case Flag(b) => !b
             case Text(t) =>
               !(|t| == 4 && (t[0] == 't' || t[0] == 'T') && (t[1] == 'r' || t[1] == 'R') &&
                 (t[2] == 'u' || t[2] == 'U') && (t[3] == 'e' || t[3] == 'E'))
             case Other(truthy) => !truthy
    ensures DoResolve(s, e) == (s, Err(EmailNotVerified))
  {
    LookupSeen(s.users, e.conn, e.tenant, e.claims.email.value);
    if e.claims.verified.Text? { TrueInAnyCase(e.claims.verified.s); }
    assert Owns(s.users, user, e.tenant, e.claims.email.value);
  }

  /**
   A new user is made exactly when the connection may insert it, the provider links
   automatically and no user of the tenant has the address, a made-up one when none is
   claimed; it belongs to the link's tenant and counts as verified unless it has no claimed
   address and the claim is not true.
   */
  lemma MakesUserIff(s: State, e: Event)
    requires Inv(s) && e.Resolve? && Issues(s, e.tenant, e.via, e.issuer) && e.newUser !in s.users
    requires SubjectKey(e) !in s.links
    ensures var claimed := e.claims.email.Some? && e.claims.email.value != "";
            var email := if claimed then e.claims.email.value else "federated-" + e.claims.subject + "@" + e.tenant + ".local";
            (DoResolve(s, e).1 == Ok(e.newUser) <==>
              (e.conn.None? || e.conn.value == e.tenant) && s.providers[e.via].autoLink &&
              forall u :: u in s.users ==> s.users[u].tenant != e.tenant || s.users[u].email != email) &&
            (DoResolve(s, e).1 == Ok(e.newUser) ==>
              var row := Step(s, e).users[e.newUser];
              Step(s, e) == s.(users := s.users[e.newUser := row],
                               links := s.links[LinkKey(e.tenant, e.via, e.claims.subject) :=
                                          Link(e.newUser, e.claims.email)]) &&
              row.tenant == e.tenant && row.email == email && (claimed ==> row.verified) &&
              (e.claims.verified == Flag(true) ==> row.verified) &&
              (!claimed && (e.claims.verified == Missing || e.claims.verified == Flag(false)) ==> !row.verified))
  {
    if HasEmail(e.claims) { LookupSeen(s.users, e.conn, e.tenant, e.claims.email.value); }
    NewUserIsFree(s, SubjectKey(e), e.newUser);
    assert forall u :: u in s.users && Owns(s.users, u, e.tenant, LocalEmail(e.claims, e.tenant)) ==>
             EmailUsed(s.users, e.tenant, LocalEmail(e.claims, e.tenant));
  }

  /** A user is added exactly when id and address are free; a deletion takes the user's links along. */
  lemma UserRequestsMean(s: State, id: string, tenant: string, email: string)
    ensures Step(s, AddUser(id, tenant, email)) ==
            if id in s.users || (exists u :: u in s.users && s.users[u].tenant == tenant && s.users[u].email == email) then s
            else s.(users := s.users[id := User(tenant, email, false)])
    ensures var t := Step(s, DeleteUser(id));
            t == s.(users := s.users - {id}, links := t.links) &&
            (forall k :: k in t.links <==> k in s.links && s.links[k].user != id) &&
            (forall k :: k in t.links ==> t.links[k] == s.links[k])
  {
    assert EmailUsed(s.users, tenant, email) <==>
           exists u :: u in s.users && s.users[u].tenant == tenant && s.users[u].email == email;
  }

  /** A provider is written exactly when the tenant has no other one with its issuer, and only by its own tenant. */
  lemma ProviderRequestsMean(s: State, id: string, tenant: string, p: Provider)
    ensures Step(s, AddProvider(id, p)) ==
            if id in s.providers ||
               (exists q :: q in s.providers && s.providers[q].tenant == p.tenant && s.providers[q].issuer == p.issuer) then s
            else s.(providers := s.providers[id := p])
    ensures Step(s, UpdateProvider(id, p.tenant, p)) ==
            if id !in s.providers || s.providers[id].tenant != p.tenant ||
               (exists q :: q in s.providers && q != id && s.providers[q].tenant == p.tenant && s.providers[q].issuer == p.issuer)
            then s else s.(providers := s.providers[id := p])
    ensures var t := Step(s, DeleteProvider(id, tenant));
            if id !in s.providers || s.providers[id].tenant != tenant then t == s
            else t == s.(providers := s.providers - {id}, links := t.links) &&
                 (forall k :: k in t.links <==> k in s.links && k.provider != id) &&
                 (forall k :: k in t.links ==> t.links[k] == s.links[k])
  {
    assert IssuerUsed(s, id, p.tenant, p.issuer) <==>
           exists q :: q in s.providers && q != id && s.providers[q].tenant == p.tenant && s.providers[q].issuer == p.issuer;
  }

  /** Only the enabled provider of that tenant and issuer answers; without automatic linking it knows linked subjects only. */
  lemma OnlyEnabledIssuersResolve(s: State, e: Event)
    requires Inv(s) && e.Resolve?
    ensures DoResolve(s, e).1 == Err(NoProvider) <==>
            !(e.via in s.providers && s.providers[e.via].tenant == e.tenant && s.providers[e.via].issuer == e.issuer &&
              s.providers[e.via].enabled)
    ensures DoResolve(s, e).1.Ok? && LinkKey(e.tenant, e.via, e.claims.subject) !in s.links ==> s.providers[e.via].autoLink
  {}

  /** At most one provider of a tenant can answer for an issuer. */
  lemma IssuerNamesOneProvider(events: seq<Event>, tenant: string, issuer: string, p: string, p': string)
    requires Issues(Reached(events), tenant, p, issuer) && Issues(Reached(events), tenant, p', issuer)
    ensures p == p'
  {
    RunKeepsInv(Reached0(), events);
  }

  /*** The service on its tables ***/

  class Tables {
    var users: map<string, User>
    var providers: map<string, Provider>
    var links: map<LinkKey, Link>

    ghost function View(): State
      reads this
    {
      State(users, providers, links)
    }

    constructor ()
      ensures View() == Reached0()
    {
      users, providers, links := map[], map[], map[];
    }
  }

  /** SELECT by (tenant, email). */
  method FindByEmail(users: map<string, User>, tenant: string, email: string) returns (r: Option<string>)
    requires UniqueEmails(users)
    ensures r == UserByEmail(users, tenant, email)
  {
    r := None;
    var rest := users.Keys;
    while rest != {}
      invariant rest <= users.Keys
      invariant r.None? ==> forall id :: id in users && id !in rest ==> !Owns(users, id, tenant, email)
      invariant r.Some? ==> Owns(users, r.value, tenant, email)
      decreases |rest|
    {
      var id :| id in rest;
      if users[id].tenant == tenant && users[id].email == email {
        r := Some(id);
      }
      rest := rest - {id};
    }
  }

  /** Resolves the subject of validated claims, creating the user and the link as needed. */
  method FindOrCreateLocalUser(db: Tables, conn: Option<string>, tenant: string, provider: string, claims: Claims,
                               newUser: string)
    returns (r: Result<string, Error>)
    requires provider in db.providers && UniqueEmails(db.users)
    modifies db
    ensures (db.View(), r) == FindOrCreate(old(db.View()), conn, tenant, provider, claims, newUser)
  {
    var key := LinkKey(tenant, provider, claims.subject);
    if key in db.links && db.links[key].user in Visible(db.users, conn) {
      return Ok(db.links[key].user);
    }
    if !db.providers[provider].autoLink {
      return Err(NotLinked);
    }
    var user := None;
    if HasEmail(claims) {
      assert UniqueEmails(Visible(db.users, conn)) by {
        assert forall id, t, e :: Owns(Visible(db.users, conn), id, t, e) ==> Owns(db.users, id, t, e);
      }
      user := FindByEmail(Visible(db.users, conn), tenant, claims.email.value);
      if user.Some? && db.providers[provider].verifiedOnly && !NormalizedEmailVerified(claims.verified) {
        return Err(EmailNotVerified);
      }
    }
    if user.None? {
      var email := LocalEmail(claims, tenant);
      if !Sees(conn, tenant) {
        return Err(RowCheck);
      }
      if newUser in db.users {
        return Err(UserTaken);
      }
      if EmailUsed(db.users, tenant, email) {
        return Err(EmailTaken);
      }
      db.users := db.users[newUser := User(tenant, email, NormalizedEmailVerified(claims.verified) || HasEmail(claims))];
      user := Some(newUser);
    }
    if LinkedElsewhere(db.links, key, user.value) {
      return Err(LinkConflict);
    }
    if key in db.links {
      db.links := db.links[key := db.links[key].(email := claims.email)];
    } else {
      db.links := db.links[key := Link(user.value, claims.email)];
    }
    return Ok(user.value);
  }
}
