/**
 Authorization codes and refresh tokens: the code and refresh branches of the token
 endpoint, token exchange and consent, over whole runs of atomic requests.

 Sources: app/sso/oidc/services.py, app/sso/oidc/endpoints.py.  The properties are
 those of sections 4.1.2 and 6 of RFC 6749 and section 4.6 of RFC 7636.
 */
module Oidc {
  import opened Common

  const CODE_LIFETIME := 600
  const REFRESH_LIFETIME := 604_800

  datatype Code = Code(client: string, user: string, tenant: string, redirect: string, scope: string,
                       challenge: Option<string>, method_: Option<string>, expires: int, used: bool)

  datatype Refresh = Refresh(client: string, user: string, tenant: string, expires: int, revoked: bool)

  datatype Client = Client(secret: string, active: bool)

  /** A redemption that stored a refresh token: the code and its row at that moment. */
  datatype Grant = Grant(code: string, row: Code)

  /**
   `grants` and `lineage` are bookkeeping: every redemption that stored a refresh token,
   in order, and for each refresh token that descends from a code the position of that
   redemption.
   */
  datatype State = State(s256: string -> string, clock: int, clients: map<string, Client>, users: set<string>,
                         codes: map<string, Code>, refresh: map<string, Refresh>,
                         grants: seq<Grant>, lineage: map<string, nat>)

  /** Credentials of the client calling the token endpoint; an empty secret is not checked. */
  datatype Caller = Caller(client: string, secret: string)

  /** The user's row is found, hidden from the connection, or the query fails. */
  datatype Lookup = Found | Missing | Failing

  /**
   How the steps after the code or token check end, in their order: the user's row,
   reading the policies, signing the access token, storing the refresh token, and
   signing the ID token.  A step that fails raises, and nothing is rolled back.
   */
  datatype Later = Later(lookup: Lookup, policies: bool, signed: bool, stored: bool, idSigned: bool)

  /** The user of the consent session. */
  datatype Session = Session(user: string, tenant: string)

  /** `jti` is the id drawn for a new refresh token. */
  datatype Event =
    | Tick(seconds: nat)
    | PutClient(client: string, secret: string)
    | DropClient(client: string, deleted: bool)
    | AddUser(user: string)
    | DeleteUser(user: string)
    | Consent(session: Option<Session>, action: string, code: string, client: string, redirect: string,
              scope: string, challenge: string, method_: string)
    | Redeem(caller: Caller, code: string, redirect: string, verifier: Option<string>, later: Later, jti: string)
    | Rotate(caller: Caller, token: string, later: Later, jti: string)
    | Exchange(caller: Caller, user: string, tenant: string, openid: bool, later: Later, jti: string)

  datatype Response =
    | Tokens(refresh: string, client: string, user: string, tenant: string)
    | InvalidClient | InvalidRequest | InvalidGrant | UserNotFound | ServerError
    | SignIn | AccessDenied | CodeIssued(code: string) | NoContent

  function Start(s256: string -> string, clock: int): State {
    State(s256, clock, map[], {}, map[], map[], [], map[])
  }

  predicate ValidClient(s: State, caller: Caller) {
    caller.client in s.clients && s.clients[caller.client].active &&
    (caller.secret == "" || s.clients[caller.client].secret == caller.secret)
  }

  function OrNone(s: string): Option<string> {
    if s == "" then None else Some(s)
  }

  /** Without a challenge nothing is asked; with one the verifier must yield it. */
  predicate PkceOk(s256: string -> string, row: Code, verifier: Option<string>) {
    row.challenge.Some? && row.challenge.value != "" ==>
      verifier.Some? && verifier.value != "" &&
      (if row.method_ == Some("S256") then s256(verifier.value) else verifier.value) == row.challenge.value
  }

  predicate Redeemable(s: State, client: string, code: string, redirect: string, verifier: Option<string>) {
    code in s.codes &&
    var row := s.codes[code];
    row.client == client && row.redirect == redirect && !row.used && s.clock < row.expires &&
    PkceOk(s.s256, row, verifier)
  }

  predicate Live(s: State, token: string, client: string) {
    token in s.refresh && s.refresh[token].client == client && !s.refresh[token].revoked &&
    s.clock < s.refresh[token].expires
  }

  function NewRefresh(s: State, client: string, user: string, tenant: string): Refresh {
    Refresh(client, user, tenant, s.clock + REFRESH_LIFETIME, false)
  }

  /** "openid" in scope, on the scope as one string. */
  predicate AsksOpenid(scope: string) {
    exists i :: 0 <= i < |scope| && StartsAt(scope, i, "openid")
  }

  predicate StartsAt(s: string, i: nat, word: string) {
    i + |word| <= |s| && s[i..i + |word|] == word
  }

  /** Only the action "deny" denies; the insert needs the rows of client and user, not an active client. */
  function DoConsent(s: State, session: Option<Session>, action: string, code: string, client: string, redirect: string,
                     scope: string, challenge: string, method_: string): (State, Response) {
    if session.None? then (s, SignIn)
    else if action == "deny" then (s, AccessDenied)
    else if code in s.codes || client !in s.clients || session.value.user !in s.users then (s, ServerError)
    else
      (s.(codes := s.codes[code := Code(client, session.value.user, session.value.tenant, redirect, scope,
                                        OrNone(challenge), OrNone(method_), s.clock + CODE_LIFETIME, false)]),
       CodeIssued(code))
  }

  /** The new refresh token gets stored. */
  predicate Stores(s: State, later: Later, jti: string) {
    later.policies && later.signed && later.stored && jti !in s.refresh
  }

  /** The code is marked used before the user is looked up, the access token signed and the refresh token stored. */
  function DoRedeem(s: State, caller: Caller, code: string, redirect: string, verifier: Option<string>,
                    later: Later, jti: string): (State, Response) {
    if !ValidClient(s, caller) then (s, InvalidClient)
    else if code == "" || redirect == "" then (s, InvalidRequest)
    else if !Redeemable(s, caller.client, code, redirect, verifier) then (s, InvalidGrant)
    else
      var row := s.codes[code];
      var t := s.(codes := s.codes[code := row.(used := true)]);
      match later.lookup
      case Failing => (t, ServerError)
      case Missing => (t, UserNotFound)
      case Found =>
        if !Stores(s, later, jti) then (t, ServerError)
        else
          (t.(refresh := s.refresh[jti := NewRefresh(s, caller.client, row.user, row.tenant)],
              grants := s.grants + [Grant(code, row)], lineage := s.lineage[jti := |s.grants|]),
           if AsksOpenid(row.scope) && !later.idSigned then ServerError
           else Tokens(jti, caller.client, row.user, row.tenant))
  }

  /** The user is looked up before the old token is revoked; policies and signing come after. */
  function DoRotate(s: State, caller: Caller, token: string, later: Later, jti: string): (State, Response) {
    if !ValidClient(s, caller) then (s, InvalidClient)
    else if token == "" then (s, InvalidRequest)
    else if !Live(s, token, caller.client) then (s, InvalidGrant)
    else if later.lookup.Failing? then (s, ServerError)
    else if later.lookup.Missing? then (s, UserNotFound)
    else
      var row := s.refresh[token];
      var revoked := s.refresh[token := row.(revoked := true)];
      if !Stores(s, later, jti) then (s.(refresh := revoked), ServerError)
      else
        (s.(refresh := revoked[jti := NewRefresh(s, caller.client, row.user, row.tenant)],
            lineage := if token in s.lineage then s.lineage[jti := s.lineage[token]] else s.lineage - {jti}),
         Tokens(jti, caller.client, row.user, row.tenant))
  }

  function DoExchange(s: State, caller: Caller, user: string, tenant: string, openid: bool, later: Later,
                      jti: string): (State, Response) {
    if !ValidClient(s, caller) then (s, InvalidClient)
    else if !Stores(s, later, jti) then (s, ServerError)
    else
      (s.(refresh := s.refresh[jti := NewRefresh(s, caller.client, user, tenant)], lineage := s.lineage - {jti}),
       if openid && !later.idSigned then ServerError else Tokens(jti, caller.client, user, tenant))
  }

  /** Deleting a user deletes their codes and refresh tokens. */
  function DoDeleteUser(s: State, user: string): State {
    s.(users := s.users - {user},
       codes := map c | c in s.codes && s.codes[c].user != user :: s.codes[c],
       refresh := map j | j in s.refresh && s.refresh[j].user != user :: s.refresh[j])
  }

  /** Deactivating a client keeps its row and codes; deleting it deletes them. */
  function DoDropClient(s: State, client: string, deleted: bool): State {
    if client !in s.clients then s
    else if !deleted then s.(clients := s.clients[client := s.clients[client].(active := false)])
    else
      s.(clients := s.clients - {client},
         codes := map c | c in s.codes && s.codes[c].client != client :: s.codes[c])
  }

  function Handle(s: State, e: Event): (State, Response) {
    match e
    case Tick(d) => (s.(clock := s.clock + d), NoContent)
    case PutClient(client, secret) => (s.(clients := s.clients[client := Client(secret, true)]), NoContent)
    case DropClient(client, deleted) => (DoDropClient(s, client, deleted), NoContent)
    case AddUser(user) => (s.(users := s.users + {user}), NoContent)
    case DeleteUser(user) => (DoDeleteUser(s, user), NoContent)
    case Consent(session, action, code, client, redirect, scope, challenge, method_) =>
      DoConsent(s, session, action, code, client, redirect, scope, challenge, method_)
    case Redeem(caller, code, redirect, verifier, later, jti) =>
      DoRedeem(s, caller, code, redirect, verifier, later, jti)
    case Rotate(caller, token, later, jti) => DoRotate(s, caller, token, later, jti)
    case Exchange(caller, user, tenant, openid, later, jti) =>
      DoExchange(s, caller, user, tenant, openid, later, jti)
  }

  function Step(s: State, e: Event): State {
    Handle(s, e).0
  }

  function Answer(s: State, e: Event): Response {
    Handle(s, e).1
  }

  function Run(s: State, events: seq<Event>): State
    decreases |events|
  {
    if events == [] then s else Run(Step(s, events[0]), events[1..])
  }

  /*** The invariant ***/

  ghost predicate Granted(grants: seq<Grant>, code: string) {
    exists g :: 0 <= g < |grants| && grants[g].code == code
  }

  /** A redeemed code is used, and no code was redeemed twice. */
  ghost predicate CodeInv(s: State) {
    (forall c :: c in s.codes && Granted(s.grants, c) ==> s.codes[c].used) &&
    (forall g, g' :: 0 <= g < g' < |s.grants| ==> s.grants[g].code != s.grants[g'].code)
  }

  /** A descendant carries the client, user and tenant of its code. */
  ghost predicate Descends(s: State, token: string)
    requires token in s.refresh && token in s.lineage
  {
    s.lineage[token] < |s.grants| &&
    var row, code := s.refresh[token], s.grants[s.lineage[token]].row;
    row.client == code.client && row.user == code.user && row.tenant == code.tenant
  }

  ghost predicate LineageInv(s: State) {
    forall j :: j in s.refresh && j in s.lineage ==> Descends(s, j)
  }

  predicate Unrevoked(s: State, token: string) {
    token in s.refresh && token in s.lineage && !s.refresh[token].revoked
  }

  /** At most one unrevoked refresh token descends from one redemption. */
  ghost predicate OneLive(s: State) {
    forall j, j' :: Unrevoked(s, j) && Unrevoked(s, j') && s.lineage[j] == s.lineage[j'] ==> j == j'
  }

  /** No unrevoked refresh token descends from the redemption. */
  ghost predicate NoneLive(s: State, g: nat) {
    forall j :: Unrevoked(s, j) ==> s.lineage[j] != g
  }

  ghost predicate Inv(s: State) {
    CodeInv(s) && LineageInv(s) && OneLive(s)
  }

  /** A code drawn by a consent is not one that was redeemed before and whose row is gone. */
  ghost predicate FreshStep(s: State, e: Event) {
    e.Consent? && Answer(s, e).CodeIssued? ==> !Granted(s.grants, e.code)
  }

  ghost predicate FreshRun(s: State, events: seq<Event>)
    decreases |events|
  {
    events == [] || (FreshStep(s, events[0]) && FreshRun(Step(s, events[0]), events[1..]))
  }

  lemma SpendKeepsInv(s: State, code: string)
    requires Inv(s) && code in s.codes
    ensures Inv(s.(codes := s.codes[code := s.codes[code].(used := true)]))
  {}

  lemma IssueKeepsInv(s: State, code: string, row: Code, jti: string, new_: Refresh)
    requires Inv(s) && code in s.codes && s.codes[code].used && !Granted(s.grants, code) && jti !in s.refresh
    requires new_.client == row.client && new_.user == row.user && new_.tenant == row.tenant
    ensures Inv(s.(refresh := s.refresh[jti := new_], grants := s.grants + [Grant(code, row)],
                   lineage := s.lineage[jti := |s.grants|]))
  {}

  lemma RedeemKeepsInv(s: State, caller: Caller, code: string, redirect: string, verifier: Option<string>,
                       later: Later, jti: string)
    requires Inv(s)
    ensures Inv(DoRedeem(s, caller, code, redirect, verifier, later, jti).0)
  {
    if code in s.codes && !s.codes[code].used {
      var row := s.codes[code];
      SpendKeepsInv(s, code);
      if jti !in s.refresh {
        IssueKeepsInv(s.(codes := s.codes[code := row.(used := true)]), code, row, jti,
                      NewRefresh(s, row.client, row.user, row.tenant));
      }
    }
  }

  lemma RevokeKeepsInv(s: State, token: string)
    requires Inv(s) && token in s.refresh
    ensures Inv(s.(refresh := s.refresh[token := s.refresh[token].(revoked := true)]))
    ensures token in s.lineage && !s.refresh[token].revoked ==>
              NoneLive(s.(refresh := s.refresh[token := s.refresh[token].(revoked := true)]), s.lineage[token])
  {}

  /** A new token joins a lineage without a live one, or none at all. */
  lemma JoinKeepsInv(s: State, jti: string, new_: Refresh, g: Option<nat>)
    requires Inv(s) && jti !in s.refresh
    requires g.Some? ==>
               g.value < |s.grants| && NoneLive(s, g.value) && new_.client == s.grants[g.value].row.client &&
               new_.user == s.grants[g.value].row.user && new_.tenant == s.grants[g.value].row.tenant
    ensures Inv(s.(refresh := s.refresh[jti := new_],
                   lineage := if g.Some? then s.lineage[jti := g.value] else s.lineage - {jti}))
  {}

  lemma RotateKeepsInv(s: State, caller: Caller, token: string, later: Later, jti: string)
    requires Inv(s)
    ensures Inv(DoRotate(s, caller, token, later, jti).0)
  {
    if Live(s, token, caller.client) {
      var row := s.refresh[token];
      RevokeKeepsInv(s, token);
      assert token in s.lineage ==> Descends(s, token);
      if jti !in s.refresh {
        JoinKeepsInv(s.(refresh := s.refresh[token := row.(revoked := true)]), jti,
                     NewRefresh(s, caller.client, row.user, row.tenant),
                     if token in s.lineage then Some(s.lineage[token]) else None);
      }
    }
  }

  lemma OtherKeepsInv(s: State, t: State)
    requires Inv(s) && t.grants == s.grants
    requires forall c :: c in t.codes && Granted(s.grants, c) ==> c in s.codes && t.codes[c] == s.codes[c]
    requires forall j :: j in t.refresh && j in t.lineage ==>
               j in s.refresh && t.refresh[j] == s.refresh[j] && j in s.lineage && t.lineage[j] == s.lineage[j]
    ensures Inv(t)
  {}

  lemma ConsentKeepsInv(s: State, e: Event)
    requires Inv(s) && FreshStep(s, e) && e.Consent?
    ensures Inv(Step(s, e))
  {}

  lemma StepKeepsInv(s: State, e: Event)
    requires Inv(s) && FreshStep(s, e)
    ensures Inv(Step(s, e))
  {
    match e
    case Redeem(caller, code, redirect, verifier, later, jti) =>
      RedeemKeepsInv(s, caller, code, redirect, verifier, later, jti);
    case Rotate(caller, token, later, jti) => RotateKeepsInv(s, caller, token, later, jti);
    case Consent(_, _, _, _, _, _, _, _) => ConsentKeepsInv(s, e);
    case Exchange(caller, user, tenant, _, _, jti) =>
      if jti !in s.refresh { JoinKeepsInv(s, jti, NewRefresh(s, caller.client, user, tenant), None); }
    case DeleteUser(user) => OtherKeepsInv(s, DoDeleteUser(s, user));
    case DropClient(client, deleted) => OtherKeepsInv(s, DoDropClient(s, client, deleted));
    case _ => OtherKeepsInv(s, Step(s, e));
  }

  /** The freshness of codes is exactly what the invariant needs. */
  lemma StepKeepsInvIff(s: State, e: Event)
    requires Inv(s)
    ensures Inv(Step(s, e)) <==> FreshStep(s, e)
  {
    if FreshStep(s, e) {
      StepKeepsInv(s, e);
    } else {
      assert e.code in Step(s, e).codes && !Step(s, e).codes[e.code].used;
    }
  }

  lemma {:induction false} RunKeepsInv(s: State, events: seq<Event>)
    requires Inv(s) && FreshRun(s, events)
    ensures Inv(Run(s, events))
    decreases |events|
  {
    if events != [] {
      StepKeepsInv(s, events[0]);
      RunKeepsInv(Step(s, events[0]), events[1..]);
    }
  }

  function Reached(s256: string -> string, clock: int, events: seq<Event>): State {
    Run(Start(s256, clock), events)
  }

  /*** Main results over whole runs ***/

  /** Each authorization code is redeemed at most once. */
  lemma CodeYieldsTokensOnce(s256: string -> string, clock: int, events: seq<Event>, g: nat, g': nat)
    requires FreshRun(Start(s256, clock), events)
    requires var s := Reached(s256, clock, events);
             g < |s.grants| && g' < |s.grants| && s.grants[g].code == s.grants[g'].code
    ensures g == g'
  {
    RunKeepsInv(Start(s256, clock), events);
  }

  /** Two unrevoked refresh tokens that descend from the same code are the same token. */
  lemma OneLiveTokenPerCode(s256: string -> string, clock: int, events: seq<Event>, j: string, j': string)
    requires FreshRun(Start(s256, clock), events)
    requires var s := Reached(s256, clock, events);
             Unrevoked(s, j) && Unrevoked(s, j') && s.lineage[j] < |s.grants| && s.lineage[j'] < |s.grants| &&
             s.grants[s.lineage[j]].code == s.grants[s.lineage[j']].code
    ensures j == j'
  {
    RunKeepsInv(Start(s256, clock), events);
  }

  /** A refresh token that descends from a code carries the code's client, user and tenant. */
  lemma DescendantsKeepIdentity(s256: string -> string, clock: int, events: seq<Event>, j: string)
    requires FreshRun(Start(s256, clock), events)
    requires var s := Reached(s256, clock, events); j in s.refresh && j in s.lineage
    ensures Descends(Reached(s256, clock, events), j)
  {
    RunKeepsInv(Start(s256, clock), events);
  }

  /*** Redemption ***/

  /** The request gets past the checks of client, parameters and code. */
  predicate PassesCodeCheck(s: State, e: Event)
    requires e.Redeem?
  {
    ValidClient(s, e.caller) && e.code != "" && e.redirect != "" &&
    Redeemable(s, e.caller.client, e.code, e.redirect, e.verifier)
  }

  /** Every later step succeeds. */
  predicate GoesThrough(s: State, e: Event)
    requires e.Redeem? && e.code in s.codes
  {
    e.later.lookup.Found? && Stores(s, e.later, e.jti) && (AsksOpenid(s.codes[e.code].scope) ==> e.later.idSigned)
  }

  /**
   A redemption answers with tokens exactly when the client is active and gives no secret
   or its own, the code is an unused and unexpired one of that client and redirect, the
   verifier yields its challenge if it has one, and every later step succeeds; the tokens
   carry the client, user and tenant of the code.
   */
  lemma RedeemSucceedsIff(s: State, e: Event)
    requires e.Redeem?
    ensures Answer(s, e).Tokens? <==>
            e.caller.client in s.clients && s.clients[e.caller.client].active &&
            (e.caller.secret == "" || e.caller.secret == s.clients[e.caller.client].secret) &&
            e.code != "" && e.redirect != "" && e.code in s.codes &&
            var row := s.codes[e.code];
            row.client == e.caller.client && row.redirect == e.redirect && !row.used && s.clock < row.expires &&
            (row.challenge.None? || row.challenge.value == "" ||
              (e.verifier.Some? && e.verifier.value != "" &&
               row.challenge.value == if row.method_ == Some("S256") then s.s256(e.verifier.value) else e.verifier.value)) &&
            e.later.lookup.Found? && e.later.policies && e.later.signed && e.later.stored && e.jti !in s.refresh &&
            ((exists before, after :: row.scope == before + "openid" + after) ==> e.later.idSigned)
    ensures Answer(s, e).Tokens? ==>
            var row := s.codes[e.code];
            Answer(s, e) == Tokens(e.jti, row.client, row.user, row.tenant) &&
            Step(s, e).codes == s.codes[e.code := row.(used := true)] &&
            Step(s, e).refresh == s.refresh[e.jti := Refresh(row.client, row.user, row.tenant,
                                                             s.clock + 7 * 24 * 3600, false)]
  {
    if e.code in s.codes { OpenidIff(s.codes[e.code].scope); }
  }

  lemma OpenidIff(scope: string)
    ensures AsksOpenid(scope) <==> exists before, after :: scope == before + "openid" + after
  {
    if AsksOpenid(scope) {
      var i :| 0 <= i < |scope| && StartsAt(scope, i, "openid");
      assert scope == scope[..i] + "openid" + scope[i + 6..];
    }
    if before, after :| scope == before + "openid" + after { assert StartsAt(scope, |before|, "openid"); }
  }

  /** An approved consent for existing rows stores an unused code for ten minutes, bound to what the form carried. */
  lemma ConsentStoresIff(s: State, e: Event)
    requires e.Consent?
    ensures Answer(s, e) == CodeIssued(e.code) <==>
            e.session.Some? && e.action != "deny" && e.client in s.clients && e.session.value.user in s.users &&
            e.code !in s.codes
    ensures Answer(s, e) == CodeIssued(e.code) ==>
            var row := Step(s, e).codes[e.code];
            Step(s, e) == s.(codes := s.codes[e.code := row]) &&
            row.client == e.client && row.user == e.session.value.user && row.tenant == e.session.value.tenant &&
            row.redirect == e.redirect && row.scope == e.scope && row.expires == s.clock + 600 && !row.used &&
            row.challenge == (if e.challenge == "" then None else Some(e.challenge)) &&
            row.method_ == (if e.method_ == "" then None else Some(e.method_))
    ensures Answer(s, e) != CodeIssued(e.code) ==> Step(s, e) == s
  {}

  /**
   A token exchange for a resolved user answers with tokens exactly when the client is
   right and the later steps succeed; its refresh token has that user's identity and
   descends from no code.
   */
  lemma ExchangeSucceedsIff(s: State, e: Event)
    requires e.Exchange?
    ensures Answer(s, e).Tokens? <==>
            e.caller.client in s.clients && s.clients[e.caller.client].active &&
            (e.caller.secret == "" || e.caller.secret == s.clients[e.caller.client].secret) &&
            e.later.policies && e.later.signed && e.later.stored && e.jti !in s.refresh && (e.openid ==> e.later.idSigned)
    ensures Answer(s, e).Tokens? ==>
            Answer(s, e) == Tokens(e.jti, e.caller.client, e.user, e.tenant) && e.jti !in Step(s, e).lineage &&
            Step(s, e).refresh ==
            s.refresh[e.jti := Refresh(e.caller.client, e.user, e.tenant, s.clock + 7 * 24 * 3600, false)]
    ensures Step(s, e).codes == s.codes && Step(s, e).grants == s.grants
  {}

  /**
   Deleting a user deletes exactly their codes and refresh tokens; deleting a client exactly
   its codes; deactivating it only stops it from calling.
   */
  lemma DeletionsMean(s: State, user: string, client: string)
    ensures var t := Step(s, DeleteUser(user));
            t == s.(users := s.users - {user}, codes := t.codes, refresh := t.refresh) &&
            (forall c :: c in t.codes <==> c in s.codes && s.codes[c].user != user) &&
            (forall c :: c in t.codes ==> t.codes[c] == s.codes[c]) &&
            (forall j :: j in t.refresh <==> j in s.refresh && s.refresh[j].user != user) &&
            (forall j :: j in t.refresh ==> t.refresh[j] == s.refresh[j])
    ensures var t := Step(s, DropClient(client, true));
            if client !in s.clients then t == s
            else t == s.(clients := s.clients - {client}, codes := t.codes) &&
                 (forall c :: c in t.codes <==> c in s.codes && s.codes[c].client != client) &&
                 (forall c :: c in t.codes ==> t.codes[c] == s.codes[c])
    ensures var t := Step(s, DropClient(client, false));
            if client !in s.clients then t == s
            else t == s.(clients := s.clients[client := s.clients[client].(active := false)])
  {}

  /** The verifier does not yield the challenge, by the method stored with it. */
  predicate Mismatched(s: State, challenge: string, method_: string, verifier: Option<string>) {
    verifier.None? || verifier.value == "" ||
    (if method_ == "S256" then s.s256(verifier.value) else verifier.value) != challenge
  }

  /** A run that stores no code under that string again. */
  predicate NotStoredAgain(events: seq<Event>, code: string) {
    forall k :: 0 <= k < |events| ==> !(events[k].Consent? && events[k].code == code)
  }

  lemma {:induction false} KeepsChallenge(s: State, events: seq<Event>, code: string)
    requires NotStoredAgain(events, code)
    ensures Run(s, events).s256 == s.s256
    ensures code in Run(s, events).codes ==>
              code in s.codes && Run(s, events).codes[code] == s.codes[code].(used := Run(s, events).codes[code].used)
    decreases |events|
  {
    if events != [] {
      forall k | 0 <= k < |events| - 1 ensures events[1..][k] == events[k + 1] {}
      StepKeepsRow(s, events[0], code);
      KeepsChallenge(Step(s, events[0]), events[1..], code);
    }
  }

  lemma StepKeepsRow(s: State, e: Event, code: string)
    requires !(e.Consent? && e.code == code)
    ensures Step(s, e).s256 == s.s256
    ensures code in Step(s, e).codes ==>
              code in s.codes && Step(s, e).codes[code] == s.codes[code].(used := Step(s, e).codes[code].used)
  {}

  /**
   A code consented to with a challenge is bound to the verifier: in every run after that
   which does not store the string again, no redemption of it with another verifier, or
   none, answers with tokens, whoever calls and whatever else the request carries.
   */
  lemma WrongVerifierNeverRedeems(s: State, e: Event, events: seq<Event>, r: Event)
    requires e.Consent? && Answer(s, e) == CodeIssued(e.code) && e.challenge != "" && NotStoredAgain(events, e.code)
    requires r.Redeem? && r.code == e.code && Mismatched(s, e.challenge, e.method_, r.verifier)
    ensures !Answer(Run(Step(s, e), events), r).Tokens?
  {
    ConsentStoresIff(s, e);
    KeepsChallenge(Step(s, e), events, e.code);
    RedeemSucceedsIff(Run(Step(s, e), events), r);
  }

  /**
   The right one redeems it: after a consent with the challenge s256(v) and the method
   S256, and any run that leaves the code alone, the client redeems it with v within the
   ten minutes, when it is active and the later steps succeed.
   */
  lemma RightVerifierRedeems(s: State, e: Event, events: seq<Event>, r: Event, v: string)
    requires e.Consent? && Answer(s, e) == CodeIssued(e.code) && v != "" && e.challenge == s.s256(v) && e.method_ == "S256"
    requires NeverSpent(Step(s, e), events, e.code) && e.code != "" && e.redirect != ""
    requires r.Redeem? && r.code == e.code && r.redirect == e.redirect && r.verifier == Some(v) && r.caller.client == e.client
    requires var t := Run(Step(s, e), events);
             e.client in t.clients && t.clients[e.client].active &&
             (r.caller.secret == "" || r.caller.secret == t.clients[e.client].secret) && t.clock < s.clock + 600 &&
             r.later == Later(Found, true, true, true, true) && r.jti !in t.refresh
    ensures var t := Run(Step(s, e), events);
            Answer(t, r) == Tokens(r.jti, e.client, e.session.value.user, e.session.value.tenant)
  {
    ConsentStoresIff(s, e);
    StaysRedeemable(Step(s, e), events, e.code);
    RedeemSucceedsIff(Run(Step(s, e), events), r);
  }

  /**
   A failed redemption leaves everything as it was exactly when it did not pass the
   code check.  Otherwise the code is spent although no tokens were issued, and a
   refresh token is left behind exactly when only the ID token failed.
   */
  lemma FailedRedemptionKeepsCodeIff(s: State, e: Event)
    requires e.Redeem? && !Answer(s, e).Tokens?
    ensures Step(s, e) == s <==> !PassesCodeCheck(s, e)
    ensures PassesCodeCheck(s, e) ==> Step(s, e).codes == s.codes[e.code := s.codes[e.code].(used := true)]
    ensures PassesCodeCheck(s, e) ==>
              (Step(s, e).refresh == s.refresh <==> !(e.later.lookup.Found? && Stores(s, e.later, e.jti)))
  {
    if PassesCodeCheck(s, e) {
      assert Step(s, e).codes[e.code].used && !s.codes[e.code].used;
      assert e.jti !in s.refresh ==> s.refresh[e.jti := NewRefresh(s, e.caller.client, s.codes[e.code].user,
                                                                   s.codes[e.code].tenant)] != s.refresh;
    }
  }

  /** A spent code is refused for ever, in any run that does not store its string anew. */
  lemma SpentCodeStaysSpent(s: State, events: seq<Event>, code: string)
    requires code in s.codes && s.codes[code].used
    requires forall k :: 0 <= k < |events| ==> !(events[k].Consent? && events[k].code == code)
    ensures forall client, redirect, verifier :: !Redeemable(Run(s, events), client, code, redirect, verifier)
  {
    SpentStays(s, events, code);
  }

  predicate SpentOrGone(s: State, code: string) {
    code in s.codes ==> s.codes[code].used
  }

  lemma StepKeepsSpent(s: State, e: Event, code: string)
    requires SpentOrGone(s, code) && !(e.Consent? && e.code == code)
    ensures SpentOrGone(Step(s, e), code)
  {}

  lemma {:induction false} SpentStays(s: State, events: seq<Event>, code: string)
    requires SpentOrGone(s, code)
    requires forall k :: 0 <= k < |events| ==> !(events[k].Consent? && events[k].code == code)
    ensures SpentOrGone(Run(s, events), code)
    decreases |events|
  {
    if events != [] {
      forall k | 0 <= k < |events| - 1 ensures events[1..][k] == events[k + 1] {}
      StepKeepsSpent(s, events[0], code);
      SpentStays(Step(s, events[0]), events[1..], code);
    }
  }

  /** The event may take the code away: a redemption past the code check, or a deletion. */
  predicate Spends(s: State, e: Event, code: string)
    requires code in s.codes
  {
    match e
    case Redeem(caller, c, redirect, verifier, _, _) =>
      c == code && ValidClient(s, caller) && redirect != "" && c != "" &&
      Redeemable(s, caller.client, code, redirect, verifier)
    case DeleteUser(user) => user == s.codes[code].user
    case DropClient(client, deleted) => deleted && client == s.codes[code].client
    case _ => false
  }

  predicate NeverSpent(s: State, events: seq<Event>, code: string)
    decreases |events|
  {
    events == [] ||
    (code in s.codes && !Spends(s, events[0], code) && NeverSpent(Step(s, events[0]), events[1..], code))
  }

  lemma StepKeepsCode(s: State, e: Event, code: string)
    requires code in s.codes && !Spends(s, e, code)
    ensures code in Step(s, e).codes && Step(s, e).codes[code] == s.codes[code] && Step(s, e).s256 == s.s256
  {}

  /**
   Failed attempts, however many and whatever else happens in between, leave a code
   redeemable by its own client until it expires.
   */
  lemma {:induction false} StaysRedeemable(s: State, events: seq<Event>, code: string)
    requires code in s.codes && NeverSpent(s, events, code)
    ensures code in Run(s, events).codes && Run(s, events).codes[code] == s.codes[code]
    ensures Run(s, events).s256 == s.s256
    decreases |events|
  {
    if events != [] {
      StepKeepsCode(s, events[0], code);
      StaysRedeemable(Step(s, events[0]), events[1..], code);
    }
  }

  predicate WrongVerifiers(s: State, events: seq<Event>, code: string)
    requires code in s.codes
  {
    forall k :: 0 <= k < |events| ==>
      events[k].Redeem? && events[k].code == code && !PkceOk(s.s256, s.codes[code], events[k].verifier)
  }

  /** Any number of attempts with a wrong or missing verifier are refused and leave everything as it was. */
  lemma {:induction false} WrongVerifiersKeepCode(s: State, events: seq<Event>, code: string)
    requires code in s.codes && WrongVerifiers(s, events, code)
    ensures Run(s, events) == s && NeverSpent(s, events, code)
    ensures forall k :: 0 <= k < |events| ==> !Answer(s, events[k]).Tokens?
    decreases |events|
  {
    if events != [] {
      assert Step(s, events[0]) == s;
      forall k | 0 <= k < |events| - 1 ensures events[1..][k] == events[k + 1] {}
      WrongVerifiersKeepCode(s, events[1..], code);
      forall k | 0 <= k < |events| ensures !Answer(s, events[k]).Tokens? {
        if k > 0 { assert events[k] == events[1..][k - 1]; }
      }
    }
  }

  /** After any number of failed attempts the right client still redeems the code in time, when the later steps succeed. */
  lemma RedeemsAfterFailures(s: State, events: seq<Event>, e: Event)
    requires e.Redeem? && e.code in s.codes && NeverSpent(s, events, e.code)
    requires Redeemable(s, e.caller.client, e.code, e.redirect, e.verifier) && e.code != "" && e.redirect != ""
    requires var t := Run(s, events);
             ValidClient(t, e.caller) && t.clock < s.codes[e.code].expires && e.code in t.codes && GoesThrough(t, e)
    ensures Answer(Run(s, events), e).Tokens?
  {
    StaysRedeemable(s, events, e.code);
    RedeemSucceedsIff(Run(s, events), e);
  }

  /*** Rotation ***/

  /** The request gets past the checks of client, parameter, token and user. */
  predicate PassesTokenCheck(s: State, e: Event)
    requires e.Rotate?
  {
    ValidClient(s, e.caller) && e.token != "" && Live(s, e.token, e.caller.client) && e.later.lookup.Found?
  }

  /**
   A refresh succeeds exactly for an unrevoked, unexpired token of the calling client, active
   and with no secret or its own, when every later step does; it revokes that token and
   stores one new one, for seven days, with the same identity.
   */
  lemma RotateSucceedsIff(s: State, e: Event)
    requires e.Rotate?
    ensures Answer(s, e).Tokens? <==>
            e.caller.client in s.clients && s.clients[e.caller.client].active &&
            (e.caller.secret == "" || e.caller.secret == s.clients[e.caller.client].secret) &&
            e.token != "" && e.token in s.refresh && s.refresh[e.token].client == e.caller.client &&
            !s.refresh[e.token].revoked && s.clock < s.refresh[e.token].expires &&
            e.later.lookup.Found? && e.later.policies && e.later.signed && e.later.stored && e.jti !in s.refresh
    ensures Answer(s, e).Tokens? ==>
            var row := s.refresh[e.token];
            Answer(s, e) == Tokens(e.jti, row.client, row.user, row.tenant) &&
            Step(s, e).refresh == s.refresh[e.token := row.(revoked := true)]
                                           [e.jti := row.(expires := s.clock + 7 * 24 * 3600)]
  {}

  /**
   A failed refresh leaves everything as it was exactly when it did not pass the token
   check.  Otherwise the old token is revoked and no new one exists.
   */
  lemma FailedRotationKeepsTokenIff(s: State, e: Event)
    requires e.Rotate? && !Answer(s, e).Tokens?
    ensures Step(s, e) == s <==> !PassesTokenCheck(s, e)
    ensures PassesTokenCheck(s, e) ==> Step(s, e).refresh == s.refresh[e.token := s.refresh[e.token].(revoked := true)]
  {
    if PassesTokenCheck(s, e) {
      assert Step(s, e).refresh[e.token].revoked && !s.refresh[e.token].revoked;
    }
  }

  lemma StepKeepsNoneLive(s: State, e: Event, g: nat)
    requires NoneLive(s, g) && g < |s.grants|
    ensures NoneLive(Step(s, e), g) && g < |Step(s, e).grants|
  {
    var t := Step(s, e);
    forall j | Unrevoked(t, j) ensures t.lineage[j] != g {
      if e.Rotate? && j !in s.refresh { assert e.token in s.lineage ==> Unrevoked(s, e.token); }
      assert j in s.refresh && j in s.lineage && !s.refresh[j].revoked ==> Unrevoked(s, j);
    }
  }

  lemma {:induction false} RunKeepsNoneLive(s: State, events: seq<Event>, g: nat)
    requires NoneLive(s, g) && g < |s.grants|
    ensures NoneLive(Run(s, events), g)
    decreases |events|
  {
    if events != [] {
      StepKeepsNoneLive(s, events[0], g);
      RunKeepsNoneLive(Step(s, events[0]), events[1..], g);
    }
  }

  /**
   The session of such a failed refresh is over: in no continuation of the run does
   a refresh token that can be used descend from its code again.
   */
  lemma FailedRotationEndsSession(s256: string -> string, clock: int, events: seq<Event>, e: Event, rest: seq<Event>,
                                  j: string)
    requires FreshRun(Start(s256, clock), events)
    requires var s := Reached(s256, clock, events);
             e.Rotate? && PassesTokenCheck(s, e) && !Stores(s, e.later, e.jti) && e.token in s.lineage
    requires var s := Reached(s256, clock, events); Unrevoked(Run(Step(s, e), rest), j)
    ensures var s := Reached(s256, clock, events);
            Run(Step(s, e), rest).lineage[j] != s.lineage[e.token]
  {
    var s := Reached(s256, clock, events);
    RunKeepsInv(Start(s256, clock), events);
    assert Descends(s, e.token);
    RevokeKeepsInv(s, e.token);
    RunKeepsNoneLive(Step(s, e), rest, s.lineage[e.token]);
  }

  /** The token is gone for good: revoked, or deleted with its user and not drawn again. */
  predicate Dead(s: State, token: string) {
    token in s.refresh ==> s.refresh[token].revoked
  }

  predicate Draws(e: Event, token: string) {
    match e
    case Redeem(_, _, _, _, _, jti) => jti == token
    case Rotate(_, _, _, jti) => jti == token
    case Exchange(_, _, _, _, _, jti) => jti == token
    case _ => false
  }

  /** A rotated token is never accepted again, in any run that does not draw its id anew. */
  lemma {:induction false} RotatedTokenStaysDead(s: State, events: seq<Event>, token: string)
    requires Dead(s, token) && forall k :: 0 <= k < |events| ==> !Draws(events[k], token)
    ensures Dead(Run(s, events), token)
    ensures forall client :: !Live(Run(s, events), token, client)
    decreases |events|
  {
    if events != [] {
      forall k | 0 <= k < |events| - 1 ensures !Draws(events[1..][k], token) { assert events[1..][k] == events[k + 1]; }
      assert Dead(Step(s, events[0]), token);
      RotatedTokenStaysDead(Step(s, events[0]), events[1..], token);
    }
  }

  /*** The service on its tables ***/

  class OidcTables {
    var codes: map<string, Code>
    var refresh: map<string, Refresh>

    constructor ()
      ensures codes == map[] && refresh == map[]
    {
      codes, refresh := map[], map[];
    }
  }

  class OidcService {
    const db: OidcTables
    const s256: string -> string

    constructor (db: OidcTables, s256: string -> string)
      ensures this.db == db && this.s256 == s256
    {
      this.db, this.s256 := db, s256;
    }

    /** What the tables say of the state, the rest being the given bookkeeping. */
    ghost predicate Shows(s: State)
      reads db
    {
      s.codes == db.codes && s.refresh == db.refresh && s.s256 == s256
    }

    method StoreAuthorizationCode(code: string, client: string, user: string, tenant: string, redirect: string,
                                  scope: string, challenge: Option<string>, method_: Option<string>, now: int)
      returns (ok: bool)
      modifies db`codes
      ensures ok <==> code !in old(db.codes)
      ensures db.codes == if ok then old(db.codes)[code := Code(client, user, tenant, redirect, scope, challenge, method_,
                                                               now + 600, false)]
                          else old(db.codes)
    {
      if code in db.codes {
        return false;
      }
      db.codes := db.codes[code := Code(client, user, tenant, redirect, scope, challenge, method_, now + CODE_LIFETIME, false)];
      return true;
    }

    /** Checks the code and its challenge, then marks it used. */
    method ValidateAuthorizationCode(code: string, client: string, redirect: string, verifier: Option<string>, now: int)
      returns (r: Option<Code>)
      modifies db`codes
      ensures forall s: State :: s.codes == old(db.codes) && s.s256 == s256 && s.clock == now ==>
                (r.Some? <==> Redeemable(s, client, code, redirect, verifier))
      ensures r.Some? <==>
              code in old(db.codes) && var row := old(db.codes)[code];
              row.client == client && row.redirect == redirect && !row.used && now < row.expires &&
              (row.challenge.None? || row.challenge.value == "" ||
                (verifier.Some? && verifier.value != "" &&
                 row.challenge.value == if row.method_ == Some("S256") then s256(verifier.value) else verifier.value))
      ensures r.Some? ==> code in old(db.codes) && r.value == old(db.codes)[code]
      ensures db.codes == if r.Some? then old(db.codes)[code := r.value.(used := true)] else old(db.codes)
    {
      if code !in db.codes {
        return None;
      }
      var row := db.codes[code];
      if row.client != client || row.redirect != redirect || row.used || row.expires <= now {
        return None;
      }
      if row.challenge.Some? && row.challenge.value != "" {
        if verifier.None? || verifier.value == "" {
          return None;
        }
        var computed := if row.method_ == Some("S256") then s256(verifier.value) else verifier.value;
        if computed != row.challenge.value {
          return None;
        }
      }
      db.codes := db.codes[code := row.(used := true)];
      return Some(row);
    }

    method CreateRefreshToken(user: string, tenant: string, client: string, jti: string, now: int) returns (ok: bool)
      modifies db`refresh
      ensures ok <==> jti !in old(db.refresh)
      ensures db.refresh == if ok then old(db.refresh)[jti := Refresh(client, user, tenant, now + 7 * 24 * 3600, false)]
                            else old(db.refresh)
    {
      if jti in db.refresh {
        return false;
      }
      db.refresh := db.refresh[jti := Refresh(client, user, tenant, now + REFRESH_LIFETIME, false)];
      return true;
    }

    method ValidateRefreshToken(token: string, client: string, now: int) returns (r: Option<Refresh>)
      ensures forall s: State :: s.refresh == db.refresh && s.clock == now ==> (r.Some? <==> Live(s, token, client))
      ensures r.Some? <==> token in db.refresh && db.refresh[token].client == client && !db.refresh[token].revoked &&
                           now < db.refresh[token].expires
      ensures r.Some? ==> token in db.refresh && r.value == db.refresh[token]
    {
      if token !in db.refresh {
        return None;
      }
      var row := db.refresh[token];
      if row.client != client || row.revoked || row.expires <= now {
        return None;
      }
      return Some(row);
    }

    method RevokeRefreshToken(token: string)
      modifies db`refresh
      ensures db.refresh == if token in old(db.refresh)
                            then old(db.refresh)[token := old(db.refresh)[token].(revoked := true)]
                            else old(db.refresh)
    {
      if token in db.refresh {
        db.refresh := db.refresh[token := db.refresh[token].(revoked := true)];
      }
    }

    /** The consent form: without a session nothing is stored, nor when the user denies. */
    method ConsentSubmit(s: State, session: Option<Session>, action: string, code: string, client: string,
                         redirect: string, scope: string, challenge: string, method_: string)
      returns (response: Response)
      requires Shows(s)
      modifies db
      ensures var (s', r) := Handle(s, Consent(session, action, code, client, redirect, scope, challenge, method_));
              Shows(s') && response == r
    {
      if session.None? {
        return SignIn;
      }
      if action == "deny" {
        return AccessDenied;
      }
      var user := session.value;
      if client !in s.clients || user.user !in s.users {
        return ServerError;
      }
      var ok := StoreAuthorizationCode(code, client, user.user, user.tenant, redirect, scope, OrNone(challenge),
                                       OrNone(method_), s.clock);
      return if ok then CodeIssued(code) else ServerError;
    }

    /** The authorization_code branch of the token endpoint. */
    method RedeemCode(s: State, caller: Caller, code: string, redirect: string, verifier: Option<string>,
                      later: Later, jti: string)
      returns (response: Response)
      requires Shows(s)
      modifies db
      ensures var (s', r) := Handle(s, Redeem(caller, code, redirect, verifier, later, jti));
              Shows(s') && response == r
    {
      if !ValidClient(s, caller) {
        return InvalidClient;
      }
      if code == "" || redirect == "" {
        return InvalidRequest;
      }
      var row := ValidateAuthorizationCode(code, caller.client, redirect, verifier, s.clock);
      if row.None? {
        return InvalidGrant;
      }
      if later.lookup.Failing? {
        return ServerError;
      }
      if later.lookup.Missing? {
        return UserNotFound;
      }
      if !later.policies || !later.signed || !later.stored {
        return ServerError;
      }
      var ok := CreateRefreshToken(row.value.user, row.value.tenant, caller.client, jti, s.clock);
      if !ok {
        return ServerError;
      }
      if AsksOpenid(row.value.scope) && !later.idSigned {
        return ServerError;
      }
      return Tokens(jti, caller.client, row.value.user, row.value.tenant);
    }

    /** The refresh_token branch of the token endpoint. */
    method RotateToken(s: State, caller: Caller, token: string, later: Later, jti: string)
      returns (response: Response)
      requires Shows(s)
      modifies db
      ensures var (s', r) := Handle(s, Rotate(caller, token, later, jti));
              Shows(s') && response == r
    {
      if !ValidClient(s, caller) {
        return InvalidClient;
      }
      if token == "" {
        return InvalidRequest;
      }
      var row := ValidateRefreshToken(token, caller.client, s.clock);
      if row.None? {
        return InvalidGrant;
      }
      if later.lookup.Failing? {
        return ServerError;
      }
      if later.lookup.Missing? {
        return UserNotFound;
      }
      RevokeRefreshToken(token);
      if !later.policies || !later.signed || !later.stored {
        return ServerError;
      }
      var ok := CreateRefreshToken(row.value.user, row.value.tenant, caller.client, jti, s.clock);
      if !ok {
        return ServerError;
      }
      return Tokens(jti, caller.client, row.value.user, row.value.tenant);
    }
  }

  /*** A run in which the signer fails ***/

  /** Every later step but signing the access token succeeds. */
  const UNSIGNED := Later(Found, true, false, true, true)

  const SIGNED := Later(Found, true, true, true, true)

  function ConsentedState(s256: string -> string, clock: int): State {
    Start(s256, clock).(clients := map["app" := Client("s", true)], users := {"u"},
                        codes := map["c" := Code("app", "u", "t", "https://app", "openid", None, None,
                                                 clock + CODE_LIFETIME, false)])
  }

  function ConsentRun(): seq<Event> {
    [PutClient("app", "s"), AddUser("u"),
     Consent(Some(Session("u", "t")), "allow", "c", "app", "https://app", "openid", "", "")]
  }

  function Redemption(later: Later): Event {
    Redeem(Caller("app", "s"), "c", "https://app", None, later, "r")
  }

  lemma ConsentReaches(s256: string -> string, clock: int)
    ensures Reached(s256, clock, ConsentRun()) == ConsentedState(s256, clock)
  {}

  /** The right client redeems an unexpired code for a visible user, the signer fails, and the code is gone. */
  lemma SignerFailureSpendsCode(s256: string -> string, clock: int)
    ensures var s := Reached(s256, clock, ConsentRun() + [Redemption(UNSIGNED)]);
            "c" in s.codes && s.codes["c"].used && s.clock < s.codes["c"].expires &&
            s.refresh == map[] && s.grants == []
  {
    var s := ConsentedState(s256, clock);
    ConsentReaches(s256, clock);
    RunSnoc(Start(s256, clock), ConsentRun(), Redemption(UNSIGNED));
    assert PassesCodeCheck(s, Redemption(UNSIGNED)) && !GoesThrough(s, Redemption(UNSIGNED));
  }

  /** The code is redeemed, the signer fails at the first refresh, and the only refresh token is revoked. */
  lemma SignerFailureEndsSession(s256: string -> string, clock: int)
    ensures var s := Reached(s256, clock, ConsentRun() + [Redemption(SIGNED)] +
                                          [Rotate(Caller("app", "s"), "r", UNSIGNED, "r2")]);
            s.refresh.Keys == {"r"} && s.refresh["r"].revoked && s.clock < s.refresh["r"].expires
  {
    var s, e := ConsentedState(s256, clock), Rotate(Caller("app", "s"), "r", UNSIGNED, "r2");
    ConsentReaches(s256, clock);
    RunSnoc(Start(s256, clock), ConsentRun(), Redemption(SIGNED));
    RunSnoc(Start(s256, clock), ConsentRun() + [Redemption(SIGNED)], e);
    assert PassesCodeCheck(s, Redemption(SIGNED));
    assert PassesTokenCheck(Step(s, Redemption(SIGNED)), e);
  }

  lemma {:induction false} RunSnoc(s: State, events: seq<Event>, e: Event)
    ensures Run(s, events + [e]) == Step(Run(s, events), e)
    decreases |events|
  {
    if events == [] {
      assert [e][1..] == [];
    } else {
      assert (events + [e])[1..] == events[1..] + [e];
      RunSnoc(Step(s, events[0]), events[1..], e);
    }
  }

  lemma OneEvent(s: State, events: seq<Event>, k: nat)
    requires k < |events|
    ensures Run(s, events[k..]) == Run(Step(s, events[k]), events[k + 1..])
  {}
}
