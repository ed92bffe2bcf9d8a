/**
 Policies, sessions and tokens on one side, the revocation protocol on the other, in one
 machine: requests run on workers, whose revocations enter the protocol, and a worker
 decides by the filter the protocol has filled.

 Sources: app/main.py, app/services/policy_service.py, app/core/token_revocation.py.
 */
module EndToEnd {
  import opened Common
  import opened Revocation
  import N = NoStaleGrants
  import P = RevocationProtocol
  import R = RevocationRuns
  import Sessions

  datatype State = State(requests: N.State, protocol: P.State)

  /** A request revokes its ids one by one in some order; the protocol's own steps may come in between requests. */
  datatype Event =
    | Tick(seconds: nat)
    | Serve(request: N.Event, order: seq<string>)
    | Protocol(event: P.Event)

  function Filters(p: P.State): seq<Bloom> {
    seq(|p.workers|, w requires 0 <= w < |p.workers| => P.Filter(p.hash, p.workers[w]))
  }

  function Start(hash: string -> set<nat>, clock: int, n: nat): State {
    var p := P.Start(hash, clock, n);
    State(N.Start(clock, Filters(p)), p)
  }

  /** The worker on which the request may revoke. */
  function WorkerOf(e: N.Event): Option<nat> {
    match e
    case UpdatePolicy(w, _, _) => Some(w)
    case DeletePolicy(w, _) => Some(w)
    case SessionRequest(w, _) => Some(w)
    case _ => None
  }

  /** The token ids that the request revokes. */
  ghost function Ended(s: N.State, e: N.Event): set<string> {
    N.Step(s.(revoked := {}), e).revoked
  }

  /** The request runs on a worker that is up, and `order` lists what it revokes. */
  ghost predicate Enabled(s: State, e: N.Event, order: seq<string>) {
    !e.Tick? && !e.Sync? && (WorkerOf(e).Some? ==> P.Up(s.protocol, WorkerOf(e).value)) &&
    (WorkerOf(e).None? ==> order == []) && (set x | x in order) == Ended(s.requests, e)
  }

  function Revokes(w: nat, order: seq<string>): seq<P.Event> {
    seq(|order|, i requires 0 <= i < |order| => P.Revoke(w, order[i]))
  }

  ghost function Step(s: State, e: Event): State {
    match e
    case Tick(d) => State(N.Step(s.requests, N.Tick(d)), P.Step(s.protocol, P.Tick(d)))
    case Serve(r, order) =>
      if !Enabled(s, r, order) then s
      else if WorkerOf(r).None? then State(N.Step(s.requests, r), s.protocol)
      else
        var p := P.Run(s.protocol, Revokes(WorkerOf(r).value, order));
        State(N.Step(s.requests, r).(filters := Filters(p)), p)
    case Protocol(m) =>
      if m.Tick? then s
      else
        var p := P.Step(s.protocol, m);
        var others := if m.Revoke? && P.Up(s.protocol, m.w) then {m.jti} else {};
        State(s.requests.(filters := Filters(p), revoked := s.requests.revoked + others), p)
  }

  ghost function Run(s: State, events: seq<Event>): State
    decreases |events|
  {
    if events == [] then s else Run(Step(s, events[0]), events[1..])
  }

  /** The requests respect what NoStaleGrants asks of them. */
  ghost predicate RespectsAll(s: State, events: seq<Event>, lasting: bool)
    decreases |events|
  {
    events == [] ||
    ((events[0].Serve? ==> N.Respects(s.requests, events[0].request, lasting)) &&
     RespectsAll(Step(s, events[0]), events[1..], lasting))
  }

  /** What has been revoked is what some worker was called with, and the filters are the protocol's. */
  ghost predicate Tied(s: State) {
    s.requests.clock == s.protocol.clock && s.requests.filters == Filters(s.protocol) &&
    forall jti :: jti in s.requests.revoked <==> P.Revoked(s.protocol.calls, jti)
  }

  ghost predicate Inv(s: State, lasting: bool) {
    N.Inv(s.requests, lasting) && P.Inv(s.protocol) && Tied(s)
  }

  /** A row of revocations on a worker that is up adds them to its filter and its calls, and touches nothing else. */
  lemma {:induction false} RevokesRun(p: P.State, w: nat, order: seq<string>)
    requires P.Up(p, w)
    ensures var t := P.Run(p, Revokes(w, order));
            P.Up(t, w) && t.clock == p.clock && t.hash == p.hash &&
            t.workers == p.workers[w := p.workers[w].(added := p.workers[w].added + order)] &&
            forall jti :: P.Revoked(t.calls, jti) <==> P.Revoked(p.calls, jti) || jti in order
    decreases |order|
  {
    if order == [] {
      assert p.workers[w].added + [] == p.workers[w].added;
    } else {
      var rest := order[1..];
      var q := RevokedOnce(p, w, order[0]);
      assert Revokes(w, order)[0] == P.Revoke(w, order[0]) && Revokes(w, order)[1..] == Revokes(w, rest);
      RevokesRun(q, w, rest);
      assert p.workers[w].added + [order[0]] + rest == p.workers[w].added + order;
    }
  }

  lemma RevokedOnce(p: P.State, w: nat, jti: string) returns (q: P.State)
    requires P.Up(p, w)
    ensures q == P.Step(p, P.Revoke(w, jti)) && P.Up(q, w) && q.clock == p.clock && q.hash == p.hash
    ensures q.workers == p.workers[w := p.workers[w].(added := p.workers[w].added + [jti])]
    ensures forall x :: P.Revoked(q.calls, x) <==> P.Revoked(p.calls, x) || x == jti
  {
    q := P.Step(p, P.Revoke(w, jti));
    CalledOnceMore(p.calls, q.calls[|p.calls|]);
    assert q.calls == p.calls + [q.calls[|p.calls|]];
  }

  lemma CalledOnceMore(calls: seq<P.Call>, c: P.Call)
    ensures forall jti :: P.Revoked(calls + [c], jti) <==> P.Revoked(calls, jti) || jti == c.jti
  {
    var all := calls + [c];
    forall jti | P.Revoked(calls, jti) || jti == c.jti ensures P.Revoked(all, jti) {
      if P.Revoked(calls, jti) {
        var i :| 0 <= i < |calls| && calls[i].jti == jti;
        assert all[i].jti == jti;
      } else {
        assert all[|calls|].jti == jti;
      }
    }
  }

  /** What a request does to the revoked ids and to the filters. */
  lemma RequestRevokes(s: N.State, e: N.Event)
    requires !e.Tick? && !e.Sync? && (WorkerOf(e).Some? ==> WorkerOf(e).value < |s.filters|)
    ensures var t, ended := N.Step(s, e), Ended(s, e);
            t.clock == s.clock && t.revoked == s.revoked + ended &&
            t.filters == if WorkerOf(e).None? then s.filters
                         else s.filters[WorkerOf(e).value := N.AddSet(s.filters[WorkerOf(e).value], ended)]
    ensures WorkerOf(e).None? ==> Ended(s, e) == {}
  {
    if WorkerOf(e).Some? {
      var w := WorkerOf(e).value;
      assert N.AddSet(s.filters[w], {}).bits == s.filters[w].bits;
      assert N.AddSet(s.filters[w], {}) == s.filters[w];
      assert s.filters[w := s.filters[w]] == s.filters;
      match e
      case UpdatePolicy(_, key, updates) => UpdateRevokes(s, w, key, updates);
      case DeletePolicy(_, key) =>
        EndedSelected(s.(policies := s.policies - {key}), w, Sessions.RevokeAll(key.user, key.tenant, None));
      case SessionRequest(_, request) => SessionRevokes(s, w, request);
    }
  }

  lemma EndedSelected(s: N.State, w: nat, request: Sessions.Event)
    requires w < |s.filters|
    ensures N.DoRequest(s.(revoked := {}), w, request).revoked == Sessions.Selected(s.sessions, request)
  {}

  lemma UpdateRevokes(s: N.State, w: nat, key: N.Key, updates: N.Update)
    requires w < |s.filters| && N.AddSet(s.filters[w], {}) == s.filters[w]
    ensures var e := N.UpdatePolicy(w, key, updates);
            var t, ended := N.Step(s, e), Ended(s, e);
            t.clock == s.clock && t.revoked == s.revoked + ended &&
            t.filters == s.filters[w := N.AddSet(s.filters[w], ended)]
  {
    assert s.filters[w := s.filters[w]] == s.filters;
    var actions := if updates.actions.Some? then N.Validated(updates.actions.value) else None;
    if key in s.policies && (updates.actions.Some? ==> actions.Some?) {
      var t := s.(policies := s.policies[key := N.Updated(s.policies[key], updates, actions)]);
      EndedSelected(t, w, Sessions.RevokeAll(key.user, key.tenant, None));
    }
  }

  lemma SessionRevokes(s: N.State, w: nat, request: Sessions.Event)
    requires w < |s.filters| && N.AddSet(s.filters[w], {}) == s.filters[w]
    ensures var e := N.SessionRequest(w, request);
            var t, ended := N.Step(s, e), Ended(s, e);
            t.clock == s.clock && t.revoked == s.revoked + ended &&
            t.filters == s.filters[w := N.AddSet(s.filters[w], ended)]
  {
    assert s.filters[w := s.filters[w]] == s.filters;
    var enabled := !request.Create? && (request.Cleanup? ==> request.now == s.clock);
    EndedSelected(s, w, request);
    assert !enabled ==> Ended(s, N.SessionRequest(w, request)) == {};
  }

  lemma FiltersAfterRevokes(p: P.State, w: nat, order: seq<string>)
    requires P.Up(p, w)
    ensures Filters(P.Run(p, Revokes(w, order))) == Filters(p)[w := N.AddSet(Filters(p)[w], set x | x in order)]
  {
    RevokesRun(p, w, order);
    AddAllSplits(Bloom(p.hash, {}), p.workers[w].added, order);
    N.AddSetIsAddAll(P.Filter(p.hash, p.workers[w]), order);
  }

  /** Seen from the requests, a request step of the whole is a step of NoStaleGrants, filters included. */
  lemma RequestIsStep(s: State, e: N.Event, order: seq<string>, lasting: bool)
    requires Inv(s, lasting) && Enabled(s, e, order)
    ensures Step(s, Serve(e, order)).requests == N.Step(s.requests, e)
    ensures Tied(Step(s, Serve(e, order))) && P.Inv(Step(s, Serve(e, order)).protocol)
  {
    RequestRevokes(s.requests, e);
    if WorkerOf(e).Some? {
      var w := WorkerOf(e).value;
      RevokesRun(s.protocol, w, order);
      P.RunKeepsInv(s.protocol, Revokes(w, order));
      FiltersAfterRevokes(s.protocol, w, order);
    }
  }

  lemma ProtocolKeepsInv(s: State, m: P.Event, lasting: bool)
    requires Inv(s, lasting) && !m.Tick?
    ensures Inv(Step(s, Protocol(m)), lasting)
  {
    P.StepKeepsInv(s.protocol, m);
    var p := P.Step(s.protocol, m);
    var t := Step(s, Protocol(m));
    if m.Revoke? && P.Up(s.protocol, m.w) {
      var _ := RevokedOnce(s.protocol, m.w, m.jti);
    } else {
      SameCalls(s.protocol, m);
    }
    forall k | 0 <= k < |t.requests.tokens| ensures N.TokenInv(t.requests, t.requests.tokens[k], lasting) {
      assert N.TokenInv(s.requests, s.requests.tokens[k], lasting);
    }
  }

  lemma SameCalls(p: P.State, m: P.Event)
    requires !m.Tick? && !(m.Revoke? && P.Up(p, m.w))
    ensures P.Step(p, m).clock == p.clock
    ensures forall jti :: P.Revoked(P.Step(p, m).calls, jti) <==> P.Revoked(p.calls, jti)
  {
    var q := P.Step(p, m);
    assert |q.calls| == |p.calls| && forall c :: 0 <= c < |p.calls| ==> q.calls[c].jti == p.calls[c].jti;
  }

  lemma StepKeepsInv(s: State, e: Event, lasting: bool)
    requires Inv(s, lasting) && (e.Serve? ==> N.Respects(s.requests, e.request, lasting))
    ensures Inv(Step(s, e), lasting)
  {
    match e
    case Tick(d) =>
      N.StepKeepsInv(s.requests, N.Tick(d), lasting);
      P.StepKeepsInv(s.protocol, P.Tick(d));
    case Serve(r, order) =>
      if Enabled(s, r, order) {
        RequestIsStep(s, r, order, lasting);
        N.StepKeepsInv(s.requests, r, lasting);
      }
    case Protocol(m) =>
      if !m.Tick? { ProtocolKeepsInv(s, m, lasting); }
  }

  lemma {:induction false} RunKeepsInv(s: State, events: seq<Event>, lasting: bool)
    requires Inv(s, lasting) && RespectsAll(s, events, lasting)
    ensures Inv(Run(s, events), lasting)
    decreases |events|
  {
    if events != [] {
      StepKeepsInv(s, events[0], lasting);
      RunKeepsInv(Step(s, events[0]), events[1..], lasting);
    }
  }

  ghost function Reached(hash: string -> set<nat>, clock: int, n: nat, events: seq<Event>): State {
    Run(Start(hash, clock, n), events)
  }

  lemma ReachedInv(hash: string -> set<nat>, clock: int, n: nat, events: seq<Event>, lasting: bool)
    requires RespectsAll(Start(hash, clock, n), events, lasting)
    ensures Inv(Reached(hash, clock, n, events), lasting)
  {
    P.ReachedInv(hash, clock, n, []);
    RunKeepsInv(Start(hash, clock, n), events, lasting);
  }

  /*** Main results ***/

  /**
   In every run of requests and protocol steps on any number of workers: a token that a
   worker accepts although the user's rows no longer grant what it embeds has been
   revoked by some worker, and the revocation reached this worker by no route.
   */
  lemma StaleTokenWasNotReached(hash: string -> set<nat>, clock: int, n: nat, events: seq<Event>, lasting: bool,
                                w: nat, t: N.Token)
    requires RespectsAll(Start(hash, clock, n), events, lasting)
    requires var s := Reached(hash, clock, n, events);
             P.Up(s.protocol, w) && w < |s.requests.filters| && t in s.requests.tokens &&
             N.Accepted(s.requests, w, t) && !N.UpToDate(s.requests, t, lasting)
    ensures var p := Reached(hash, clock, n, events).protocol;
            P.Revoked(p.calls, t.jti) && !P.Sourced(p, w, p.workers[w], t.jti)
  {
    var s := Reached(hash, clock, n, events);
    ReachedInv(hash, clock, n, events, lasting);
    var k :| 0 <= k < |s.requests.tokens| && s.requests.tokens[k] == t;
    assert N.TokenInv(s.requests, t, lasting);
    if t.jti !in s.requests.revoked { N.FitsIsUpToDate(s.requests, t, lasting); }
    if P.Sourced(s.protocol, w, s.protocol.workers[w], t.jti) { R.SourcedIsHeld(s.protocol, w, t.jti); }
  }

  /** The worker has no call, no replayed or taken entry, and no message of the id. */
  ghost predicate MissedAll(p: P.State, w: nat, jti: string)
    requires w < |p.workers|
  {
    var worker := p.workers[w];
    !P.OwnCall(p, w, worker, jti) &&
    (forall i :: 0 <= i < |p.log| && p.log[i].jti == Some(jti) ==> !P.ByStream(worker, i)) &&
    (forall m :: 0 <= m < |p.channel| && p.channel[m].jti == jti ==> R.Unread(worker, m))
  }

  /** So a drained worker accepts a stale token only if it missed every message and every entry of its revocation. */
  lemma DrainedAcceptsStaleOnlyIfMissed(hash: string -> set<nat>, clock: int, n: nat, events: seq<Event>, lasting: bool,
                                        w: nat, t: N.Token)
    requires RespectsAll(Start(hash, clock, n), events, lasting)
    requires var s := Reached(hash, clock, n, events);
             R.Drained(s.protocol, w) && w < |s.requests.filters| && t in s.requests.tokens &&
             N.Accepted(s.requests, w, t) && !N.UpToDate(s.requests, t, lasting)
    ensures var p := Reached(hash, clock, n, events).protocol;
            P.Revoked(p.calls, t.jti) && MissedAll(p, w, t.jti)
  {
    StaleTokenWasNotReached(hash, clock, n, events, lasting, w, t);
    var s := Reached(hash, clock, n, events);
    ReachedInv(hash, clock, n, events, lasting);
    assert P.WorkerInv(s.protocol, w, s.protocol.workers[w]);
  }

  /**
   And, but for false positives, which of the live tokens a drained worker accepts: those
   that were not revoked, which are up to date, and those whose revocation it missed.
   */
  lemma DrainedAcceptsIff(hash: string -> set<nat>, clock: int, n: nat, events: seq<Event>, lasting: bool,
                          w: nat, t: N.Token, b: nat)
    requires RespectsAll(Start(hash, clock, n), events, lasting)
    requires var s := Reached(hash, clock, n, events);
             R.Drained(s.protocol, w) && w < |s.requests.filters| && t in s.requests.tokens &&
             s.requests.clock < t.exp && t.jti != "" && R.OwnBit(s.protocol, t.jti, b)
    ensures var s := Reached(hash, clock, n, events);
            (N.Accepted(s.requests, w, t) <==>
              !P.Revoked(s.protocol.calls, t.jti) || MissedAll(s.protocol, w, t.jti)) &&
            (!P.Revoked(s.protocol.calls, t.jti) ==> N.UpToDate(s.requests, t, lasting))
  {
    var s := Reached(hash, clock, n, events);
    ReachedInv(hash, clock, n, events, lasting);
    var k :| 0 <= k < |s.requests.tokens| && s.requests.tokens[k] == t;
    assert N.TokenInv(s.requests, t, lasting);
    if t.jti !in s.requests.revoked { N.FitsIsUpToDate(s.requests, t, lasting); }
    var worker := s.protocol.workers[w];
    assert P.WorkerInv(s.protocol, w, worker);
    R.HoldsIff(s.protocol, w, t.jti, b);
    if P.Sourced(s.protocol, w, worker, t.jti) { P.SourcedWasRevoked(s.protocol, w, worker, t.jti); }
  }
}
