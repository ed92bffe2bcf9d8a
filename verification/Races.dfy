/**
 What taking requests as atomic hides.  Redeeming a code and rotating a refresh token
 both select an unused row, mark it in a later statement and issue tokens later still,
 without a transaction, so other requests can act in between.  Here these are separate
 steps, and the atomic requests of Oidc are runs that take them in a row.

 Sources: app/sso/oidc/services.py, app/sso/oidc/endpoints.py.
 */
module Races {
  import O = Oidc

  /** A request has selected a row, or has marked it too. */
  datatype Phase = Idle | Holding(row: string) | Marked(row: string)

  /** Codes or refresh tokens: those ever stored, those unused, and for which tokens were issued, in order. */
  datatype State = State(stored: set<string>, unused: set<string>, requests: seq<Phase>, issued: seq<string>)

  /** Reject is a check that fails after the row was selected; Finish is the end of a request, with tokens or not. */
  datatype Event =
    | Store(row: string)
    | Remove(rows: set<string>)
    | Select(request: nat, row: string)
    | Reject(request: nat)
    | Mark(request: nat)
    | Finish(request: nat, tokens: bool)

  function Start(n: nat): State {
    State({}, {}, seq(n, _ => Idle), [])
  }

  predicate Selects(s: State, e: Event) {
    e.Select? && e.request < |s.requests| && s.requests[e.request].Idle? && e.row in s.unused
  }

  function Step(s: State, e: Event): State {
    match e
    case Store(row) =>
      if row in s.stored then s else s.(stored := s.stored + {row}, unused := s.unused + {row})
    case Remove(rows) => s.(unused := s.unused - rows)
    case Select(r, row) =>
      if Selects(s, e) then s.(requests := s.requests[r := Holding(row)]) else s
    case Reject(r) =>
      if r < |s.requests| && s.requests[r].Holding? then s.(requests := s.requests[r := Idle]) else s
    case Mark(r) =>
      if r < |s.requests| && s.requests[r].Holding?
      then s.(unused := s.unused - {s.requests[r].row}, requests := s.requests[r := Marked(s.requests[r].row)]) else s
    case Finish(r, tokens) =>
      if r < |s.requests| && s.requests[r].Marked?
      then s.(requests := s.requests[r := Idle], issued := if tokens then s.issued + [s.requests[r].row] else s.issued)
      else s
  }

  function Run(s: State, events: seq<Event>): State
    decreases |events|
  {
    if events == [] then s else Run(Step(s, events[0]), events[1..])
  }

  /** Some row had tokens issued for it more than once. */
  predicate IssuedTwice(s: State) {
    exists i, j :: 0 <= i < j < |s.issued| && s.issued[i] == s.issued[j]
  }

  /** The request selects a row that no other request has selected and not yet marked. */
  predicate Guarded(s: State, e: Event) {
    Selects(s, e) ==> forall r :: 0 <= r < |s.requests| ==> s.requests[r] != Holding(e.row)
  }

  predicate GuardedRun(s: State, events: seq<Event>)
    decreases |events|
  {
    events == [] || (Guarded(s, events[0]) && GuardedRun(Step(s, events[0]), events[1..]))
  }

  /**
   A row is in the hands of one request at most, and of none once tokens were issued for
   it; what is marked or issued is used.
   */
  ghost predicate Inv(s: State) {
    !IssuedTwice(s) && s.unused <= s.stored &&
    (forall r, q :: 0 <= r < q < |s.requests| && !s.requests[r].Idle? && !s.requests[q].Idle? ==>
       s.requests[r].row != s.requests[q].row) &&
    (forall r :: 0 <= r < |s.requests| && !s.requests[r].Idle? ==>
       s.requests[r].row in s.stored && s.requests[r].row !in s.issued) &&
    (forall r :: 0 <= r < |s.requests| && s.requests[r].Marked? ==> s.requests[r].row !in s.unused) &&
    (forall row :: row in s.issued ==> row in s.stored && row !in s.unused)
  }

  /** The guard is what one step needs. */
  lemma StepKeepsInvIff(s: State, e: Event)
    requires Inv(s)
    ensures Inv(Step(s, e)) <==> Guarded(s, e)
  {
    var t := Step(s, e);
    if Selects(s, e) && !Guarded(s, e) {
      var q :| 0 <= q < |s.requests| && s.requests[q] == Holding(e.row);
      assert t.requests[q] == t.requests[e.request];
    }
  }

  /** The request goes on to its end and issues tokens. */
  function Complete(s: State, r: nat): State {
    Step(Step(s, Mark(r)), Finish(r, true))
  }

  /** Two requests that complete now can leave a row with tokens issued twice. */
  ghost predicate CanIssueTwice(s: State) {
    exists q, r :: IssuedTwice(Complete(Complete(s, q), r))
  }

  /** At some moment of the run that is so. */
  ghost predicate EverCanIssueTwice(s: State, events: seq<Event>)
    decreases |events|
  {
    CanIssueTwice(s) || (events != [] && EverCanIssueTwice(Step(s, events[0]), events[1..]))
  }

  lemma CompleteKeepsInv(s: State, r: nat)
    requires Inv(s)
    ensures Inv(Complete(s, r))
  {
    StepKeepsInvIff(s, Mark(r));
    StepKeepsInvIff(Step(s, Mark(r)), Finish(r, true));
  }

  lemma InvCannotIssueTwice(s: State)
    requires Inv(s)
    ensures !CanIssueTwice(s)
  {
    forall q: nat, r: nat ensures !IssuedTwice(Complete(Complete(s, q), r)) {
      CompleteKeepsInv(s, q);
      CompleteKeepsInv(Complete(s, q), r);
    }
  }

  lemma OverlapCanIssueTwice(s: State, e: Event)
    requires Inv(s) && !Guarded(s, e)
    ensures CanIssueTwice(Step(s, e))
  {
    var q: nat :| q < |s.requests| && s.requests[q] == Holding(e.row);
    var t := Step(s, e);
    var u := Complete(t, q);
    assert u.issued == s.issued + [e.row] && u.requests[e.request] == Holding(e.row);
    var v := Complete(u, e.request);
    assert v.issued[|s.issued|] == v.issued[|s.issued| + 1];
    assert IssuedTwice(v);
  }

  lemma {:induction false} RunIssuesTwiceIff(s: State, events: seq<Event>)
    requires Inv(s)
    ensures EverCanIssueTwice(s, events) <==> !GuardedRun(s, events)
    decreases |events|
  {
    InvCannotIssueTwice(s);
    if events != [] {
      var t := Step(s, events[0]);
      if Guarded(s, events[0]) {
        StepKeepsInvIff(s, events[0]);
        RunIssuesTwiceIff(t, events[1..]);
      } else {
        OverlapCanIssueTwice(s, events[0]);
      }
    }
  }

  /**
   Statement by statement, for any number of requests at once: at some moment of a run,
   letting two open requests complete issues tokens twice for one code, or for one refresh
   token, exactly when the run has a request select a row that another one has selected
   and not yet marked.
   */
  lemma IssuesTwiceIff(n: nat, events: seq<Event>)
    ensures EverCanIssueTwice(Start(n), events) <==> !GuardedRun(Start(n), events)
  {
    RunIssuesTwiceIff(Start(n), events);
  }

  /** While every selection is guarded, each row has tokens issued for it at most once. */
  lemma {:induction false} GuardedRunsIssueOnce(s: State, events: seq<Event>)
    requires Inv(s) && GuardedRun(s, events)
    ensures Inv(Run(s, events)) && !IssuedTwice(Run(s, events))
    decreases |events|
  {
    if events != [] {
      StepKeepsInvIff(s, events[0]);
      GuardedRunsIssueOnce(Step(s, events[0]), events[1..]);
    }
  }

  /** Two requests that both select a code before either marks it are both answered with tokens. */
  lemma OverlappingRedemptions(s: State, row: string)
    requires s == State({row}, {row}, [Idle, Idle], [])
    ensures Run(s, [Select(0, row), Select(1, row), Mark(0), Mark(1), Finish(0, true), Finish(1, true)]).issued ==
            [row, row]
  {
    var e := [Select(0, row), Select(1, row), Mark(0), Mark(1), Finish(0, true), Finish(1, true)];
    var s2 := Step(Step(s, e[0]), e[1]);
    assert s2.requests == [Holding(row), Holding(row)];
    var s4 := Step(Step(s2, e[2]), e[3]);
    assert s4.requests == [Marked(row), Marked(row)];
    RunTwo(s, e, 0);
    RunTwo(s2, e, 2);
    RunTwo(s4, e, 4);
    assert e[0..] == e && e[6..] == [];
  }

  lemma RunTwo(s: State, events: seq<Event>, k: nat)
    requires k + 1 < |events|
    ensures Run(s, events[k..]) == Run(Step(Step(s, events[k]), events[k + 1]), events[k + 2..])
  {}

  /*** The atomic requests of Oidc ***/

  /** Requests taken one at a time. */
  predicate OneAtATime(s: State, events: seq<Event>)
    decreases |events|
  {
    events == [] ||
    ((events[0].Select? ==> forall r :: 0 <= r < |s.requests| ==> s.requests[r].Idle?) &&
     OneAtATime(Step(s, events[0]), events[1..]))
  }

  /** Such runs issue tokens for each row at most once. */
  lemma {:induction false} AtomicRunsIssueOnce(s: State, events: seq<Event>)
    requires Inv(s) && OneAtATime(s, events)
    ensures GuardedRun(s, events) && !IssuedTwice(Run(s, events))
    decreases |events|
  {
    if events != [] {
      StepKeepsInvIff(s, events[0]);
      AtomicRunsIssueOnce(Step(s, events[0]), events[1..]);
    }
  }

  function Unused(o: O.State): set<string> {
    set c | c in o.codes && !o.codes[c].used
  }

  function Codes(grants: seq<O.Grant>): seq<string> {
    seq(|grants|, i requires 0 <= i < |grants| => grants[i].code)
  }

  /** With one request slot, idle: the codes and the redemptions of the OIDC tables. */
  ghost predicate Shows(o: O.State, s: State) {
    s.unused == Unused(o) && o.codes.Keys <= s.stored && s.requests == [Idle] && s.issued == Codes(o.grants)
  }

  /** The SELECT of a redemption finds the code's row. */
  predicate Finds(o: O.State, e: O.Event)
    requires e.Redeem?
  {
    O.ValidClient(o, e.caller) && e.code != "" && e.redirect != "" && e.code in o.codes &&
    var row := o.codes[e.code];
    row.client == e.caller.client && row.redirect == e.redirect && !row.used && o.clock < row.expires
  }

  /** The statements on codes that an OIDC request takes. */
  function Statements(o: O.State, e: O.Event): seq<Event> {
    match e
    case Consent(_, _, code, _, _, _, _, _) =>
      if code !in o.codes && code in O.Step(o, e).codes then [Store(code)] else []
    case Redeem(_, code, _, _, _, _) =>
      if !Finds(o, e) then []
      else if !O.PkceOk(o.s256, o.codes[code], e.verifier) then [Select(0, code), Reject(0)]
      else [Select(0, code), Mark(0), Finish(0, |O.Step(o, e).grants| > |o.grants|)]
    case DeleteUser(_) => [Remove(o.codes.Keys - O.Step(o, e).codes.Keys)]
    case DropClient(_, _) => [Remove(o.codes.Keys - O.Step(o, e).codes.Keys)]
    case _ => []
  }

  lemma ConsentIsStatements(o: O.State, s: State, e: O.Event)
    requires Shows(o, s) && e.Consent? && e.code !in s.stored
    ensures Shows(O.Step(o, e), Run(s, Statements(o, e))) && OneAtATime(s, Statements(o, e))
    ensures Run(s, Statements(o, e)).stored <= s.stored + {e.code}
  {
    var t := O.Step(o, e);
    if e.code in t.codes {
      assert Run(s, [Store(e.code)]) == Step(s, Store(e.code));
      assert Unused(t) == Unused(o) + {e.code};
    }
  }

  lemma RemovalIsStatements(o: O.State, s: State, e: O.Event)
    requires Shows(o, s) && (e.DeleteUser? || e.DropClient?)
    ensures Shows(O.Step(o, e), Run(s, Statements(o, e))) && OneAtATime(s, Statements(o, e))
    ensures Run(s, Statements(o, e)).stored == s.stored
  {
    var t := O.Step(o, e);
    var gone := o.codes.Keys - t.codes.Keys;
    assert Run(s, [Remove(gone)]) == Step(s, Remove(gone));
    assert Unused(t) == Unused(o) - gone;
  }

  /** One OIDC request is its statements taken in a row. */
  lemma RequestIsStatements(o: O.State, s: State, e: O.Event)
    requires Shows(o, s) && (e.Consent? ==> e.code !in s.stored)
    ensures Shows(O.Step(o, e), Run(s, Statements(o, e))) && OneAtATime(s, Statements(o, e))
    ensures Run(s, Statements(o, e)).stored <= s.stored + if e.Consent? then {e.code} else {}
  {
    if e.Redeem? {
      RedemptionIsStatements(o, s, e);
    } else if e.Consent? {
      ConsentIsStatements(o, s, e);
    } else if e.DeleteUser? || e.DropClient? {
      RemovalIsStatements(o, s, e);
    } else {
      var t := O.Step(o, e);
      assert t.codes == o.codes && t.grants == o.grants;
    }
  }

  lemma RedemptionIsStatements(o: O.State, s: State, e: O.Event)
    requires Shows(o, s) && e.Redeem?
    ensures Shows(O.Step(o, e), Run(s, Statements(o, e))) && OneAtATime(s, Statements(o, e))
    ensures Run(s, Statements(o, e)).stored == s.stored
  {
    var t, code := O.Step(o, e), e.code;
    if !Finds(o, e) {
      assert t == o;
    } else {
      var s1 := Step(s, Select(0, code));
      assert s1.requests == [Holding(code)];
      if !O.PkceOk(o.s256, o.codes[code], e.verifier) {
        assert t == o;
        assert Run(s, [Select(0, code), Reject(0)]) == Step(s1, Reject(0)) by {
          RunTwo(s, [Select(0, code), Reject(0)], 0);
        }
      } else {
        var events := Statements(o, e);
        var s2 := Step(s1, Mark(0));
        RunTwo(s, events, 0);
        assert events[0..] == events && events[2..] == [events[2]] && events[2..][1..] == [];
        assert Run(s, events) == Step(s2, events[2]);
        assert s2.requests == [Marked(code)];
        assert OneAtATime(s2, events[2..]);
        assert OneAtATime(s1, events[1..]) by { assert events[1..][1..] == events[2..]; }
        assert Unused(t) == Unused(o) - {code};
        assert Codes(t.grants) == if |t.grants| > |o.grants| then Codes(o.grants) + [code] else Codes(o.grants);
      }
    }
  }

  /** No code string is drawn twice. */
  predicate DrawnOnce(events: seq<O.Event>) {
    forall i, j :: 0 <= i < j < |events| && events[i].Consent? && events[j].Consent? ==> events[i].code != events[j].code
  }

  lemma {:induction false} Joined(s: State, a: seq<Event>, b: seq<Event>)
    ensures Run(s, a + b) == Run(Run(s, a), b)
    ensures OneAtATime(s, a) && OneAtATime(Run(s, a), b) ==> OneAtATime(s, a + b)
    decreases |a|
  {
    if a == [] {
      assert a + b == b;
    } else {
      assert (a + b)[0] == a[0] && (a + b)[1..] == a[1..] + b;
      Joined(Step(s, a[0]), a[1..], b);
    }
  }

  lemma {:induction false} RunIsStatements(o: O.State, s: State, events: seq<O.Event>) returns (all: seq<Event>)
    requires Shows(o, s) && DrawnOnce(events)
    requires forall k :: 0 <= k < |events| && events[k].Consent? ==> events[k].code !in s.stored
    ensures Shows(O.Run(o, events), Run(s, all)) && OneAtATime(s, all)
    decreases |events|
  {
    if events == [] {
      all := [];
    } else {
      var first, rest := Statements(o, events[0]), events[1..];
      RequestIsStatements(o, s, events[0]);
      forall k | 0 <= k < |rest| && rest[k].Consent? ensures rest[k].code !in Run(s, first).stored {
        assert rest[k] == events[k + 1];
      }
      var more := RunIsStatements(O.Step(o, events[0]), Run(s, first), rest);
      Joined(s, first, more);
      all := first + more;
    }
  }

  /**
   Every run of atomic OIDC requests is, statement by statement, a run of this machine
   with one request at a time, which issues tokens for the same codes in the same order:
   each at most once.
   */
  lemma OidcRunsAreAtomicRuns(s256: string -> string, clock: int, events: seq<O.Event>) returns (all: seq<Event>)
    requires DrawnOnce(events)
    ensures OneAtATime(Start(1), all) && GuardedRun(Start(1), all) && !IssuedTwice(Run(Start(1), all))
    ensures Run(Start(1), all).issued == Codes(O.Reached(s256, clock, events).grants)
    ensures Run(Start(1), all).unused == Unused(O.Reached(s256, clock, events))
  {
    assert Start(1).requests == [Idle];
    all := RunIsStatements(O.Start(s256, clock), Start(1), events);
    AtomicRunsIssueOnce(Start(1), all);
  }
}
