/**
 Action bit flags, the two policy compilers that embed them in tokens, and the
 permission check that reads them back.

 Sources: app/models/authz.py, app/core/authz.py, app/core/auth.py (login
 compile) and app/sso/oidc/endpoints.py (OIDC compile).
 */
module Policies {
  import opened Common
  import opened Bits

  /** Action names in the order of their flags: entry i has the value 1 << i. */
  const ACTIONS: seq<string> := [
    "read", "write", "delete", "approve", "reject", "execute",
    "assign", "manage", "export", "import", "activate", "archive"
  ]

  function LowerChar(c: char): char {
    if 'A' <= c <= 'Z' then (c as int + 32) as char else c
  }

  function Lower(s: string): string {
    seq(|s|, i requires 0 <= i < |s| => LowerChar(s[i]))
  }

  function Position(names: seq<string>, s: string): (r: Option<nat>)
    ensures r.Some? ==> r.value < |names| && names[r.value] == s
    ensures r.None? ==> s !in names
  {
    if names == [] then None
    else if names[0] == s then Some(0)
    else match Position(names[1..], s)
      case None => None
      case Some(i) => Some(i + 1)
  }

  /** The flag position of an action name, in any letter case. */
  function ActionIndex(name: string): Option<nat> {
    Position(ACTIONS, Lower(name))
  }

  /** Letter case is folded for the letters of the English alphabet, and for nothing else. */
  lemma LetterCase(s: string, i: nat)
    requires i < |s|
    ensures |Lower(s)| == |s|
    ensures Lower(s)[i] == s[i] <==> s[i] < 'A' || s[i] > 'Z'
    ensures Lower(s)[i] != s[i] ==> 'a' <= Lower(s)[i] <= 'z' && Lower(s)[i] as int - 'a' as int == s[i] as int - 'A' as int
    ensures Lower(Lower(s)) == Lower(s)
  {
    assert forall k :: 0 <= k < |s| ==> Lower(Lower(s))[k] == Lower(s)[k];
  }

  lemma PositionOf(names: seq<string>, n: nat)
    requires n < |names| && forall i :: 0 <= i < n ==> names[i] != names[n]
    ensures Position(names, names[n]) == Some(n)
  {
    if n > 0 { PositionOf(names[1..], n - 1); }
  }

  lemma NoActionTwice(n: nat, i: nat)
    requires i < n < 12
    ensures ACTIONS[i] != ACTIONS[n]
  {
    assert forall k :: 0 <= k < 12 ==> |ACTIONS[k]| >= 4;
    assert ACTIONS[i][..4] != ACTIONS[n][..4] by { assert ACTIONS[i][0] != ACTIONS[n][0] || ACTIONS[i][2] != ACTIONS[n][2]; }
  }

  lemma Powers(n: nat)
    requires n < 12
    ensures Pow2(n) == [1, 2, 4, 8, 16, 32, 64, 128, 256, 512, 1024, 2048][n]
  {
    if n > 0 { Powers(n - 1); }
  }

  lemma FlagAt(name: string, n: nat)
    requires n < 12 && Lower(name) == ACTIONS[n]
    ensures Flag(name) == [1, 2, 4, 8, 16, 32, 64, 128, 256, 512, 1024, 2048][n]
  {
    forall i | 0 <= i < n ensures ACTIONS[i] != ACTIONS[n] { NoActionTwice(n, i); }
    PositionOf(ACTIONS, n);
    assert ActionIndex(name) == Some(n);
    Powers(n);
  }

  /** The twelve actions and the values of their flags, in any letter case. */
  lemma ActionFlags(name: string, n: nat)
    requires n < 12
    ensures var actions := ["read", "write", "delete", "approve", "reject", "execute",
                            "assign", "manage", "export", "import", "activate", "archive"];
            (Lower(name) == actions[n] ==> Flag(name) == [1, 2, 4, 8, 16, 32, 64, 128, 256, 512, 1024, 2048][n]) &&
            (Lower(name) !in actions ==> Flag(name) == 0)
  {
    if Lower(name) == ACTIONS[n] { FlagAt(name, n); }
    PositionFindsAll(ACTIONS, Lower(name));
  }

  /** The action at flag position i is among the listed names. */
  predicate Lists(actions: seq<string>, i: nat) {
    exists k :: 0 <= k < |actions| && ActionIndex(actions[k]) == Some(i)
  }

  /** No flag is named twice. */
  predicate Distinct(actions: seq<string>) {
    forall j, k :: 0 <= j < k < |actions| && ActionIndex(actions[j]).Some? ==>
      ActionIndex(actions[j]) != ActionIndex(actions[k])
  }

  predicate AllKnown(actions: seq<string>) {
    forall k :: 0 <= k < |actions| ==> ActionIndex(actions[k]).Some?
  }

  /** Known are the twelve action names, in any letter case. */
  lemma KnownMeans(actions: seq<string>)
    ensures AllKnown(actions) <==>
            forall j :: 0 <= j < |actions| ==>
              Lower(actions[j]) in
              ["read", "write", "delete", "approve", "reject", "execute",
               "assign", "manage", "export", "import", "activate", "archive"]
  {
    forall j | 0 <= j < |actions|
      ensures ActionIndex(actions[j]).Some? <==>
              Lower(actions[j]) in
              ["read", "write", "delete", "approve", "reject", "execute",
               "assign", "manage", "export", "import", "activate", "archive"]
    {
      PositionFindsAll(ACTIONS, Lower(actions[j]));
    }
  }

  lemma PositionFindsAll(names: seq<string>, s: string)
    ensures Position(names, s).Some? <==> s in names
  {}

  function Flag(name: string): nat {
    match ActionIndex(name)
    case None => 0
    case Some(i) => Pow2(i)
  }

  /** What both compilers put in the token for one list: the sum of the flags. */
  function SumMask(actions: seq<string>): nat {
    if actions == [] then 0 else Flag(actions[0]) + SumMask(actions[1..])
  }

  /** What a flag set means: the union of the flags. */
  function OrMask(actions: seq<string>): nat {
    if actions == [] then 0 else Or(Flag(actions[0]), OrMask(actions[1..]))
  }

  /** The flag values contributed by repeated names only. */
  function Surplus(actions: seq<string>): nat {
    if actions == [] then 0
    else
      var rest := actions[1..];
      Surplus(rest) +
      match ActionIndex(actions[0])
      case None => 0
      case Some(i) => if Lists(rest, i) then Pow2(i) else 0
  }

  lemma ListsHeadTail(actions: seq<string>, i: nat)
    requires actions != []
    ensures Lists(actions, i) <==> ActionIndex(actions[0]) == Some(i) || Lists(actions[1..], i)
  {}

  lemma {:induction false} OrMaskBits(actions: seq<string>, i: nat)
    ensures Bit(OrMask(actions), i) <==> Lists(actions, i)
  {
    if actions == [] {
      ZeroHasNoBits(i);
    } else {
      OrMaskBits(actions[1..], i);
      ListsHeadTail(actions, i);
      OrBit(Flag(actions[0]), OrMask(actions[1..]), i);
      ZeroHasNoBits(i);
      match ActionIndex(actions[0])
      case None =>
      case Some(j) => Pow2Bit(j, i);
    }
  }

  /** The sum exceeds the union by exactly the repeated flags. */
  lemma {:induction false} SumIsOrPlusSurplus(actions: seq<string>)
    ensures SumMask(actions) == OrMask(actions) + Surplus(actions)
  {
    if actions != [] {
      SumIsOrPlusSurplus(actions[1..]);
      match ActionIndex(actions[0])
      case None =>
        assert Or(0, OrMask(actions[1..])) == OrMask(actions[1..]);
      case Some(i) =>
        OrPow2(i, OrMask(actions[1..]));
        OrMaskBits(actions[1..], i);
    }
  }

  lemma {:induction false} NoSurplusIffDistinct(actions: seq<string>)
    ensures Surplus(actions) == 0 <==> Distinct(actions)
  {
    if actions != [] {
      var rest := actions[1..];
      NoSurplusIffDistinct(rest);
      if Distinct(actions) {
        assert Distinct(rest) by {
          forall j, k | 0 <= j < k < |rest| && ActionIndex(rest[j]).Some?
            ensures ActionIndex(rest[j]) != ActionIndex(rest[k])
          {
            assert rest[j] == actions[j + 1] && rest[k] == actions[k + 1];
          }
        }
        match ActionIndex(actions[0])
        case None =>
        case Some(i) =>
          forall k | 0 <= k < |rest| ensures ActionIndex(rest[k]) != Some(i) {
            assert rest[k] == actions[k + 1];
          }
      }
      if Surplus(actions) == 0 {
        forall j, k | 0 <= j < k < |actions| && ActionIndex(actions[j]).Some?
          ensures ActionIndex(actions[j]) != ActionIndex(actions[k])
        {
          assert actions[k] == rest[k - 1];
          if j == 0 {
            if ActionIndex(actions[0]) == ActionIndex(rest[k - 1]) {
              assert Lists(rest, ActionIndex(actions[0]).value);
            }
          } else {
            assert actions[j] == rest[j - 1];
          }
        }
      }
    }
  }

  /** The sum of the flags is their union exactly when no flag is named twice. */
  lemma SumIsUnionIffDistinct(actions: seq<string>)
    ensures SumMask(actions) == OrMask(actions) <==> Distinct(actions)
  {
    SumIsOrPlusSurplus(actions);
    NoSurplusIffDistinct(actions);
  }

  /** check_permission of app/core/authz.py. */
  predicate CheckPermission(policy: map<string, nat>, permission: string, resource: string) {
    var held := if resource in policy then policy[resource] else 0;
    And(held, Flag(permission)) != 0
  }

  lemma CheckReadsBit(policy: map<string, nat>, permission: string, resource: string)
    ensures CheckPermission(policy, permission, resource) <==>
            ActionIndex(permission).Some? && resource in policy &&
            Bit(policy[resource], ActionIndex(permission).value)
  {
    match ActionIndex(permission)
    case None =>
    case Some(i) =>
      ZeroHasNoBits(i);
      AndPow2(if resource in policy then policy[resource] else 0, i);
  }

  /** Every action is granted by the mask of a list exactly when the list names it. */
  predicate GrantsExactlyListed(actions: seq<string>) {
    forall i: nat | i < |ACTIONS| :: Bit(SumMask(actions), i) <==> Lists(actions, i)
  }

  /**
   When the embedded sum grants what was listed.  Repeated names carry into
   other flags; the listed meaning survives exactly when what they carry lies
   entirely above the twelve flags.
   */
  lemma GrantsExactlyListedIff(actions: seq<string>)
    ensures GrantsExactlyListed(actions) <==> Surplus(actions) % 4096 == 0
  {
    GrantsListedAsBits(actions);
    SumIsOrPlusSurplus(actions);
    SameFlagsIff(SumMask(actions), OrMask(actions), Surplus(actions));
  }

  lemma SameFlagsIff(sum: nat, union: nat, extra: nat)
    requires sum == union + extra
    ensures SameBits(sum, union, 12) <==> extra % 4096 == 0
  {
    Same12(sum, union);
    SameResidue(union, extra);
  }

  lemma GrantsListedAsBits(actions: seq<string>)
    ensures GrantsExactlyListed(actions) <==> SameBits(SumMask(actions), OrMask(actions), 12)
  {
    forall i: nat ensures Bit(OrMask(actions), i) <==> Lists(actions, i) { OrMaskBits(actions, i); }
  }

  lemma SameResidue(o: nat, extra: nat)
    ensures (o + extra) % 4096 == o % 4096 <==> extra % 4096 == 0
  {}

  lemma DistinctGrantsListed(actions: seq<string>, i: nat)
    requires Distinct(actions)
    ensures Bit(SumMask(actions), i) <==> Lists(actions, i)
  {
    SumIsUnionIffDistinct(actions);
    OrMaskBits(actions, i);
  }

  /** A list that repeats an action grants one it does not name: read twice is write. */
  lemma RepeatedActionGrantsAnother(actions: seq<string>, permission: string, resource: string)
    requires actions == ["read", "read"] && permission == "write"
    ensures CheckPermission(map[resource := SumMask(actions)], permission, resource)
    ensures ActionIndex(permission) == Some(1) && !Lists(actions, 1)
  {
    ReadAndWrite();
    assert actions[1..] == ["read"] && ["read"][1..] == [];
    assert SumMask(["read"]) == 1;
    assert SumMask(actions) == 2;
    assert And(2, 2) == 2;
  }

  lemma ReadAndWrite()
    ensures ActionIndex("read") == Some(0) && ActionIndex("write") == Some(1)
    ensures Flag("read") == 1 && Flag("write") == 2
  {
    assert Lower("read") == "read" && Lower("write") == "write";
    assert Position(ACTIONS[1..], "write") == Some(0);
    assert Pow2(0) == 1 && Pow2(1) == 2;
  }

  /*** Compiling policy rows ***/

  /** The JSON of one user_policies row as a fetch returns it. */
  datatype Row =
    | Unparsable
    | Parsed(resource: Option<string>, actions: Option<seq<string>>)

  function RowActions(row: Row): seq<string>
    requires row.Parsed?
  {
    match row.actions
    case None => []
    case Some(a) => a
  }

  /** The row is on the resource and lists the action at flag position i. */
  predicate RowLists(row: Row, resource: string, i: nat) {
    row.Parsed? && row.resource == Some(resource) && Lists(RowActions(row), i)
  }

  predicate SomeRowLists(rows: seq<Row>, resource: string, i: nat) {
    exists k :: 0 <= k < |rows| && RowLists(rows[k], resource, i)
  }

  predicate DistinctRow(row: Row) {
    row.Parsed? ==> Distinct(RowActions(row))
  }

  predicate DistinctRows(rows: seq<Row>) {
    forall k :: 0 <= k < |rows| ==> DistinctRow(rows[k])
  }

  /** fetch_user_policies counts a row when it has a resource and some action. */
  predicate Counted(row: Row) {
    row.Parsed? && row.resource.Some? && row.resource.value != "" && RowActions(row) != []
  }

  function FoldRow(policy: map<string, nat>, row: Row): map<string, nat> {
    if Counted(row) then
      var r := row.resource.value;
      policy[r := Or(if r in policy then policy[r] else 0, SumMask(RowActions(row)))]
    else policy
  }

  function FoldRows(rows: seq<Row>): map<string, nat> {
    if rows == [] then map[] else FoldRow(FoldRows(rows[..|rows| - 1]), rows[|rows| - 1])
  }

  lemma {:induction false} SumMaskSnoc(actions: seq<string>, a: string)
    ensures SumMask(actions + [a]) == SumMask(actions) + Flag(a)
  {
    if actions == [] {
      assert [a][1..] == [];
    } else {
      assert (actions + [a])[1..] == actions[1..] + [a];
      SumMaskSnoc(actions[1..], a);
    }
  }

  /** The generator sum of one row: unknown names are skipped. */
  method SumKnownFlags(actions: seq<string>) returns (mask: nat)
    ensures mask == SumMask(actions)
  {
    mask := 0;
    for n := 0 to |actions|
      invariant mask == SumMask(actions[..n])
    {
      if ActionIndex(actions[n]).Some? {
        mask := mask + Pow2(ActionIndex(actions[n]).value);
      }
      SumMaskSnoc(actions[..n], actions[n]);
      assert actions[..n] + [actions[n]] == actions[..n + 1];
    }
    assert actions[..|actions|] == actions;
  }

  /** fetch_user_policies: parse the rows, then or their masks by resource. */
  method FetchUserPolicies(rows: seq<Row>) returns (policy: map<string, nat>)
    ensures policy == FoldRows(rows)
    ensures DistinctRows(rows) ==>
              forall permission, resource | resource != "" :: CheckPermission(policy, permission, resource) <==>
                ActionIndex(permission).Some? && SomeRowLists(rows, resource, ActionIndex(permission).value)
  {
    var policies: seq<Row> := [];
    for n := 0 to |rows|
      invariant forall k :: 0 <= k < |policies| ==> policies[k].Parsed?
      invariant FoldRows(policies) == FoldRows(rows[..n])
    {
      assert rows[..n + 1][..n] == rows[..n];
      if rows[n].Parsed? {
        assert (policies + [rows[n]])[..|policies|] == policies;
        policies := policies + [rows[n]];
      }
    }
    assert rows[..|rows|] == rows;

    policy := map[];
    for n := 0 to |policies|
      invariant policy == FoldRows(policies[..n])
    {
      var p := policies[n];
      assert policies[..n + 1][..n] == policies[..n];
      if p.resource.Some? && p.resource.value != "" && RowActions(p) != [] {
        var bitmask := SumKnownFlags(RowActions(p));
        var r := p.resource.value;
        policy := policy[r := Or(if r in policy then policy[r] else 0, bitmask)];
      }
    }
    assert policies[..|policies|] == policies;
    if DistinctRows(rows) {
      forall permission, resource | resource != ""
        ensures CheckPermission(policy, permission, resource) <==>
                ActionIndex(permission).Some? && SomeRowLists(rows, resource, ActionIndex(permission).value)
      {
        FoldMeaning(rows, permission, resource);
      }
    }
  }

  lemma {:induction false} FoldBit(rows: seq<Row>, resource: string, i: nat)
    requires DistinctRows(rows) && resource != ""
    ensures (resource in FoldRows(rows) && Bit(FoldRows(rows)[resource], i)) <==> SomeRowLists(rows, resource, i)
  {
    if rows != [] {
      var init, last := rows[..|rows| - 1], rows[|rows| - 1];
      assert rows == init + [last];
      FoldBit(init, resource, i);
      assert SomeRowLists(rows, resource, i) <==> SomeRowLists(init, resource, i) || RowLists(last, resource, i) by {
        if SomeRowLists(init, resource, i) {
          var k :| 0 <= k < |init| && RowLists(init[k], resource, i);
          assert rows[k] == init[k];
        }
      }
      if Counted(last) && last.resource.value == resource {
        var before := FoldRows(init);
        OrBit(if resource in before then before[resource] else 0, SumMask(RowActions(last)), i);
        DistinctGrantsListed(RowActions(last), i);
        ZeroHasNoBits(i);
      }
    }
  }

  /**
   Compiling preserves meaning: the check on the folded masks succeeds exactly
   when some row on that resource lists the action.
   */
  lemma FoldMeaning(rows: seq<Row>, permission: string, resource: string)
    requires DistinctRows(rows) && resource != ""
    ensures CheckPermission(FoldRows(rows), permission, resource) <==>
            ActionIndex(permission).Some? && SomeRowLists(rows, resource, ActionIndex(permission).value)
  {
    CheckReadsBit(FoldRows(rows), permission, resource);
    if ActionIndex(permission).Some? {
      FoldBit(rows, resource, ActionIndex(permission).value);
    }
  }

  /*** The login compile of app/core/auth.py ***/

  /** A row the login comprehension can compile without raising. */
  predicate Compilable(row: Row) {
    row.Parsed? && row.resource.Some? && row.actions.Some? && AllKnown(row.actions.value)
  }

  predicate AllCompilable(rows: seq<Row>) {
    forall k :: 0 <= k < |rows| ==> Compilable(rows[k])
  }

  function LastWins(rows: seq<Row>): map<string, nat>
    requires AllCompilable(rows)
  {
    if rows == [] then map[]
    else
      var last := rows[|rows| - 1];
      assert Compilable(last);
      LastWins(rows[..|rows| - 1])[last.resource.value := SumMask(last.actions.value)]
  }

  datatype LoginError = InvalidCredentials | InternalError

  /**
   The policy embedded by a login.  The user query is a left join, so a user
   without policies comes back as one row holding a null policy, which cannot be
   parsed: such a login fails like any other unparsable row.
   */
  function LoginCompile(rows: seq<Row>): Result<map<string, nat>, LoginError> {
    var joined := if rows == [] then [Unparsable] else rows;
    if AllCompilable(joined) then Ok(LastWins(joined)) else Err(InternalError)
  }

  /**
   A login compiles exactly when there is a row, and every row parses, names a resource
   and lists only the twelve actions; without any row it fails.
   */
  lemma LoginNeedsARow(rows: seq<Row>)
    ensures LoginCompile(rows).Ok? <==>
            rows != [] && forall k :: 0 <= k < |rows| ==>
              rows[k].Parsed? && rows[k].resource.Some? && rows[k].actions.Some? &&
              forall j :: 0 <= j < |rows[k].actions.value| ==>
                Lower(rows[k].actions.value[j]) in
                ["read", "write", "delete", "approve", "reject", "execute",
                 "assign", "manage", "export", "import", "activate", "archive"]
    ensures LoginCompile(rows).Ok? ==> AllCompilable(rows) && LoginCompile(rows).value == LastWins(rows)
    ensures LoginCompile([]) == Err(InternalError)
  {
    assert !Compilable([Unparsable][0]);
    forall k | 0 <= k < |rows| && rows[k].Parsed? && rows[k].actions.Some?
      ensures AllKnown(rows[k].actions.value) <==>
              forall j :: 0 <= j < |rows[k].actions.value| ==>
                Lower(rows[k].actions.value[j]) in
                ["read", "write", "delete", "approve", "reject", "execute",
                 "assign", "manage", "export", "import", "activate", "archive"]
    {
      KnownMeans(rows[k].actions.value);
    }
    forall k | 0 <= k < |rows| ensures Compilable(rows[k]) ==> rows[k].Parsed? {}
  }

  /** The index of the last row on the resource. */
  function LastOn(rows: seq<Row>, resource: string): (r: Option<nat>)
    ensures r.Some? ==> r.value < |rows| && rows[r.value].Parsed? && rows[r.value].resource == Some(resource)
    ensures forall k :: (if r.Some? then r.value + 1 else 0) <= k < |rows| ==>
              !(rows[k].Parsed? && rows[k].resource == Some(resource))
  {
    if rows == [] then None
    else
      var n := |rows| - 1;
      if rows[n].Parsed? && rows[n].resource == Some(resource) then Some(n)
      else
        assert rows[..n] + [rows[n]] == rows;
        LastOn(rows[..n], resource)
  }

  lemma {:induction false} LastWinsBit(rows: seq<Row>, resource: string, i: nat)
    requires AllCompilable(rows) && DistinctRows(rows)
    ensures (resource in LastWins(rows) && Bit(LastWins(rows)[resource], i)) <==>
            LastOn(rows, resource).Some? && RowLists(rows[LastOn(rows, resource).value], resource, i)
  {
    if rows != [] {
      var last := rows[|rows| - 1];
      assert Compilable(last) && DistinctRow(last);
      if last.resource.value == resource {
        DistinctGrantsListed(last.actions.value, i);
      } else {
        LastWinsBit(rows[..|rows| - 1], resource, i);
      }
    }
  }

  /** The login check succeeds exactly when the last row on the resource lists the action. */
  lemma LoginMeaning(rows: seq<Row>, permission: string, resource: string)
    requires DistinctRows(rows) && LoginCompile(rows).Ok?
    ensures CheckPermission(LoginCompile(rows).value, permission, resource) <==>
            ActionIndex(permission).Some? && LastOn(rows, resource).Some? &&
            RowLists(rows[LastOn(rows, resource).value], resource, ActionIndex(permission).value)
  {
    LoginNeedsARow(rows);
    CheckReadsBit(LastWins(rows), permission, resource);
    if ActionIndex(permission).Some? {
      LastWinsBit(rows, resource, ActionIndex(permission).value);
    }
  }

  /** A login grants nothing that the or-fold of the same rows would not grant. */
  lemma LoginGrantsSubset(rows: seq<Row>, permission: string, resource: string)
    requires DistinctRows(rows) && resource != "" && LoginCompile(rows).Ok?
    requires CheckPermission(LoginCompile(rows).value, permission, resource)
    ensures CheckPermission(FoldRows(rows), permission, resource)
  {
    LoginMeaning(rows, permission, resource);
    FoldMeaning(rows, permission, resource);
  }

  ghost predicate SameGrants(rows: seq<Row>)
    requires LoginCompile(rows).Ok?
  {
    forall permission, resource | resource != "" ::
      CheckPermission(LoginCompile(rows).value, permission, resource) <==>
      CheckPermission(FoldRows(rows), permission, resource)
  }

  /** On every resource the last row lists whatever an earlier row lists. */
  ghost predicate LastRowCoversEarlier(rows: seq<Row>) {
    forall k: nat, name: string | k < |rows| && Counted(rows[k]) && ActionIndex(name).Some?
                                  && RowLists(rows[k], rows[k].resource.value, ActionIndex(name).value) ::
      var last := LastOn(rows, rows[k].resource.value);
      last.Some? && RowLists(rows[last.value], rows[k].resource.value, ActionIndex(name).value)
  }

  /** Exactly when the login's last-wins compile agrees with the or-fold. */
  lemma SameGrantsIff(rows: seq<Row>)
    requires DistinctRows(rows) && LoginCompile(rows).Ok?
    ensures SameGrants(rows) <==> LastRowCoversEarlier(rows)
  {
    if SameGrants(rows) {
      forall k: nat, name: string | k < |rows| && Counted(rows[k]) && ActionIndex(name).Some?
                                    && RowLists(rows[k], rows[k].resource.value, ActionIndex(name).value)
        ensures var last := LastOn(rows, rows[k].resource.value);
                last.Some? && RowLists(rows[last.value], rows[k].resource.value, ActionIndex(name).value)
      {
        var resource := rows[k].resource.value;
        FoldMeaning(rows, name, resource);
        assert SomeRowLists(rows, resource, ActionIndex(name).value);
        assert CheckPermission(LoginCompile(rows).value, name, resource);
        LoginMeaning(rows, name, resource);
      }
    }
    if LastRowCoversEarlier(rows) {
      forall permission, resource | resource != ""
        ensures CheckPermission(LoginCompile(rows).value, permission, resource) <==>
                CheckPermission(FoldRows(rows), permission, resource)
      {
        LoginMeaning(rows, permission, resource);
        FoldMeaning(rows, permission, resource);
        if ActionIndex(permission).Some? && SomeRowLists(rows, resource, ActionIndex(permission).value) {
          var i := ActionIndex(permission).value;
          var k: nat :| k < |rows| && RowLists(rows[k], resource, i);
          assert RowActions(rows[k]) != [] by { assert Lists(RowActions(rows[k]), i); }
          assert Counted(rows[k]) && rows[k].resource.value == resource;
        }
      }
    }
  }

  /** A row that lists write hides an earlier row on the same resource that lists read. */
  lemma LastRowHidesEarlier(rows: seq<Row>)
    requires rows == [Parsed(Some("r"), Some(["read"])), Parsed(Some("r"), Some(["write"]))]
    ensures DistinctRows(rows) && LoginCompile(rows).Ok?
    ensures CheckPermission(FoldRows(rows), "read", "r") && !CheckPermission(LoginCompile(rows).value, "read", "r")
  {
    ReadAndWrite();
    assert Compilable(rows[0]) && Compilable(rows[1]);
    LoginNeedsARow(rows);
    LoginMeaning(rows, "read", "r");
    FoldMeaning(rows, "read", "r");
    assert RowLists(rows[0], "r", 0);
  }
}
