/**
 Tenant settings: the deep merge, and what reading gives after updating.

 Source: app/services/tenant_service.py.
 */
module Settings {
  import opened Common

  datatype Json =
    | Null
    | Bool(b: bool)
    | Number(n: int)
    | Text(s: string)
    | List(items: seq<Json>)
    | Dict(fields: map<string, Json>)

  /** Keys of both; a key of the overrides wins, except that two dictionaries are merged. */
  function Merge(defaults: Json, overrides: Json): (r: Json)
    requires defaults.Dict? && overrides.Dict?
    ensures r.Dict? && r.fields.Keys == defaults.fields.Keys + overrides.fields.Keys
    decreases overrides
  {
    var d, o := defaults.fields, overrides.fields;
    Dict(map k | k in d.Keys + o.Keys ::
           if k !in o then d[k]
           else if k in d && d[k].Dict? && o[k].Dict? then Merge(d[k], o[k])
           else o[k])
  }

  /** What one key of the overrides makes of the value that is there. */
  function MergedAt(defaults: map<string, Json>, key: string, value: Json): Json {
    if key in defaults && defaults[key].Dict? && value.Dict? then Merge(defaults[key], value) else value
  }

  /*** Laws of the merge ***/

  /** The overrides have every key of the defaults, and where both hold a dictionary, so on inside. */
  predicate Covers(defaults: Json, overrides: Json)
    requires defaults.Dict? && overrides.Dict?
    decreases overrides
  {
    forall k :: k in defaults.fields ==>
      k in overrides.fields &&
      (defaults.fields[k].Dict? && overrides.fields[k].Dict? ==> Covers(defaults.fields[k], overrides.fields[k]))
  }

  /** The defaults add nothing exactly when they are covered. */
  lemma {:induction false} MergeAddsNothingIff(d: Json, x: Json)
    requires d.Dict? && x.Dict?
    ensures Merge(d, x) == x <==> Covers(d, x)
    decreases x
  {
    forall k | k in d.fields && k in x.fields && d.fields[k].Dict? && x.fields[k].Dict?
      ensures Merge(d.fields[k], x.fields[k]) == x.fields[k] <==> Covers(d.fields[k], x.fields[k])
    {
      MergeAddsNothingIff(d.fields[k], x.fields[k]);
    }
    if Covers(d, x) {
      assert Merge(d, x).fields == x.fields;
    }
    if Merge(d, x) == x {
      forall k | k in d.fields
        ensures k in x.fields &&
                (d.fields[k].Dict? && x.fields[k].Dict? ==> Covers(d.fields[k], x.fields[k]))
      {
        assert k in Merge(d, x).fields;
        assert Merge(d, x).fields[k] == x.fields[k];
      }
    }
  }

  /** A merge covers its defaults, wherever those stay dictionaries. */
  lemma {:induction false} MergeCovers(d: Json, o: Json)
    requires d.Dict? && o.Dict?
    ensures Covers(d, Merge(d, o))
    decreases o
  {
    var m := Merge(d, o);
    forall k | k in d.fields && m.fields[k].Dict? && d.fields[k].Dict? ensures Covers(d.fields[k], m.fields[k]) {
      if k in o.fields {
        MergeCovers(d.fields[k], o.fields[k]);
      } else {
        CoversSelf(d.fields[k]);
      }
    }
  }

  lemma {:induction false} CoversSelf(x: Json)
    requires x.Dict?
    ensures Covers(x, x)
    decreases x
  {
    forall k | k in x.fields && x.fields[k].Dict? ensures Covers(x.fields[k], x.fields[k]) {
      CoversSelf(x.fields[k]);
    }
  }

  /** Merging the same overrides again, on either side, changes nothing. */
  lemma {:induction false} MergeIdempotent(d: Json, o: Json)
    requires d.Dict? && o.Dict?
    ensures Merge(Merge(d, o), o) == Merge(d, o)
    ensures Merge(d, Merge(d, o)) == Merge(d, o)
    decreases o
  {
    MergeCovers(d, o);
    MergeAddsNothingIff(d, Merge(d, o));
    var m := Merge(d, o);
    forall k | k in o.fields && m.fields[k].Dict? && o.fields[k].Dict?
      ensures Merge(m.fields[k], o.fields[k]) == m.fields[k]
    {
      if k in d.fields && d.fields[k].Dict? {
        MergeIdempotent(d.fields[k], o.fields[k]);
      } else {
        CoversSelf(o.fields[k]);
        MergeAddsNothingIff(o.fields[k], o.fields[k]);
      }
    }
    assert Merge(m, o).fields == m.fields;
  }

  /** Merging twice is merging once with the merged overrides, when the middle one keeps dictionaries. */
  ghost predicate KeepsSections(d: Json, o: Json)
    requires d.Dict? && o.Dict?
    decreases o
  {
    forall k :: k in d.fields && k in o.fields && d.fields[k].Dict? ==>
      o.fields[k].Dict? && KeepsSections(d.fields[k], o.fields[k])
  }

  lemma {:induction false} MergeAssociative(a: Json, b: Json, c: Json)
    requires a.Dict? && b.Dict? && c.Dict? && KeepsSections(a, b) && KeepsSections(b, c)
    ensures Merge(Merge(a, b), c) == Merge(a, Merge(b, c))
    decreases c
  {
    var l, r := Merge(Merge(a, b), c), Merge(a, Merge(b, c));
    assert l.fields.Keys == r.fields.Keys;
    forall k | k in l.fields ensures l.fields[k] == r.fields[k] {
      if k in a.fields && k in b.fields && k in c.fields && a.fields[k].Dict? && c.fields[k].Dict? {
        MergeAssociative(a.fields[k], b.fields[k], c.fields[k]);
      }
    }
    assert l.fields == r.fields;
  }

  /** The value is there already: the same, or a dictionary all of whose entries are. */
  predicate Repeats(value: Json, there: Json) {
    value == there ||
    (value.Dict? && there.Dict? &&
     forall k :: k in value.fields ==> k in there.fields && Repeats(value.fields[k], there.fields[k]))
  }

  /** The overrides change nothing exactly when they are there already. */
  lemma {:induction false} MergeChangesNothingIff(d: Json, o: Json)
    requires d.Dict? && o.Dict?
    ensures Merge(d, o) == d <==> Repeats(o, d)
    decreases o
  {
    if o == d {
      CoversSelf(d);
      MergeAddsNothingIff(d, d);
    } else {
      forall k | k in o.fields && k in d.fields && o.fields[k].Dict? && d.fields[k].Dict?
        ensures Merge(d.fields[k], o.fields[k]) == d.fields[k] <==> Repeats(o.fields[k], d.fields[k])
      {
        MergeChangesNothingIff(d.fields[k], o.fields[k]);
      }
      if Repeats(o, d) {
        forall k | k in d.fields ensures Merge(d, o).fields[k] == d.fields[k] {
          if k in o.fields { assert Repeats(o.fields[k], d.fields[k]); }
        }
        assert Merge(d, o).fields == d.fields;
      } else {
        var k :| k in o.fields && !(k in d.fields && Repeats(o.fields[k], d.fields[k]));
        assert k in Merge(d, o).fields;
      }
    }
  }

  /*** Reading and updating ***/

  const SECTIONS := ["mfa", "tokens", "password_policy", "session", "security", "branding"]

  const DEFAULT_SETTINGS := Dict(map[
    "mfa" := Dict(map["enabled" := Bool(false), "required_for_admins" := Bool(false),
                      "methods" := List([Text("totp"), Text("email")])]),
    "tokens" := Dict(map["access_token_ttl" := Number(3600), "refresh_token_ttl" := Number(604800),
                         "id_token_ttl" := Number(3600)]),
    "password_policy" := Dict(map["min_length" := Number(8), "require_uppercase" := Bool(true),
                                  "require_lowercase" := Bool(true), "require_numbers" := Bool(true),
                                  "require_special" := Bool(false), "max_age_days" := Number(90),
                                  "prevent_reuse_count" := Number(5)]),
    "session" := Dict(map["max_concurrent_sessions" := Number(5), "idle_timeout_minutes" := Number(30),
                          "absolute_timeout_hours" := Number(24)]),
    "security" := Dict(map["lockout_threshold" := Number(5), "lockout_duration_minutes" := Number(15),
                           "require_email_verification" := Bool(true)]),
    "branding" := Dict(map["logo_url" := Null, "primary_color" := Text("#3B82F6"), "company_name" := Null])
  ])

  /** Its sections are dictionaries of plain values. */
  ghost predicate ValidDefaults(defaults: Json) {
    defaults.Dict? && forall k :: k in SECTIONS ==> k in defaults.fields && FlatSection(defaults.fields[k])
  }

  predicate FlatSection(section: Json) {
    section.Dict? && forall k :: k in section.fields ==> !section.fields[k].Dict?
  }

  lemma DefaultSettingsAreValid()
    ensures ValidDefaults(DEFAULT_SETTINGS)
    ensures DEFAULT_SETTINGS.fields["tokens"].fields["access_token_ttl"] == Number(3600)
    ensures DEFAULT_SETTINGS.fields["tokens"].fields["refresh_token_ttl"] == Number(604800)
    ensures DEFAULT_SETTINGS.fields["password_policy"].fields["min_length"] == Number(8)
    ensures DEFAULT_SETTINGS.fields["security"].fields["lockout_threshold"] == Number(5)
    ensures DEFAULT_SETTINGS.fields["mfa"].fields["enabled"] == Bool(false)
  {
    forall k | k in SECTIONS
      ensures k in DEFAULT_SETTINGS.fields && FlatSection(DEFAULT_SETTINGS.fields[k])
    {
      var i :| 0 <= i < |SECTIONS| && SECTIONS[i] == k;
    }
    DefaultValues();
  }

  lemma DefaultValues()
    ensures "tokens" in DEFAULT_SETTINGS.fields && "password_policy" in DEFAULT_SETTINGS.fields &&
            "security" in DEFAULT_SETTINGS.fields && "mfa" in DEFAULT_SETTINGS.fields
    ensures var f := DEFAULT_SETTINGS.fields;
            f["tokens"].Dict? && f["password_policy"].Dict? && f["security"].Dict? && f["mfa"].Dict? &&
            "access_token_ttl" in f["tokens"].fields && f["tokens"].fields["access_token_ttl"] == Number(3600) &&
            "refresh_token_ttl" in f["tokens"].fields && f["tokens"].fields["refresh_token_ttl"] == Number(604800) &&
            "min_length" in f["password_policy"].fields && f["password_policy"].fields["min_length"] == Number(8) &&
            "lockout_threshold" in f["security"].fields && f["security"].fields["lockout_threshold"] == Number(5) &&
            "enabled" in f["mfa"].fields && f["mfa"].fields["enabled"] == Bool(false)
  {}

  /** The response keeps the known sections only. */
  function Sections(x: Json): (r: Json)
    requires x.Dict?
    ensures r.Dict? && forall k :: k in r.fields <==> k in SECTIONS
  {
    Dict(map k | k in SECTIONS :: if k in x.fields then x.fields[k] else Dict(map[]))
  }

  /** The tenants table: a tenant's settings may be missing. */
  type Tenants = map<string, Option<map<string, Json>>>

  function Read(defaults: Json, tenants: Tenants, tenant: string): (r: Json)
    requires defaults.Dict?
    ensures r.Dict?
  {
    if tenant !in tenants || tenants[tenant].None? || tenants[tenant].value == map[] then Sections(defaults)
    else Sections(Merge(defaults, Dict(tenants[tenant].value)))
  }

  /** The row holds a value for the section that is no dictionary, so it replaces the whole section. */
  predicate PlainSection(tenants: Tenants, tenant: string, k: string) {
    tenant in tenants && tenants[tenant].Some? && k in tenants[tenant].value && !tenants[tenant].value[k].Dict?
  }

  /** The row gives the setting d of the section k. */
  predicate Gives(tenants: Tenants, tenant: string, k: string, d: string) {
    tenant in tenants && tenants[tenant].Some? && k in tenants[tenant].value && tenants[tenant].value[k].Dict? &&
    d in tenants[tenant].value[k].fields
  }

  /**
   What a tenant's settings read as, setting by setting: exactly the six sections; in each,
   the value the row gives, or else the default; and a plain value stored for a whole section
   as it is.
   */
  lemma ReadMeans(defaults: Json, tenants: Tenants, tenant: string, k: string, d: string)
    requires ValidDefaults(defaults)
    ensures var r := Read(defaults, tenants, tenant).fields;
            (k in r <==> k in ["mfa", "tokens", "password_policy", "session", "security", "branding"]) &&
            (k in r ==>
              if PlainSection(tenants, tenant, k) then r[k] == tenants[tenant].value[k]
              else r[k].Dict? && (d in r[k].fields <==> Gives(tenants, tenant, k, d) || d in defaults.fields[k].fields) &&
                   (d in r[k].fields ==>
                     r[k].fields[d] == if Gives(tenants, tenant, k, d) then tenants[tenant].value[k].fields[d]
                                       else defaults.fields[k].fields[d]))
  {
    if k in SECTIONS && tenant in tenants && tenants[tenant].Some? && k in tenants[tenant].value {
      var section, given := defaults.fields[k], tenants[tenant].value[k];
      assert FlatSection(section);
      if given.Dict? {
        assert Merge(defaults, Dict(tenants[tenant].value)).fields[k] == Merge(section, given);
        assert d in given.fields ==> Merge(section, given).fields[d] == given.fields[d];
      }
    }
  }

  /**
   The tenants table is under row-level security: a connection sees the row of the tenant
   it is set to, which the request names beside its token.
   */
  function Seen(tenants: Tenants, conn: string): Tenants {
    map t | t in tenants && t == conn :: tenants[t]
  }

  /** What an update returns; it is stored when the connection sees the tenant's row. */
  function Updated(defaults: Json, tenants: Tenants, conn: string, tenant: string, settings: Json): (r: Json)
    requires defaults.Dict? && settings.Dict?
    ensures r.Dict?
  {
    Merge(Read(defaults, Seen(tenants, conn), tenant), settings)
  }

  function Update(defaults: Json, tenants: Tenants, conn: string, tenant: string, settings: Json): Tenants
    requires defaults.Dict? && settings.Dict?
  {
    if tenant in Seen(tenants, conn)
    then tenants[tenant := Some(Updated(defaults, tenants, conn, tenant, settings).fields)] else tenants
  }

  /** What is read of a section covers the defaults of that section, if it is a dictionary. */
  lemma ReadCovers(defaults: Json, tenants: Tenants, tenant: string, k: string)
    requires ValidDefaults(defaults) && k in SECTIONS
    ensures var before := Read(defaults, tenants, tenant);
            before.fields[k].Dict? ==> Covers(defaults.fields[k], before.fields[k])
  {}

  /** A section that reads as a dictionary, is not replaced by one, or whose replacement is complete. */
  predicate SectionKept(defaults: Json, before: Json, settings: Json, k: string)
    requires defaults.Dict? && before.Dict? && settings.Dict?
  {
    k in settings.fields && settings.fields[k].Dict? && k in before.fields && !before.fields[k].Dict? &&
    k in defaults.fields && defaults.fields[k].Dict? ==>
      forall d :: d in defaults.fields[k].fields ==> d in settings.fields[k].fields
  }

  lemma FlatCovers(section: Json, x: Json)
    requires FlatSection(section) && x.Dict?
    ensures Covers(section, x) <==> forall d :: d in section.fields ==> d in x.fields
  {}

  /** One section after an update: the defaults add nothing exactly when the section was kept. */
  lemma SectionRoundTrip(defaults: Json, before: Json, settings: Json, k: string)
    requires ValidDefaults(defaults) && before.Dict? && settings.Dict? && k in SECTIONS && k in before.fields
    requires before.fields[k].Dict? ==> Covers(defaults.fields[k], before.fields[k])
    ensures var x := Merge(before, settings);
            Merge(defaults, x).fields[k] == x.fields[k] <==> SectionKept(defaults, before, settings, k)
  {
    var x, d := Merge(before, settings), defaults.fields[k];
    if x.fields[k].Dict? {
      MergeAddsNothingIff(d, x.fields[k]);
      FlatCovers(d, x.fields[k]);
      if before.fields[k].Dict? { FlatCovers(d, before.fields[k]); }
    }
  }

  lemma ReadsMerged(defaults: Json, tenants: Tenants, tenant: string, settings: Json)
    requires defaults.Dict? && settings.Dict? && tenant in tenants
    ensures Read(defaults, Update(defaults, tenants, tenant, tenant, settings), tenant) ==
            Sections(Merge(defaults, Merge(Read(defaults, tenants, tenant), settings)))
  {
    assert Read(defaults, Seen(tenants, tenant), tenant) == Read(defaults, tenants, tenant);
  }

  lemma SectionsEqualIff(a: Json, b: Json)
    requires a.Dict? && b.Dict?
    ensures Sections(a) == Sections(b) <==>
            forall k :: k in SECTIONS ==> Sections(a).fields[k] == Sections(b).fields[k]
  {}

  /** The update asks for nothing that a section does not hold already. */
  predicate RepeatsSections(settings: Json, before: Json)
    requires settings.Dict? && before.Dict?
  {
    forall k :: k in SECTIONS && k in settings.fields ==> k in before.fields && Repeats(settings.fields[k], before.fields[k])
  }

  lemma ReadIsSections(defaults: Json, tenants: Tenants, tenant: string)
    requires defaults.Dict?
    ensures Sections(Read(defaults, tenants, tenant)) == Read(defaults, tenants, tenant)
  {
    var r := Read(defaults, tenants, tenant);
    assert Sections(r).fields == r.fields;
  }

  lemma SectionsUnchangedIff(before: Json, settings: Json)
    requires before.Dict? && settings.Dict? && Sections(before) == before
    ensures Sections(Merge(before, settings)) == before <==> RepeatsSections(settings, before)
  {
    var r := Sections(Merge(before, settings));
    forall k | k in SECTIONS && k in settings.fields
      ensures r.fields[k] == before.fields[k] <==> Repeats(settings.fields[k], before.fields[k])
    {
      var x, y := before.fields[k], settings.fields[k];
      if x.Dict? && y.Dict? { MergeChangesNothingIff(x, y); }
    }
    if RepeatsSections(settings, before) { assert r.fields == before.fields; }
  }

  /** The update takes: it was stored and every section kept, or there was nothing to store. */
  predicate Takes(defaults: Json, tenants: Tenants, conn: string, tenant: string, settings: Json)
    requires defaults.Dict? && settings.Dict?
  {
    var before := Read(defaults, tenants, tenant);
    if tenant in Seen(tenants, conn) then forall k :: k in SECTIONS ==> SectionKept(defaults, before, settings, k)
    else RepeatsSections(settings, before)
  }

  /**
   Reading after an update, whether or not the tenant exists and whatever the connection,
   gives the previous settings merged with the update exactly when the connection saw the
   tenant's row and every section was kept, or it did not see the row and the update asked
   for nothing new.
   */
  lemma ReadAfterUpdateIff(defaults: Json, tenants: Tenants, conn: string, tenant: string, settings: Json)
    requires ValidDefaults(defaults) && settings.Dict?
    ensures Read(defaults, Update(defaults, tenants, conn, tenant, settings), tenant) ==
            Sections(Merge(Read(defaults, tenants, tenant), settings)) <==>
            Takes(defaults, tenants, conn, tenant, settings)
    ensures tenant !in Seen(tenants, conn) ==> Update(defaults, tenants, conn, tenant, settings) == tenants
  {
    if tenant in Seen(tenants, conn) {
      StoredUpdateIff(defaults, tenants, tenant, settings);
    } else {
      ReadIsSections(defaults, tenants, tenant);
      SectionsUnchangedIff(Read(defaults, tenants, tenant), settings);
    }
  }

  lemma StoredUpdateIff(defaults: Json, tenants: Tenants, tenant: string, settings: Json)
    requires ValidDefaults(defaults) && settings.Dict? && tenant in tenants
    ensures var before := Read(defaults, tenants, tenant);
            Read(defaults, Update(defaults, tenants, tenant, tenant, settings), tenant) ==
            Sections(Merge(before, settings)) <==>
            forall k :: k in SECTIONS ==> SectionKept(defaults, before, settings, k)
  {
    var before := Read(defaults, tenants, tenant);
    var x := Merge(before, settings);
    ReadsMerged(defaults, tenants, tenant, settings);
    SectionsEqualIff(Merge(defaults, x), x);
    forall k | k in SECTIONS
      ensures Sections(Merge(defaults, x)).fields[k] == Sections(x).fields[k] <==>
              SectionKept(defaults, before, settings, k)
    {
      ReadCovers(defaults, tenants, tenant, k);
      SectionRoundTrip(defaults, before, settings, k);
    }
  }

  /** An update of one tenant does not change what another one reads. */
  lemma UpdateIsLocal(defaults: Json, tenants: Tenants, conn: string, tenant: string, settings: Json, other: string)
    requires defaults.Dict? && settings.Dict? && other != tenant
    ensures Read(defaults, Update(defaults, tenants, conn, tenant, settings), other) == Read(defaults, tenants, other)
  {}

  /** A section stored as a plain value and then replaced by a partial one reads back with defaults filled in. */
  lemma LostSectionRefills(defaults: Json, d: string)
    requires ValidDefaults(defaults) && "mfa" in defaults.fields && defaults.fields["mfa"].Dict?
    requires d in defaults.fields["mfa"].fields
    ensures var tenants := map["t" := Some(map["mfa" := Number(0)])];
            var settings := Dict(map["mfa" := Dict(map[])]);
            Read(defaults, Update(defaults, tenants, "t", "t", settings), "t") !=
            Sections(Merge(Read(defaults, tenants, "t"), settings))
  {}

  /** An update of t on a connection of y answers as if stored, and t goes on reading what it read. */
  lemma ForeignUpdateIsLost(defaults: Json, row: Option<map<string, Json>>, y: string, settings: Json)
    requires ValidDefaults(defaults) && settings.Dict? && y != "t"
    requires var tenants := map["t" := row]; !RepeatsSections(settings, Read(defaults, tenants, "t"))
    ensures var tenants := map["t" := row];
            Updated(defaults, tenants, y, "t", settings) == Merge(Sections(defaults), settings) &&
            Read(defaults, Update(defaults, tenants, y, "t", settings), "t") == Read(defaults, tenants, "t") &&
            Read(defaults, tenants, "t") != Sections(Merge(Read(defaults, tenants, "t"), settings))
  {
    var tenants: Tenants := map["t" := row];
    assert "t" !in Seen(tenants, y);
    assert Read(defaults, Seen(tenants, y), "t") == Sections(defaults);
    assert Update(defaults, tenants, y, "t", settings) == tenants;
    ReadIsSections(defaults, tenants, "t");
    SectionsUnchangedIff(Read(defaults, tenants, "t"), settings);
  }

  /*** Runs of updates ***/

  datatype Change = Change(conn: string, tenant: string, settings: Json)

  /** The update gives dictionaries for the sections it names. */
  predicate GivesSections(settings: Json) {
    settings.Dict? && forall k :: k in SECTIONS && k in settings.fields ==> settings.fields[k].Dict?
  }

  predicate SectionsStay(changes: seq<Change>) {
    forall i :: 0 <= i < |changes| ==> GivesSections(changes[i].settings)
  }

  function UpdateAll(defaults: Json, tenants: Tenants, changes: seq<Change>): Tenants
    requires defaults.Dict? && SectionsStay(changes)
  {
    if changes == [] then tenants
    else
      var c := changes[0];
      UpdateAll(defaults, Update(defaults, tenants, c.conn, c.tenant, c.settings), changes[1..])
  }

  /** The tenant's own updates merged one after the other, all of them or those on its own connection. */
  function MergeAll(settings: Json, changes: seq<Change>, tenant: string, own: bool): (r: Json)
    requires settings.Dict? && SectionsStay(changes)
    ensures r.Dict?
    decreases |changes|
  {
    if changes == [] then settings
    else if changes[0].tenant == tenant && (own ==> changes[0].conn == tenant)
    then MergeAll(Sections(Merge(settings, changes[0].settings)), changes[1..], tenant, own)
    else MergeAll(settings, changes[1..], tenant, own)
  }

  ghost predicate ReadsSections(defaults: Json, tenants: Tenants, tenant: string)
    requires defaults.Dict?
  {
    forall k :: k in SECTIONS ==> Read(defaults, tenants, tenant).fields[k].Dict?
  }

  /** What one change makes of the reading. */
  lemma ReadAfterChange(defaults: Json, tenants: Tenants, tenant: string, c: Change)
    requires ValidDefaults(defaults) && GivesSections(c.settings)
    requires tenant in tenants && ReadsSections(defaults, tenants, tenant)
    ensures var next := Update(defaults, tenants, c.conn, c.tenant, c.settings);
            tenant in next && ReadsSections(defaults, next, tenant) &&
            Read(defaults, next, tenant) ==
            if c.tenant == tenant && c.conn == tenant then Sections(Merge(Read(defaults, tenants, tenant), c.settings))
            else Read(defaults, tenants, tenant)
  {
    if c.tenant == tenant && c.conn == tenant { StoredUpdateIff(defaults, tenants, tenant, c.settings); }
    if c.tenant != tenant { UpdateIsLocal(defaults, tenants, c.conn, c.tenant, c.settings, tenant); }
  }

  /**
   In every run of updates that keep sections as sections, reading gives the merge of the
   tenant's updates on its own connection.
   */
  lemma {:induction false} ReadsAreMergedUpdates(defaults: Json, tenants: Tenants, tenant: string, changes: seq<Change>)
    requires ValidDefaults(defaults) && SectionsStay(changes) && tenant in tenants
    requires ReadsSections(defaults, tenants, tenant)
    decreases |changes|
    ensures Read(defaults, UpdateAll(defaults, tenants, changes), tenant) ==
            MergeAll(Read(defaults, tenants, tenant), changes, tenant, true)
  {
    if changes != [] {
      var c := changes[0];
      ReadAfterChange(defaults, tenants, tenant, c);
      ReadsAreMergedUpdates(defaults, Update(defaults, tenants, c.conn, c.tenant, c.settings), tenant, changes[1..]);
    }
  }

  /** The change is read: a change of the tenant is merged into what was read before, another one leaves it. */
  predicate IsRead(defaults: Json, tenants: Tenants, tenant: string, c: Change)
    requires defaults.Dict? && c.settings.Dict?
  {
    var before := Read(defaults, tenants, tenant);
    Read(defaults, Update(defaults, tenants, c.conn, c.tenant, c.settings), tenant) ==
    if c.tenant == tenant then Sections(Merge(before, c.settings)) else before
  }

  ghost predicate AllRead(defaults: Json, tenants: Tenants, tenant: string, changes: seq<Change>)
    requires defaults.Dict? && SectionsStay(changes)
    decreases |changes|
  {
    changes == [] ||
    (var c := changes[0];
     IsRead(defaults, tenants, tenant, c) &&
     AllRead(defaults, Update(defaults, tenants, c.conn, c.tenant, c.settings), tenant, changes[1..]))
  }

  /** The change is on its tenant's connection, or asks for nothing new. */
  predicate NotLost(defaults: Json, tenants: Tenants, tenant: string, c: Change)
    requires defaults.Dict? && c.settings.Dict?
  {
    c.tenant == tenant && c.conn != tenant ==> RepeatsSections(c.settings, Read(defaults, tenants, tenant))
  }

  ghost predicate NoneLost(defaults: Json, tenants: Tenants, tenant: string, changes: seq<Change>)
    requires defaults.Dict? && SectionsStay(changes)
    decreases |changes|
  {
    changes == [] ||
    (var c := changes[0];
     NotLost(defaults, tenants, tenant, c) &&
     NoneLost(defaults, Update(defaults, tenants, c.conn, c.tenant, c.settings), tenant, changes[1..]))
  }

  lemma ChangeIsReadIff(defaults: Json, tenants: Tenants, tenant: string, c: Change)
    requires ValidDefaults(defaults) && GivesSections(c.settings)
    requires tenant in tenants && ReadsSections(defaults, tenants, tenant)
    ensures IsRead(defaults, tenants, tenant, c) <==> NotLost(defaults, tenants, tenant, c)
  {
    ReadAfterChange(defaults, tenants, tenant, c);
    ReadIsSections(defaults, tenants, tenant);
    SectionsUnchangedIff(Read(defaults, tenants, tenant), c.settings);
  }

  /**
   Each of the tenant's updates in a run is read right after it exactly when none that
   asks for something new is lost; the run then reads as the merge of them all.
   */
  lemma {:induction false} AllUpdatesReadIff(defaults: Json, tenants: Tenants, tenant: string, changes: seq<Change>)
    requires ValidDefaults(defaults) && SectionsStay(changes) && tenant in tenants
    requires ReadsSections(defaults, tenants, tenant)
    ensures AllRead(defaults, tenants, tenant, changes) <==> NoneLost(defaults, tenants, tenant, changes)
    ensures AllRead(defaults, tenants, tenant, changes) ==>
              Read(defaults, UpdateAll(defaults, tenants, changes), tenant) ==
              MergeAll(Read(defaults, tenants, tenant), changes, tenant, false)
    decreases |changes|
  {
    if changes != [] {
      var c := changes[0];
      ReadAfterChange(defaults, tenants, tenant, c);
      ChangeIsReadIff(defaults, tenants, tenant, c);
      AllUpdatesReadIff(defaults, Update(defaults, tenants, c.conn, c.tenant, c.settings), tenant, changes[1..]);
    }
  }

  /*** Reading through the cache ***/

  const SETTINGS_TTL := 60

  datatype Entry = Entry(value: Json, expires: int)

  datatype State = State(clock: int, tenants: Tenants, cache: map<string, Entry>)

  /** Reads may pass a cache connection; the routes that update pass none, and nothing deletes a key. */
  datatype Event =
    | Tick(seconds: nat)
    | Evict(tenant: string)
    | Get(conn: string, tenant: string, redis: bool)
    | Patch(conn: string, tenant: string, settings: map<string, Json>)

  predicate Hit(s: State, tenant: string) {
    tenant in s.cache && s.clock < s.cache[tenant].expires
  }

  function Handle(defaults: Json, s: State, e: Event): (State, Option<Json>)
    requires defaults.Dict?
  {
    match e
    case Tick(d) => (s.(clock := s.clock + d), None)
    case Evict(tenant) => (s.(cache := s.cache - {tenant}), None)
    case Get(conn, tenant, redis) =>
      if redis && Hit(s, tenant) then (s, Some(s.cache[tenant].value))
      else
        var r := Read(defaults, Seen(s.tenants, conn), tenant);
        (if redis then s.(cache := s.cache[tenant := Entry(r, s.clock + SETTINGS_TTL)]) else s, Some(r))
    case Patch(conn, tenant, settings) =>
      (s.(tenants := Update(defaults, s.tenants, conn, tenant, Dict(settings))),
       Some(Updated(defaults, s.tenants, conn, tenant, Dict(settings))))
  }

  function Step(defaults: Json, s: State, e: Event): State
    requires defaults.Dict?
  {
    Handle(defaults, s, e).0
  }

  function Run(defaults: Json, s: State, events: seq<Event>): State
    requires defaults.Dict?
  {
    if events == [] then s
    else Step(defaults, Run(defaults, s, events[..|events| - 1]), events[|events| - 1])
  }

  function UncachedAnswer(defaults: Json, tenants: Tenants, e: Event): Option<Json>
    requires defaults.Dict?
  {
    match e
    case Get(conn, tenant, _) => Some(Read(defaults, Seen(tenants, conn), tenant))
    case Patch(conn, tenant, settings) => Some(Updated(defaults, tenants, conn, tenant, Dict(settings)))
    case _ => None
  }

  /** Every entry a read would use is what the tenant's row reads as now. */
  ghost predicate Coherent(defaults: Json, s: State)
    requires defaults.Dict?
  {
    forall tenant :: Hit(s, tenant) ==> s.cache[tenant].value == Read(defaults, s.tenants, tenant)
  }

  /**
   A read through the cache is on the tenant's connection, or the tenant reads as the
   defaults; an update that is stored while the tenant is cached asks for nothing new.
   */
  predicate SafeStep(defaults: Json, s: State, e: Event)
    requires defaults.Dict?
  {
    match e
    case Get(conn, tenant, redis) => redis ==> conn == tenant || Read(defaults, s.tenants, tenant) == Sections(defaults)
    case Patch(conn, tenant, settings) =>
      Hit(s, tenant) && tenant in Seen(s.tenants, conn) ==>
        RepeatsSections(Dict(settings), Read(defaults, s.tenants, tenant))
    case _ => true
  }

  /** One step cannot be told from the service without a cache, now or by a later read. */
  ghost predicate Invisible(defaults: Json, s: State, e: Event)
    requires defaults.Dict?
  {
    Coherent(defaults, Step(defaults, s, e)) && Handle(defaults, s, e).1 == UncachedAnswer(defaults, s.tenants, e)
  }

  /** An update that is stored leaves the reading as it was exactly when it asks for nothing new. */
  lemma StoredUpdateChangesIff(defaults: Json, tenants: Tenants, tenant: string, settings: Json)
    requires ValidDefaults(defaults) && settings.Dict? && tenant in tenants
    ensures var before := Read(defaults, tenants, tenant);
            Read(defaults, Update(defaults, tenants, tenant, tenant, settings), tenant) == before <==>
            RepeatsSections(settings, before)
  {
    var before := Read(defaults, tenants, tenant);
    var x := Merge(before, settings);
    var after := Sections(Merge(defaults, x));
    ReadsMerged(defaults, tenants, tenant, settings);
    forall k | k in SECTIONS
      ensures after.fields[k] == before.fields[k] <==>
              (k in settings.fields ==> Repeats(settings.fields[k], before.fields[k]))
    {
      ReadCovers(defaults, tenants, tenant, k);
      SectionRoundTrip(defaults, before, settings, k);
      if k in settings.fields && settings.fields[k].Dict? && before.fields[k].Dict? {
        MergeChangesNothingIff(before.fields[k], settings.fields[k]);
      }
    }
    assert (forall k :: k in SECTIONS ==> after.fields[k] == before.fields[k]) ==> after.fields == before.fields;
  }

  lemma GetIsInvisibleIff(defaults: Json, s: State, conn: string, tenant: string, redis: bool)
    requires ValidDefaults(defaults) && Coherent(defaults, s)
    ensures Invisible(defaults, s, Get(conn, tenant, redis)) <==> SafeStep(defaults, s, Get(conn, tenant, redis))
  {
    var t := Step(defaults, s, Get(conn, tenant, redis));
    assert conn == tenant ==> Read(defaults, Seen(s.tenants, conn), tenant) == Read(defaults, s.tenants, tenant);
    assert conn != tenant ==> Read(defaults, Seen(s.tenants, conn), tenant) == Sections(defaults);
    if redis { assert Hit(t, tenant); }
  }

  lemma PatchIsInvisibleIff(defaults: Json, s: State, conn: string, tenant: string, settings: map<string, Json>)
    requires ValidDefaults(defaults) && Coherent(defaults, s)
    ensures Invisible(defaults, s, Patch(conn, tenant, settings)) <==> SafeStep(defaults, s, Patch(conn, tenant, settings))
  {
    var t := Step(defaults, s, Patch(conn, tenant, settings));
    forall other | other != tenant ensures Read(defaults, t.tenants, other) == Read(defaults, s.tenants, other) {
      UpdateIsLocal(defaults, s.tenants, conn, tenant, Dict(settings), other);
    }
    if tenant in Seen(s.tenants, conn) { StoredUpdateChangesIff(defaults, s.tenants, tenant, Dict(settings)); }
    assert Hit(t, tenant) <==> Hit(s, tenant);
  }

  /** Safety is exactly what one step needs. */
  lemma StepIsInvisibleIff(defaults: Json, s: State, e: Event)
    requires ValidDefaults(defaults) && Coherent(defaults, s)
    ensures Invisible(defaults, s, e) <==> SafeStep(defaults, s, e)
  {
    match e
    case Tick(_) =>
    case Evict(_) =>
    case Get(conn, tenant, redis) => GetIsInvisibleIff(defaults, s, conn, tenant, redis);
    case Patch(conn, tenant, settings) => PatchIsInvisibleIff(defaults, s, conn, tenant, settings);
  }

  ghost predicate InvisibleRun(defaults: Json, s: State, events: seq<Event>)
    requires defaults.Dict?
  {
    forall k :: 0 <= k < |events| ==> Invisible(defaults, Run(defaults, s, events[..k]), events[k])
  }

  ghost predicate SafeRun(defaults: Json, s: State, events: seq<Event>)
    requires defaults.Dict?
  {
    forall k :: 0 <= k < |events| ==> SafeStep(defaults, Run(defaults, s, events[..k]), events[k])
  }

  lemma {:induction false} PrefixIsCoherent(defaults: Json, s: State, events: seq<Event>, k: nat)
    requires ValidDefaults(defaults) && Coherent(defaults, s) && k <= |events|
    requires InvisibleRun(defaults, s, events) || SafeRun(defaults, s, events)
    ensures Coherent(defaults, Run(defaults, s, events[..k]))
  {
    if k > 0 {
      PrefixIsCoherent(defaults, s, events, k - 1);
      assert events[..k][..k - 1] == events[..k - 1];
      StepIsInvisibleIff(defaults, Run(defaults, s, events[..k - 1]), events[k - 1]);
    }
  }

  /** Over a run, the cache cannot be noticed at any moment exactly when every step is safe. */
  lemma CachingIsInvisibleIff(defaults: Json, s: State, events: seq<Event>)
    requires ValidDefaults(defaults) && Coherent(defaults, s)
    ensures InvisibleRun(defaults, s, events) <==> SafeRun(defaults, s, events)
  {
    if InvisibleRun(defaults, s, events) || SafeRun(defaults, s, events) {
      forall k | 0 <= k < |events|
        ensures Invisible(defaults, Run(defaults, s, events[..k]), events[k]) <==>
                SafeStep(defaults, Run(defaults, s, events[..k]), events[k])
      {
        PrefixIsCoherent(defaults, s, events, k);
        StepIsInvisibleIff(defaults, Run(defaults, s, events[..k]), events[k]);
      }
    }
  }

  /** At step k of the run the reading was fetched that is cached for the tenant at the end. */
  ghost predicate FetchedAt(defaults: Json, s: State, events: seq<Event>, k: nat, tenant: string)
    requires defaults.Dict? && tenant in Run(defaults, s, events).cache
  {
    k < |events| && events[k].Get? && events[k].tenant == tenant &&
    var then_, now := Run(defaults, s, events[..k]), Run(defaults, s, events);
    now.cache[tenant] == Entry(Read(defaults, Seen(then_.tenants, events[k].conn), tenant), then_.clock + 60)
  }

  /** Whatever is updated in between, a cached answer is what its reader's connection read less than 60 s ago. */
  lemma {:induction false} HitsAreRecent(defaults: Json, s: State, events: seq<Event>, tenant: string)
    requires defaults.Dict? && s.cache == map[] && tenant in Run(defaults, s, events).cache
    ensures exists k: nat :: FetchedAt(defaults, s, events, k, tenant)
    ensures Hit(Run(defaults, s, events), tenant) ==>
              exists k: nat :: FetchedAt(defaults, s, events, k, tenant) &&
                               Run(defaults, s, events).clock - Run(defaults, s, events[..k]).clock < 60
    decreases |events|
  {
    var n := |events| - 1;
    var before, e := events[..n], events[n];
    var t := Run(defaults, s, before);
    if tenant in t.cache && Run(defaults, s, events).cache[tenant] == t.cache[tenant] {
      HitsAreRecent(defaults, s, before, tenant);
      var k: nat :| FetchedAt(defaults, s, before, k, tenant);
      assert before[..k] == events[..k] && before[k] == events[k];
      assert FetchedAt(defaults, s, events, k, tenant);
    } else {
      assert FetchedAt(defaults, s, events, n, tenant);
    }
  }

  /** After an own update within the minute, a cached read still gives the old settings. */
  lemma UpdateReadsStale(defaults: Json, clock: int, settings: map<string, Json>)
    requires ValidDefaults(defaults) && !RepeatsSections(Dict(settings), Sections(defaults))
    ensures var s := State(clock, map["t" := None], map[]);
            var u := Run(defaults, s, [Get("t", "t", true), Patch("t", "t", settings)]);
            Handle(defaults, u, Get("t", "t", true)).1 == Some(Sections(defaults)) &&
            UncachedAnswer(defaults, u.tenants, Get("t", "t", true)) != Some(Sections(defaults))
  {
    var s := State(clock, map["t" := None], map[]);
    var events := [Get("t", "t", true), Patch("t", "t", settings)];
    var s1 := Step(defaults, s, events[0]);
    assert Run(defaults, s, []) == s && events[..1] == [events[0]] && [events[0]][..0] == [];
    assert Run(defaults, s, events[..1]) == s1;
    var u := Step(defaults, s1, events[1]);
    assert Run(defaults, s, events) == u && Hit(u, "t");
    StoredUpdateChangesIff(defaults, s.tenants, "t", Dict(settings));
    assert Seen(u.tenants, "t") == u.tenants;
  }

  /*** The service on its table and cache ***/

  class TenantTable {
    var rows: Tenants

    constructor ()
      ensures rows == map[]
    {
      rows := map[];
    }
  }

  class Redis {
    var entries: map<string, Entry>
    var clock: int

    constructor (clock: int)
      ensures entries == map[] && this.clock == clock
    {
      entries, this.clock := map[], clock;
    }
  }

  ghost function View(db: TenantTable, redis: Redis): State
    reads db, redis
  {
    State(redis.clock, db.rows, redis.entries)
  }

  method GetTenantSettings(db: TenantTable, redis: Redis, defaults: Json, conn: string, tenant: string, connected: bool)
    returns (r: Json)
    requires defaults.Dict?
    modifies redis`entries
    ensures (View(db, redis), Some(r)) == Handle(defaults, old(View(db, redis)), Get(conn, tenant, connected))
  {
    if connected {
      if tenant in redis.entries && redis.clock < redis.entries[tenant].expires {
        return redis.entries[tenant].value;
      }
    }
    var merged := defaults;
    var seen := Seen(db.rows, conn);
    if tenant in seen && seen[tenant].Some? && seen[tenant].value != map[] {
      merged := Merge(defaults, Dict(seen[tenant].value));
    }
    r := Sections(merged);
    if connected {
      redis.entries := redis.entries[tenant := Entry(r, redis.clock + SETTINGS_TTL)];
    }
  }

  /** As the routes call it, without a cache connection; returns the merged settings whether or not a row took them. */
  method UpdateTenantSettings(db: TenantTable, redis: Redis, defaults: Json, conn: string, tenant: string,
                              settings: map<string, Json>)
    returns (r: Json)
    requires defaults.Dict?
    modifies db, redis`entries
    ensures r.Dict? && (View(db, redis), Some(r)) == Handle(defaults, old(View(db, redis)), Patch(conn, tenant, settings))
  {
    var current := GetTenantSettings(db, redis, defaults, conn, tenant, false);
    r := Merge(current, Dict(settings));
    if tenant in Seen(db.rows, conn) {
      db.rows := db.rows[tenant := Some(r.fields)];
    }
  }
}
