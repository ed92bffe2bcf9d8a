/**
 The settings merge on mutable dictionaries that may share parts: the result is a
 new dictionary, and nothing that existed before is written.

 Source: app/services/tenant_service.py, the recursive merge and its two callers.
 */
module SettingsObjects {
  import opened Common
  import opened Settings

  /** A dictionary object; `rank` bounds how deep its parts are nested. */
  class Obj {
    var entries: map<string, Value>
    ghost const rank: nat

    constructor (entries: map<string, Value>, ghost rank: nat)
      ensures this.entries == entries && this.rank == rank
    {
      this.entries, this.rank := entries, rank;
    }
  }

  datatype Value = Leaf(json: Json) | Ref(obj: Obj)

  /** A plain value, or a dictionary of the given objects that lies strictly deeper. */
  ghost predicate Inside(v: Value, objs: set<Obj>, rank: nat) {
    match v
    case Leaf(j) => !j.Dict?
    case Ref(o) => o in objs && o.rank < rank
  }

  /** The objects are closed under taking parts. */
  ghost predicate Closed(objs: set<Obj>)
    reads objs
  {
    forall o, k :: o in objs && k in o.entries ==> Inside(o.entries[k], objs, o.rank)
  }

  ghost function ToJson(o: Obj, objs: set<Obj>): (r: Json)
    requires Closed(objs) && o in objs
    reads objs
    ensures r.Dict? && r.fields.Keys == o.entries.Keys
    decreases o.rank, 1
  {
    assert forall k :: k in o.entries ==> Inside(o.entries[k], objs, o.rank);
    Dict(map k | k in o.entries :: ValueJson(o.entries[k], objs, o.rank))
  }

  ghost function ValueJson(v: Value, objs: set<Obj>, rank: nat): Json
    requires Closed(objs) && Inside(v, objs, rank)
    reads objs
    decreases rank, 0
  {
    match v
    case Leaf(j) => j
    case Ref(o) => ToJson(o, objs)
  }

  /** Further objects do not change what a dictionary holds. */
  lemma {:induction false} MoreObjects(o: Obj, objs: set<Obj>, more: set<Obj>)
    requires Closed(objs) && Closed(more) && objs <= more && o in objs
    ensures ToJson(o, more) == ToJson(o, objs)
    decreases o.rank
  {
    forall k | k in o.entries
      ensures Inside(o.entries[k], objs, o.rank) &&
              ValueJson(o.entries[k], more, o.rank) == ValueJson(o.entries[k], objs, o.rank)
    {
      assert Inside(o.entries[k], objs, o.rank);
      if o.entries[k].Ref? { MoreObjects(o.entries[k].obj, objs, more); }
    }
    assert ToJson(o, more).fields == ToJson(o, objs).fields;
  }

  lemma MoreObjectsValue(v: Value, objs: set<Obj>, more: set<Obj>, rank: nat, rank': nat)
    requires Closed(objs) && Closed(more) && objs <= more && Inside(v, objs, rank) && rank <= rank'
    ensures Inside(v, more, rank') && ValueJson(v, more, rank') == ValueJson(v, objs, rank)
  {
    if v.Ref? { MoreObjects(v.obj, objs, more); }
  }

  ghost function Max(a: nat, b: nat): nat {
    if a < b then b else a
  }

  /** The entries hold the given values. */
  ghost predicate Holds(entries: map<string, Value>, objs: set<Obj>, rank: nat, want: map<string, Json>)
    requires Closed(objs)
    reads objs
  {
    entries.Keys == want.Keys &&
    forall k :: k in entries ==> Inside(entries[k], objs, rank) && ValueJson(entries[k], objs, rank) == want[k]
  }

  lemma HoldsMore(entries: map<string, Value>, objs: set<Obj>, more: set<Obj>, rank: nat, rank': nat,
                  want: map<string, Json>)
    requires Closed(objs) && Closed(more) && objs <= more && rank <= rank' && Holds(entries, objs, rank, want)
    ensures Holds(entries, more, rank', want)
  {
    forall k | k in entries
      ensures Inside(entries[k], more, rank') && ValueJson(entries[k], more, rank') == want[k]
    {
      MoreObjectsValue(entries[k], objs, more, rank, rank');
    }
  }

  /** The merge after some of the overrides have been applied. */
  ghost function Partly(d: map<string, Json>, o: map<string, Json>, done: set<string>): map<string, Json>
    requires done <= o.Keys
  {
    map k | k in d.Keys + done :: if k in done then MergedAt(d, k, o[k]) else d[k]
  }

  lemma PartlyAll(d: Json, o: Json)
    requires d.Dict? && o.Dict?
    ensures Partly(d.fields, o.fields, o.fields.Keys) == Merge(d, o).fields
    ensures Partly(d.fields, o.fields, {}) == d.fields
  {}

  /** A new object over closed objects. */
  lemma AddObject(objs: set<Obj>, o: Obj, want: map<string, Json>)
    requires Closed(objs) && o !in objs && Holds(o.entries, objs, o.rank, want)
    ensures Closed(objs + {o}) && ToJson(o, objs + {o}) == Dict(want)
  {
    var more := objs + {o};
    forall p, k | p in more && k in p.entries ensures Inside(p.entries[k], more, p.rank) {
      if p == o { assert Inside(o.entries[k], objs, o.rank); } else { assert Inside(p.entries[k], objs, p.rank); }
    }
    HoldsMore(o.entries, objs, more, o.rank, o.rank, want);
    assert ToJson(o, more).fields == want;
  }

  /** One more key of the overrides applied. */
  lemma PutValue(entries: map<string, Value>, objs: set<Obj>, rank: nat, d: map<string, Json>, o: map<string, Json>,
                 done: set<string>, key: string, v: Value)
    requires Closed(objs) && done <= o.Keys && key in o && Holds(entries, objs, rank, Partly(d, o, done))
    requires Inside(v, objs, rank) && ValueJson(v, objs, rank) == MergedAt(d, key, o[key])
    ensures Holds(entries[key := v], objs, rank, Partly(d, o, done + {key}))
  {}

  /** What is known of the two values met at a key. */
  lemma AtKey(entries: map<string, Value>, objs: set<Obj>, all: set<Obj>, rank: nat, overrides: Obj, key: string,
              d: map<string, Json>, done: set<string>)
    requires Closed(objs) && Closed(all) && objs <= all && overrides in objs && overrides.rank <= rank
    requires key in overrides.entries && done <= overrides.entries.Keys && key !in done
    requires Holds(entries, all, rank, Partly(d, ToJson(overrides, objs).fields, done))
    ensures Inside(overrides.entries[key], all, overrides.rank)
    ensures Inside(overrides.entries[key], all, rank)
    ensures ValueJson(overrides.entries[key], all, rank) == ToJson(overrides, objs).fields[key]
    ensures key in entries <==> key in d
    ensures key in entries ==> Inside(entries[key], all, rank) && ValueJson(entries[key], all, rank) == d[key]
  {
    assert Inside(overrides.entries[key], objs, overrides.rank);
    MoreObjectsValue(overrides.entries[key], objs, all, overrides.rank, rank);
    MoreObjectsValue(overrides.entries[key], objs, all, overrides.rank, overrides.rank);
  }

  /** The value for one key: two dictionaries are merged into a new one, otherwise the override is taken. */
  method MergedValue(entries: map<string, Value>, key: string, value: Value, ghost all: set<Obj>,
                     ghost depth: nat, ghost rank: nat, ghost d: map<string, Json>)
    returns (v: Value, ghost more: set<Obj>)
    requires Closed(all) && Inside(value, all, depth) && depth <= rank
    requires key in entries <==> key in d
    requires key in entries ==> Inside(entries[key], all, rank) && ValueJson(entries[key], all, rank) == d[key]
    ensures all <= more && Closed(more)
    ensures Inside(value, all, rank)
    ensures Inside(v, more, rank) && ValueJson(v, more, rank) == MergedAt(d, key, ValueJson(value, all, rank))
    decreases depth, 0
  {
    if key in entries && entries[key].Ref? && value.Ref? {
      var nested;
      nested, more := MergeSettings(entries[key].obj, value.obj, all);
      v := Ref(nested);
    } else {
      v, more := value, all;
    }
  }

  /** The entries hold the merge of all overrides but the rest. */
  ghost predicate Applied(entries: map<string, Value>, overrides: Obj, objs: set<Obj>, all: set<Obj>, rank: nat,
                          d: map<string, Json>, o: map<string, Json>, rest: set<string>)
    reads objs, all
  {
    Closed(objs) && Closed(all) && objs <= all && overrides in objs && overrides.rank <= rank &&
    ToJson(overrides, objs) == Dict(o) && rest <= o.Keys && Holds(entries, all, rank, Partly(d, o, o.Keys - rest))
  }

  /** One key of the overrides that is not applied yet. */
  method MergeKey(entries: map<string, Value>, overrides: Obj, key: string, ghost objs: set<Obj>,
                  ghost all: set<Obj>, ghost rank: nat, ghost d: map<string, Json>, ghost o: map<string, Json>,
                  ghost rest: set<string>)
    returns (result: map<string, Value>, ghost more: set<Obj>)
    requires Applied(entries, overrides, objs, all, rank, d, o, rest) && key in rest
    ensures Applied(result, overrides, objs, more, rank, d, o, rest - {key})
    decreases overrides.rank, 1
  {
    ghost var done := o.Keys - rest;
    assert o.Keys - (rest - {key}) == done + {key};
    AtKey(entries, objs, all, rank, overrides, key, d, done);
    var v;
    v, more := MergedValue(entries, key, overrides.entries[key], all, overrides.rank, rank, d);
    HoldsMore(entries, all, more, rank, rank, Partly(d, o, done));
    PutValue(entries, more, rank, d, o, done, key, v);
    result := entries[key := v];
  }

  /** The copied entries, and the loop over the overrides that fills them. */
  method MergeEntries(defaults: Obj, overrides: Obj, ghost objs: set<Obj>, ghost rank: nat,
                      ghost d: map<string, Json>, ghost o: map<string, Json>)
    returns (result: map<string, Value>, ghost all: set<Obj>)
    requires Applied(defaults.entries, overrides, objs, objs, rank, d, o, overrides.entries.Keys)
    ensures Applied(result, overrides, objs, all, rank, d, o, {})
    decreases overrides.rank, 2
  {
    result, all := defaults.entries, objs;
    var rest := overrides.entries.Keys;
    while rest != {}
      invariant Applied(result, overrides, objs, all, rank, d, o, rest)
      decreases |rest|
    {
      var key :| key in rest;
      result, all := MergeKey(result, overrides, key, objs, all, rank, d, o, rest);
      rest := rest - {key};
    }
  }

  /**
   The deep merge.  No dictionary that existed before is written: the result is new,
   though it may share parts with its arguments; `all` are the objects there were and
   those made for the result.
   */
  method MergeSettings(defaults: Obj, overrides: Obj, ghost objs: set<Obj>)
    returns (result: Obj, ghost all: set<Obj>)
    requires Closed(objs) && defaults in objs && overrides in objs
    ensures fresh(result) && result in all && objs <= all && Closed(all)
    ensures result.rank == Max(defaults.rank, overrides.rank)
    ensures ToJson(result, all) == Merge(ToJson(defaults, objs), ToJson(overrides, objs))
    decreases overrides.rank, 3
  {
    ghost var d, o := ToJson(defaults, objs), ToJson(overrides, objs);
    ghost var rank := Max(defaults.rank, overrides.rank);
    PartlyAll(d, o);
    HoldsMore(defaults.entries, objs, objs, defaults.rank, rank, d.fields);
    assert o.fields.Keys - overrides.entries.Keys == {};
    var entries;
    entries, all := MergeEntries(defaults, overrides, objs, rank, d.fields, o.fields);
    assert o.fields.Keys - {} == o.fields.Keys;
    result := new Obj(entries, rank);
    AddObject(all, result, Merge(d, o).fields);
    all := all + {result};
  }
}
