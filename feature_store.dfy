/** The in-memory feature store: the ordered list of feature records read from
    `features.yml`, the lookup-or-create accessor over it, and the read-only views
    the list and info commands display. */
module FeatureStore {
  import opened Php

  /** One feature record: its `name` key and the optional `branch` and `database`
      keys (a record made by the accessor has only `name`). */
  datatype Feature = Feature(name: string, branch: Option<string>, database: Option<string>)

  /** The record the accessor appends for an unknown name. */
  function NewFeature(name: string): Feature
  {
    Feature(name, None, None)
  }

  /** The database file name a created feature is given. */
  function DatabaseFile(name: string): string
  {
    name + ".sql.gz"
  }

  predicate HasFeature(fs: seq<Feature>, name: string)
  {
    exists i :: 0 <= i < |fs| && fs[i].name == name
  }

  /** At most one record per name. The loaded file need not satisfy this; the
      operations below keep it when it holds. */
  predicate UniqueNames(fs: seq<Feature>)
  {
    forall i, j :: 0 <= i < j < |fs| ==> fs[i].name != fs[j].name
  }

  /** The index of the first record named `name`, if any. */
  function FindFirst(fs: seq<Feature>, name: string): (r: Option<nat>)
    ensures r.None? <==> !HasFeature(fs, name)
    ensures r.Some? ==> r.value < |fs| && fs[r.value].name == name
    ensures r.Some? ==> forall j :: 0 <= j < r.value ==> fs[j].name != name
  {
    if fs == [] then None
    else if fs[0].name == name then Some(0)
    else match FindFirst(fs[1..], name)
      case None => None
      case Some(i) => Some(i + 1)
  }

  /** The store after a lookup-or-create, and the index of the record handed out
      (the reference `&config()` returns). */
  datatype Handle = Handle(store: seq<Feature>, index: nat)

  /** Lookup-or-create. */
  function GetOrCreate(fs: seq<Feature>, name: string): (h: Handle)
    ensures h.index < |h.store| && h.store[h.index].name == name && HasFeature(h.store, name)
    ensures HasFeature(fs, name) ==> h.store == fs && FindFirst(fs, name) == Some(h.index)
    ensures !HasFeature(fs, name) ==> h.store == fs + [NewFeature(name)] && h.index == |fs|
    ensures UniqueNames(fs) ==> UniqueNames(h.store)
  {
    match FindFirst(fs, name)
    case Some(i) => Handle(fs, i)
    case None => Handle(fs + [NewFeature(name)], |fs|)
  }

  /** The store after `feature:create name` has filled in the record's branch and
      database: the first record named `name` (appended if there was none) becomes
      `{name, branch: name, database: name.sql.gz}`, and nothing else changes. */
  function Created(fs: seq<Feature>, name: string): (r: seq<Feature>)
    ensures FindFirst(r, name).Some?
    ensures r[FindFirst(r, name).value] == Feature(name, Some(name), Some(DatabaseFile(name)))
    ensures HasFeature(fs, name) ==> |r| == |fs| && FindFirst(r, name) == FindFirst(fs, name)
    ensures !HasFeature(fs, name) ==> |r| == |fs| + 1 && FindFirst(r, name) == Some(|fs|)
    ensures forall j :: 0 <= j < |fs| && j != FindFirst(r, name).value ==> r[j] == fs[j]
    ensures UniqueNames(fs) ==> UniqueNames(r)
  {
    var Handle(store, i) := GetOrCreate(fs, name);
    var r := store[i := store[i].(branch := Some(name), database := Some(DatabaseFile(name)))];
    assert forall j :: 0 <= j < |r| ==> r[j].name == store[j].name;
    assert FindFirst(r, name) == Some(i);
    r
  }

  /** A record's keys and values in the order the model keeps them: `name`, then
      `branch` and `database` when they are set. */
  function Fields(f: Feature): (kv: seq<(string, string)>)
    ensures |kv| >= 1 && kv[0] == ("name", f.name)
    ensures forall p :: p in kv <==>
              || p == ("name", f.name)
              || (f.branch.Some? && p == ("branch", f.branch.value))
              || (f.database.Some? && p == ("database", f.database.value))
    ensures forall i, j :: 0 <= i < j < |kv| ==> kv[i].0 != kv[j].0
  {
    [("name", f.name)]
    + (if f.branch.Some? then [("branch", f.branch.value)] else [])
    + (if f.database.Some? then [("database", f.database.value)] else [])
  }

  function Keys(f: Feature): seq<string>
  {
    var kv := Fields(f);
    seq(|kv|, i requires 0 <= i < |kv| => kv[i].0)
  }

  function Values(f: Feature): seq<string>
  {
    var kv := Fields(f);
    seq(|kv|, i requires 0 <= i < |kv| => kv[i].1)
  }

  /** The header of `feature:list`: the keys of the first record, lined up with that
      record's row. On an empty store the source calls `array_keys` on `false` and
      fails, which is `None` here. */
  function ListHeader(fs: seq<Feature>): (h: Option<seq<string>>)
    ensures h.Some? <==> fs != []
    ensures h.Some? ==> |h.value| >= 1 && h.value[0] == "name"
    ensures h.Some? ==>
              |h.value| == |ListRows(fs)[0]| &&
              forall i :: 0 <= i < |h.value| ==> h.value[i] == Fields(fs[0])[i].0
  {
    if fs == [] then None else Some(Keys(fs[0]))
  }

  /** The rows of `feature:list`: one per record, in store order, each holding that
      record's values. */
  function ListRows(fs: seq<Feature>): (rows: seq<seq<string>>)
    ensures |rows| == |fs|
    ensures forall i :: 0 <= i < |fs| ==> rows[i] == Values(fs[i]) && rows[i][0] == fs[i].name
  {
    if fs == [] then [] else [Values(fs[0])] + ListRows(fs[1..])
  }

  /** What `feature:info` shows for a branch name. */
  datatype Info = NotFound | Found(fields: seq<(string, string)>)

  function Describe(fs: seq<Feature>, name: string): (r: Info)
    ensures r.Found? <==> HasFeature(fs, name)
    ensures r.Found? ==> |r.fields| >= 1 && r.fields[0] == ("name", name)
    ensures r.Found? ==> r.fields == Fields(fs[FindFirst(fs, name).value])
  {
    match FindFirst(fs, name)
    case None => NotFound
    case Some(i) => Found(Fields(fs[i]))
  }
}
