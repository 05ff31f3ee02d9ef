/** The `/api/settings` routes: a key/value table read as one object, and a
    POST that upserts every key of its body in a single transaction. */
module SettingsRoute {
  import opened Options
  import opened Http
  import Tables
  import JsStrings

  const FetchFailed := "Failed to fetch settings"
  const UpdateFailed := "Failed to update settings"

  /** A row of the settings table; `key` is unique. */
  datatype Setting = Setting(key: string, value: string)

  /** A JSON value in the POST body. Arrays and objects are not modelled. */
  datatype BodyValue = Text(s: string) | Number(n: int) | Boolean(b: bool) | Null

  function Key(s: Setting): string { s.key }

  /** `String(value)`. */
  function Stringify(v: BodyValue): string
  {
    match v
    case Text(s) => s
    case Number(n) => JsStrings.IntString(n)
    case Boolean(b) => if b then "true" else "false"
    case Null => "null"
  }

  /** Text values are stored as they are, and numbers read back as themselves. */
  lemma StringifyValues(s: string, n: int)
    ensures Stringify(Text(s)) == s
    ensures JsStrings.ParseInt(Stringify(Number(n))) == Some(n)
  {
    JsStrings.ParseIntIntString(n);
  }

  /** The object the `reduce` builds: each row's key mapped to its value,
      later rows overriding earlier ones. */
  function AsMap(rows: seq<Setting>): (m: map<string, string>)
    ensures m.Keys == Tables.Keys(rows, Key)
  {
    if rows == [] then map[]
    else
      var init := rows[..|rows| - 1];
      var last := rows[|rows| - 1];
      assert Tables.Keys(rows, Key) == Tables.Keys(init, Key) + {last.key} by {
        assert rows == init + [last];
        Tables.KeysAppend(init, Key, last);
      }
      AsMap(init)[last.key := last.value]
  }

  /** With unique keys, the object maps every row's key to that row's value. */
  lemma {:induction false} AsMapValues(rows: seq<Setting>)
    requires Tables.UniqueKeys(rows, Key)
    ensures forall i :: 0 <= i < |rows| ==> AsMap(rows)[rows[i].key] == rows[i].value
  {
    if rows != [] {
      var init := rows[..|rows| - 1];
      AsMapValues(init);
      forall i | 0 <= i < |rows| ensures AsMap(rows)[rows[i].key] == rows[i].value {
        if i < |rows| - 1 {
          assert rows[i] == init[i];
        }
      }
    }
  }

  /** One upsert: overwrite the value of the row with that key, or append a
      new row. */
  function Upsert(rows: seq<Setting>, key: string, value: string): (r: seq<Setting>)
    ensures Tables.UniqueKeys(rows, Key) ==> Tables.UniqueKeys(r, Key)
  {
    match Tables.Find(rows, Key, key)
    case Some(i) => rows[i := Setting(key, value)]
    case None =>
      assert forall j :: 0 <= j < |rows| ==> rows[j].key != key by {
        forall j | 0 <= j < |rows| ensures rows[j].key != key {
          assert rows[j].key in Tables.Keys(rows, Key);
        }
      }
      rows + [Setting(key, value)]
  }

  /** A map with the rows' keys that agrees with every row is their object. */
  lemma {:induction false} AsMapUnique(rows: seq<Setting>, m: map<string, string>)
    requires Tables.UniqueKeys(rows, Key)
    requires m.Keys == Tables.Keys(rows, Key)
    requires forall i :: 0 <= i < |rows| ==> m[rows[i].key] == rows[i].value
    ensures m == AsMap(rows)
  {
    AsMapValues(rows);
    var a := AsMap(rows);
    forall x | x in m ensures m[x] == a[x] {
      assert x in Tables.Keys(rows, Key);
      var j :| 0 <= j < |rows| && rows[j].key == x;
    }
  }

  lemma UpsertAsMap(rows: seq<Setting>, key: string, value: string)
    requires Tables.UniqueKeys(rows, Key)
    ensures AsMap(Upsert(rows, key, value)) == AsMap(rows)[key := value]
  {
    match Tables.Find(rows, Key, key)
    case Some(i) => OverwriteAsMap(rows, i, value);
    case None => AppendAsMap(rows, key, value);
  }

  lemma OverwriteAsMap(rows: seq<Setting>, i: nat, value: string)
    requires Tables.UniqueKeys(rows, Key) && i < |rows|
    ensures AsMap(rows[i := Setting(rows[i].key, value)]) == AsMap(rows)[rows[i].key := value]
  {
    var r := rows[i := Setting(rows[i].key, value)];
    AsMapValues(rows);
    var e := AsMap(rows)[rows[i].key := value];
    assert Tables.Keys(r, Key) == Tables.Keys(rows, Key) by {
      forall x | x in Tables.Keys(rows, Key) ensures x in Tables.Keys(r, Key) {
        var j :| 0 <= j < |rows| && Key(rows[j]) == x;
        assert Key(r[j]) == x;
      }
    }
    forall j | 0 <= j < |r| ensures e[r[j].key] == r[j].value {
      if j != i {
        assert r[j] == rows[j];
      }
    }
    AsMapUnique(r, e);
  }

  lemma AppendAsMap(rows: seq<Setting>, key: string, value: string)
    requires Tables.UniqueKeys(rows, Key) && key !in Tables.Keys(rows, Key)
    ensures AsMap(rows + [Setting(key, value)]) == AsMap(rows)[key := value]
  {
    var r := rows + [Setting(key, value)];
    AsMapValues(rows);
    var e := AsMap(rows)[key := value];
    Tables.KeysAppend(rows, Key, Setting(key, value));
    forall j | 0 <= j < |r| ensures e[r[j].key] == r[j].value {
      if j < |rows| {
        assert r[j] == rows[j];
      }
    }
    AsMapUnique(r, e);
  }

  /** The upserts of a body, in `Object.entries` order. */
  function UpsertAll(rows: seq<Setting>, entries: seq<(string, BodyValue)>): (r: seq<Setting>)
    ensures Tables.UniqueKeys(rows, Key) ==> Tables.UniqueKeys(r, Key)
  {
    if entries == [] then rows
    else
      var last := entries[|entries| - 1];
      Upsert(UpsertAll(rows, entries[..|entries| - 1]), last.0, Stringify(last.1))
  }

  /** The body as an object of strings: each key to `String` of its value. */
  function BodyMap(entries: seq<(string, BodyValue)>): map<string, string>
  {
    if entries == [] then map[]
    else
      var last := entries[|entries| - 1];
      BodyMap(entries[..|entries| - 1])[last.0 := Stringify(last.1)]
  }

  /** After the upserts, every body key has `String` of its value, and every
      other key keeps its old value: the old object overridden by the body. */
  lemma {:induction false} UpsertAllAsMap(rows: seq<Setting>, entries: seq<(string, BodyValue)>)
    requires Tables.UniqueKeys(rows, Key)
    ensures AsMap(UpsertAll(rows, entries)) == AsMap(rows) + BodyMap(entries)
  {
    if entries != [] {
      var init := entries[..|entries| - 1];
      var last := entries[|entries| - 1];
      var before := UpsertAll(rows, init);
      UpsertAllAsMap(rows, init);
      UpsertAsMap(before, last.0, Stringify(last.1));
      UpdateUnion(AsMap(rows), BodyMap(init), last.0, Stringify(last.1));
    }
  }

  lemma UpdateUnion(m: map<string, string>, b: map<string, string>, k: string, v: string)
    ensures (m + b)[k := v] == m + b[k := v]
  {
  }

  /** Posting the same body twice leaves the same settings as posting it once. */
  lemma PostTwiceSameAsOnce(rows: seq<Setting>, entries: seq<(string, BodyValue)>)
    requires Tables.UniqueKeys(rows, Key)
    ensures AsMap(UpsertAll(UpsertAll(rows, entries), entries)) == AsMap(UpsertAll(rows, entries))
  {
    UpsertAllAsMap(rows, entries);
    UpsertAllAsMap(UpsertAll(rows, entries), entries);
    var m, b := AsMap(rows), BodyMap(entries);
    assert (m + b) + b == m + b;
  }

  /** The settings table (the Prisma `settings` model). */
  class SettingsTable {
    var rows: seq<Setting>

    ghost predicate Valid()
      reads this
    {
      Tables.UniqueKeys(rows, Key)
    }

    constructor(initial: seq<Setting>)
      requires Tables.UniqueKeys(initial, Key)
      ensures Valid() && rows == initial
    {
      rows := initial;
    }

    /** GET `/`: `findMany` then the `reduce` into one object. */
    method Snapshot() returns (m: map<string, string>)
      requires Valid()
      ensures m == AsMap(rows)
      ensures forall i :: 0 <= i < |rows| ==> rows[i].key in m && m[rows[i].key] == rows[i].value
      ensures forall k :: k in m ==> exists i :: 0 <= i < |rows| && rows[i].key == k
    {
      m := map[];
      var i := 0;
      while i < |rows|
        invariant 0 <= i <= |rows|
        invariant m == AsMap(rows[..i])
      {
        assert rows[..i + 1][..i] == rows[..i];
        m := m[rows[i].key := rows[i].value];
        i := i + 1;
      }
      assert rows[..|rows|] == rows;
      AsMapValues(rows);
    }

    /** GET `/` as a response: the whole object, or 500 when the store
        cannot be read (`available` is false). */
    method Get(available: bool) returns (r: Response<map<string, string>>)
      requires Valid()
      ensures available ==> r == Ok(AsMap(rows))
      ensures !available ==> r == Fail(ServerError, FetchFailed)
    {
      if !available {
        return Fail(ServerError, FetchFailed);
      }
      var m := Snapshot();
      r := Ok(m);
    }

    /** POST `/`: all the upserts in one transaction, then the whole table
        read back. `commits` is whether the store accepts the transaction;
        when it does not, no upsert takes effect. */
    method Post(entries: seq<(string, BodyValue)>, commits: bool) returns (r: Response<map<string, string>>)
      requires Valid()
      modifies this
      ensures Valid()
      ensures !commits ==> rows == old(rows) && r == Fail(ServerError, UpdateFailed)
      ensures commits ==> rows == UpsertAll(old(rows), entries) && r == Ok(AsMap(rows))
      ensures commits ==> AsMap(rows) == AsMap(old(rows)) + BodyMap(entries)
    {
      var staged := rows;
      var i := 0;
      while i < |entries|
        invariant 0 <= i <= |entries|
        invariant staged == UpsertAll(rows, entries[..i])
      {
        assert entries[..i + 1][..i] == entries[..i];
        staged := Upsert(staged, entries[i].0, Stringify(entries[i].1));
        i := i + 1;
      }
      assert entries[..|entries|] == entries;
      if !commits {
        return Fail(ServerError, UpdateFailed);
      }
      UpsertAllAsMap(rows, entries);
      rows := staged;
      var m := Snapshot();
      r := Ok(m);
    }
  }
}
