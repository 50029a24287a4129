// seoman/utils/export_utils.py: flattening fetched data into path-named
// cells, turning the cell names into column headers, and cutting the cells
// into table rows.

module ExportUtils {
  import opened Wrappers
  import opened Strings
  import opened Json

  // ---------------------------------------------------------------------
  // The OrderedDict that `_flatten` fills
  // ---------------------------------------------------------------------

  /** Where `key` first occurs. */
  function IndexOf(entries: seq<Field>, key: string): (i: nat)
    requires key in KeysOf(entries)
    ensures i < |entries| && entries[i].key == key
    ensures forall j :: 0 <= j < i ==> entries[j].key != key
    decreases |entries|
  {
    if entries[0].key == key then 0
    else
      assert key in KeysOf(entries[1..]) by {
        var j :| 0 <= j < |entries| && entries[j].key == key;
        assert entries[1..][j - 1] == entries[j];
      }
      1 + IndexOf(entries[1..], key)
  }

  /** `obj[key] = value` on an OrderedDict: a new key goes at the end, an
      existing key keeps its place and takes the new value. */
  function Put(entries: seq<Field>, key: string, value: Json): (r: seq<Field>)
    ensures KeysOf(r) == KeysOf(entries) + {key}
    ensures key !in KeysOf(entries) ==> r == entries + [Field(key, value)]
    ensures key in KeysOf(entries) ==> (|r| == |entries|
      && (forall j :: 0 <= j < |r| ==> r[j].key == entries[j].key)
      && (forall j :: 0 <= j < |r| && r[j] != entries[j] ==> r[j] == Field(key, value)))
  {
    var f := Field(key, value);
    if key in KeysOf(entries) then
      var r := entries[IndexOf(entries, key) := f];
      assert KeysOf(r) == KeysOf(entries) by {
        assert forall j :: 0 <= j < |r| ==> r[j].key == entries[j].key;
      }
      r
    else
      var r := entries + [f];
      assert KeysOf(r) == KeysOf(entries) + {key} by {
        assert forall j :: 0 <= j < |entries| ==> r[j] == entries[j];
        assert r[|entries|] == f;
      }
      r
  }

  /** After `obj[key] = value`, `obj.get(key)` is `value` and every other key
      keeps its value. */
  lemma PutGet(entries: seq<Field>, key: string, value: Json)
    ensures Get(Put(entries, key, value), key) == Some(value)
    ensures forall k :: k != key ==> Get(Put(entries, key, value), k) == Get(entries, k)
  {
    var r := Put(entries, key, value);
    var f := Field(key, value);
    if key in KeysOf(entries) {
      var i := IndexOf(entries, key);
      assert r == entries[i := f];
      GetAt(r, i, key);
      forall k | k != key ensures Get(r, k) == Get(entries, k) {
        GetAlike(r, entries, k);
      }
    } else {
      GetAt(r, |entries|, key);
      forall k | k != key ensures Get(r, k) == Get(entries, k) {
        GetAppendOther(entries, f, k);
      }
    }
  }

  /** `obj[key] = value` never makes a second entry for a key. */
  lemma PutDistinct(entries: seq<Field>, key: string, value: Json)
    requires DistinctKeys(entries)
    ensures DistinctKeys(Put(entries, key, value))
  {
    var r := Put(entries, key, value);
    if key in KeysOf(entries) {
      var i := IndexOf(entries, key);
      assert r == entries[i := Field(key, value)];
      assert forall j :: 0 <= j < |r| ==> r[j].key == entries[j].key;
    } else {
      forall i, j | 0 <= i < j < |r| ensures r[i].key != r[j].key {
        if j == |entries| {
          assert entries[i].key in KeysOf(entries);
        }
      }
    }
  }

  /** The OrderedDict after a sequence of writes, in order. */
  function PutAll(entries: seq<Field>, writes: seq<Field>): seq<Field>
    decreases |writes|
  {
    if |writes| == 0 then entries else PutAll(Put(entries, writes[0].key, writes[0].value), writes[1..])
  }

  lemma {:induction false} PutAllAppend(entries: seq<Field>, a: seq<Field>, b: seq<Field>)
    ensures PutAll(entries, a + b) == PutAll(PutAll(entries, a), b)
    decreases |a|
  {
    if |a| == 0 {
      assert a + b == b;
    } else {
      assert (a + b)[1..] == a[1..] + b;
      PutAllAppend(Put(entries, a[0].key, a[0].value), a[1..], b);
    }
  }

  /** Writes to keys that are all new and distinct are kept one by one, in order. */
  lemma {:induction false} PutAllDistinct(entries: seq<Field>, writes: seq<Field>)
    requires DistinctKeys(writes)
    requires forall i :: 0 <= i < |writes| ==> writes[i].key !in KeysOf(entries)
    ensures PutAll(entries, writes) == entries + writes
    decreases |writes|
  {
    if |writes| > 0 {
      var next := Put(entries, writes[0].key, writes[0].value);
      assert next == entries + [writes[0]];
      var rest := writes[1..];
      KeysOfSnoc(entries, writes[0]);
      forall i | 0 <= i < |rest| ensures rest[i].key !in KeysOf(next) {
        assert rest[i] == writes[i + 1];
      }
      PutAllDistinct(next, rest);
      calc {
        PutAll(entries, writes);
        PutAll(next, rest);
        (entries + [writes[0]]) + rest;
        { assert (entries + [writes[0]]) + rest == entries + ([writes[0]] + rest); }
        entries + ([writes[0]] + rest);
        { assert [writes[0]] + rest == writes; }
        entries + writes;
      }
    }
  }

  /** Later writes never move a key that is already there. */
  lemma {:induction false} PutAllKeepsPlaces(entries: seq<Field>, writes: seq<Field>)
    ensures var r := PutAll(entries, writes);
      |entries| <= |r| && forall j :: 0 <= j < |entries| ==> r[j].key == entries[j].key
    decreases |writes|
  {
    if |writes| > 0 {
      var next := Put(entries, writes[0].key, writes[0].value);
      if writes[0].key !in KeysOf(entries) {
        assert forall j :: 0 <= j < |entries| ==> next[j] == entries[j];
      }
      PutAllKeepsPlaces(next, writes[1..]);
    }
  }

  /** A run of writes never makes a second entry for a key. */
  lemma {:induction false} PutAllKeepsDistinct(entries: seq<Field>, writes: seq<Field>)
    requires DistinctKeys(entries)
    ensures DistinctKeys(PutAll(entries, writes))
    decreases |writes|
  {
    if |writes| > 0 {
      PutDistinct(entries, writes[0].key, writes[0].value);
      PutAllKeepsDistinct(Put(entries, writes[0].key, writes[0].value), writes[1..]);
    }
  }

  /** Writes to other keys leave a key's value alone. */
  lemma {:induction false} PutAllOther(entries: seq<Field>, writes: seq<Field>, key: string)
    requires forall j :: 0 <= j < |writes| ==> writes[j].key != key
    ensures Get(PutAll(entries, writes), key) == Get(entries, key)
    decreases |writes|
  {
    if |writes| > 0 {
      PutGet(entries, writes[0].key, writes[0].value);
      assert forall j :: 0 <= j < |writes[1..]| ==> writes[1..][j].key != key by {
        forall j | 0 <= j < |writes[1..]| ensures writes[1..][j].key != key {
          assert writes[1..][j] == writes[j + 1];
        }
      }
      PutAllOther(Put(entries, writes[0].key, writes[0].value), writes[1..], key);
    }
  }

  /** A key holds the value of the last write to it. */
  lemma {:induction false} PutAllLast(entries: seq<Field>, writes: seq<Field>, i: nat)
    requires i < |writes|
    requires forall j :: i < j < |writes| ==> writes[j].key != writes[i].key
    ensures Get(PutAll(entries, writes), writes[i].key) == Some(writes[i].value)
    decreases i
  {
    var next := Put(entries, writes[0].key, writes[0].value);
    if i == 0 {
      PutGet(entries, writes[0].key, writes[0].value);
      assert forall j :: 0 <= j < |writes[1..]| ==> writes[1..][j].key != writes[0].key by {
        forall j | 0 <= j < |writes[1..]| ensures writes[1..][j].key != writes[0].key {
          assert writes[1..][j] == writes[j + 1];
        }
      }
      PutAllOther(next, writes[1..], writes[0].key);
    } else {
      assert writes[1..][i - 1] == writes[i];
      assert forall j :: i - 1 < j < |writes[1..]| ==> writes[1..][j].key != writes[i].key by {
        forall j | i - 1 < j < |writes[1..]| ensures writes[1..][j].key != writes[i].key {
          assert writes[1..][j] == writes[j + 1];
        }
      }
      PutAllLast(next, writes[1..], i - 1);
    }
  }

  /** The OrderedDict of `_flatten`, filled by `recurse`. */
  class OrderedDict {
    var entries: seq<Field>

    constructor ()
      ensures entries == []
    {
      entries := [];
    }

    method Set(key: string, value: Json)
      modifies this
      ensures entries == Put(old(entries), key, value)
    {
      entries := Put(entries, key, value);
    }
  }

  // ---------------------------------------------------------------------
  // `_flatten`
  // ---------------------------------------------------------------------

  /** A scalar reached by `recurse`, with the list positions and dict keys
      that lead to it. */
  datatype PathLeaf = PathLeaf(path: seq<string>, value: Json)

  /** The scalars of `temp` in the order `recurse` reaches them: lists by
      position, dicts in insertion order, depth first. */
  function Leaves(temp: Json, path: seq<string>): (r: seq<PathLeaf>)
    ensures forall i :: 0 <= i < |r| ==> r[i].value.Leaf? && path <= r[i].path
    decreases temp, 1
  {
    match temp
    case Leaf(_) => [PathLeaf(path, temp)]
    case Arr(items) => ItemLeaves(temp, items, 0, path)
    case Obj(fields) => FieldLeaves(temp, fields, path)
  }

  function ItemLeaves(temp: Json, items: seq<Json>, start: nat, path: seq<string>): (r: seq<PathLeaf>)
    requires forall i :: 0 <= i < |items| ==> items[i] < temp
    ensures forall i :: 0 <= i < |r| ==> r[i].value.Leaf? && path <= r[i].path
    decreases temp, 0, |items|
  {
    if |items| == 0 then []
    else
      var here := Leaves(items[0], path + [DecimalString(start)]);
      assert forall i :: 0 <= i < |here| ==> path <= here[i].path by {
        forall i | 0 <= i < |here| ensures path <= here[i].path {
          assert path <= path + [DecimalString(start)];
        }
      }
      here + ItemLeaves(temp, items[1..], start + 1, path)
  }

  function FieldLeaves(temp: Json, fields: seq<Field>, path: seq<string>): (r: seq<PathLeaf>)
    requires forall i :: 0 <= i < |fields| ==> fields[i].value < temp
    ensures forall i :: 0 <= i < |r| ==> r[i].value.Leaf? && path <= r[i].path
    decreases temp, 0, |fields|
  {
    if |fields| == 0 then []
    else
      var here := Leaves(fields[0].value, path + [fields[0].key]);
      assert forall i :: 0 <= i < |here| ==> path <= here[i].path by {
        forall i | 0 <= i < |here| ensures path <= here[i].path {
          assert path <= path + [fields[0].key];
        }
      }
      here + FieldLeaves(temp, fields[1..], path)
  }

  /** `parent_key + sep + key if parent_key else key`. */
  function Child(parent: string, segment: string, sep: string): string
  {
    if parent != "" then parent + sep + segment else segment
  }

  /** The key `recurse` builds for a path, one segment at a time. */
  function KeyOf(path: seq<string>, sep: string): string
    decreases |path|
  {
    if |path| == 0 then "" else Child(KeyOf(path[..|path| - 1], sep), path[|path| - 1], sep)
  }

  /** The writes `recurse` makes for a list of scalars. */
  function Keyed(leaves: seq<PathLeaf>, sep: string): (r: seq<Field>)
    ensures |r| == |leaves|
    ensures forall i :: 0 <= i < |r| ==> r[i] == Field(KeyOf(leaves[i].path, sep), leaves[i].value)
  {
    seq(|leaves|, i requires 0 <= i < |leaves| => Field(KeyOf(leaves[i].path, sep), leaves[i].value))
  }

  lemma KeyedAppend(a: seq<PathLeaf>, b: seq<PathLeaf>, sep: string)
    ensures Keyed(a + b, sep) == Keyed(a, sep) + Keyed(b, sep)
  {
  }

  /** `recurse(temp, parent_key)`: `path` is the ghost path whose key is
      `parentKey`. */
  method Recurse(obj: OrderedDict, temp: Json, parentKey: string, sep: string, ghost path: seq<string>)
    requires parentKey == KeyOf(path, sep)
    modifies obj
    ensures obj.entries == PutAll(old(obj.entries), Keyed(Leaves(temp, path), sep))
    decreases temp
  {
    match temp
    case Arr(items) =>
      for i := 0 to |items|
        invariant PutAll(obj.entries, Keyed(ItemLeaves(temp, items[i..], i, path), sep)) ==
          PutAll(old(obj.entries), Keyed(Leaves(temp, path), sep))
      {
        var segment := DecimalString(i);
        ItemStep(obj.entries, temp, items, i, path, sep);
        ChildKey(path, segment, sep);
        Recurse(obj, items[i], Child(parentKey, segment, sep), sep, path + [segment]);
      }
      assert items[|items|..] == [];
    case Obj(fields) =>
      for i := 0 to |fields|
        invariant PutAll(obj.entries, Keyed(FieldLeaves(temp, fields[i..], path), sep)) ==
          PutAll(old(obj.entries), Keyed(Leaves(temp, path), sep))
      {
        var key := fields[i].key;
        FieldStep(obj.entries, temp, fields, i, path, sep);
        ChildKey(path, key, sep);
        Recurse(obj, fields[i].value, Child(parentKey, key, sep), sep, path + [key]);
      }
      assert fields[|fields|..] == [];
    case Leaf(_) =>
      obj.Set(parentKey, temp);
  }

  /** Writing the leaves of the items from position `i` on is writing those
      of item `i`, then those of the items after it. */
  lemma ItemStep(entries: seq<Field>, temp: Json, items: seq<Json>, i: nat, path: seq<string>, sep: string)
    requires temp == Arr(items) && i < |items|
    ensures PutAll(entries, Keyed(ItemLeaves(temp, items[i..], i, path), sep)) ==
      PutAll(PutAll(entries, Keyed(Leaves(items[i], path + [DecimalString(i)]), sep)),
             Keyed(ItemLeaves(temp, items[i + 1..], i + 1, path), sep))
  {
    assert items[i..][1..] == items[i + 1..];
    var here := Leaves(items[i], path + [DecimalString(i)]);
    var rest := ItemLeaves(temp, items[i + 1..], i + 1, path);
    assert ItemLeaves(temp, items[i..], i, path) == here + rest;
    KeyedAppend(here, rest, sep);
    PutAllAppend(entries, Keyed(here, sep), Keyed(rest, sep));
  }

  /** The same for the fields of a dict. */
  lemma FieldStep(entries: seq<Field>, temp: Json, fields: seq<Field>, i: nat, path: seq<string>, sep: string)
    requires temp == Obj(fields) && i < |fields|
    ensures PutAll(entries, Keyed(FieldLeaves(temp, fields[i..], path), sep)) ==
      PutAll(PutAll(entries, Keyed(Leaves(fields[i].value, path + [fields[i].key]), sep)),
             Keyed(FieldLeaves(temp, fields[i + 1..], path), sep))
  {
    assert fields[i..][1..] == fields[i + 1..];
    var here := Leaves(fields[i].value, path + [fields[i].key]);
    var rest := FieldLeaves(temp, fields[i + 1..], path);
    assert FieldLeaves(temp, fields[i..], path) == here + rest;
    KeyedAppend(here, rest, sep);
    PutAllAppend(entries, Keyed(here, sep), Keyed(rest, sep));
  }

  /** The key `recurse` passes down for a child is the key of its path. */
  lemma ChildKey(path: seq<string>, segment: string, sep: string)
    ensures KeyOf(path + [segment], sep) == Child(KeyOf(path, sep), segment, sep)
  {
    assert (path + [segment])[..|path|] == path;
  }

  /** `_flatten(data, sep)`. */
  method Flatten(data: Json, sep: string) returns (r: seq<Field>)
    ensures r == PutAll([], Keyed(Leaves(data, []), sep))
  {
    var obj := new OrderedDict();
    Recurse(obj, data, "", sep, []);
    r := obj.entries;
  }

  /** `sep.join(path)`, which is the key `recurse` builds whenever the first
      segment is not empty (an empty parent key drops the separator). */
  lemma {:induction false} KeyIsJoinedPath(path: seq<string>, sep: string)
    requires |path| > 0 && path[0] != ""
    ensures KeyOf(path, sep) == Join(path, sep)
    decreases |path|
  {
    if |path| > 1 {
      var front := path[..|path| - 1];
      assert front[0] == path[0];
      KeyIsJoinedPath(front, sep);
      JoinSnoc(front, path[|path| - 1], sep);
      assert front + [path[|path| - 1]] == path;
      assert Join(front, sep) != "" by { JoinStartsWith(front, sep); }
    }
  }

  lemma {:induction false} JoinStartsWith(parts: seq<string>, sep: string)
    requires |parts| > 0
    ensures StartsWith(Join(parts, sep), parts[0])
    decreases |parts|
  {
    if |parts| > 1 {
      assert Join(parts, sep) == parts[0] + (sep + Join(parts[1..], sep));
    }
  }

  lemma {:induction false} JoinSnoc(parts: seq<string>, last: string, sep: string)
    requires |parts| > 0
    ensures Join(parts + [last], sep) == Join(parts, sep) + sep + last
    decreases |parts|
  {
    var whole := parts + [last];
    assert whole[0] == parts[0];
    if |parts| == 1 {
      assert whole[1..] == [last];
    } else {
      assert whole[1..] == parts[1..] + [last];
      JoinSnoc(parts[1..], last, sep);
    }
  }

  /** When no two scalars share a key, `_flatten` has exactly one entry per
      scalar, in the order `recurse` reaches them. */
  lemma FlattenOnePerLeaf(data: Json, sep: string)
    requires DistinctKeys(Keyed(Leaves(data, []), sep))
    ensures PutAll([], Keyed(Leaves(data, []), sep)) == Keyed(Leaves(data, []), sep)
  {
    PutAllDistinct([], Keyed(Leaves(data, []), sep));
  }

  /** Scalars whose paths build the same key share one entry, which holds
      the value of the last of them. */
  lemma FlattenLastValue(data: Json, sep: string, i: nat)
    requires var w := Keyed(Leaves(data, []), sep);
      i < |w| && forall j :: i < j < |w| ==> w[j].key != w[i].key
    ensures var w := Keyed(Leaves(data, []), sep);
      var r := PutAll([], w);
      && DistinctKeys(r)
      && Get(r, w[i].key) == Some(w[i].value)
  {
    var w := Keyed(Leaves(data, []), sep);
    PutAllKeepsDistinct([], w);
    PutAllLast([], w, i);
  }

  /** An instance: {"a_b": 1, "a": {"b": 2}} flattens to the single entry
      a_b = 2, in the place of the first "a_b" with the value of the last. */
  lemma FlattenCollision()
    ensures var data := Obj([Field("a_b", Int(1)), Field("a", Obj([Field("b", Int(2))]))]);
      PutAll([], Keyed(Leaves(data, []), "_")) == [Field("a_b", Int(2))]
  {
    var data := Obj([Field("a_b", Int(1)), Field("a", Obj([Field("b", Int(2))]))]);
    CollisionLeaves();
    CollisionKeys();
    var writes := [Field("a_b", Int(1)), Field("a_b", Int(2))];
    assert Keyed(Leaves(data, []), "_") == writes;
    CollisionWrites();
  }

  lemma CollisionLeaves()
    ensures Leaves(Obj([Field("a_b", Int(1)), Field("a", Obj([Field("b", Int(2))]))]), []) ==
      [PathLeaf(["a_b"], Int(1)), PathLeaf(["a", "b"], Int(2))]
  {
    var inner := Obj([Field("b", Int(2))]);
    var data := Obj([Field("a_b", Int(1)), Field("a", inner)]);
    assert Leaves(inner, ["a"]) == [PathLeaf(["a", "b"], Int(2))] by {
      var fs := [Field("b", Int(2))];
      assert fs[1..] == [];
      assert ["a"] + ["b"] == ["a", "b"];
      assert FieldLeaves(inner, fs, ["a"]) == Leaves(Int(2), ["a", "b"]) + FieldLeaves(inner, fs[1..], ["a"]);
    }
    var fs := [Field("a_b", Int(1)), Field("a", inner)];
    assert fs[1..] == [Field("a", inner)];
    assert fs[1..][1..] == [];
    assert [] + ["a_b"] == ["a_b"];
    assert [] + ["a"] == ["a"];
    assert FieldLeaves(data, fs[1..], []) == Leaves(inner, ["a"]) + FieldLeaves(data, fs[1..][1..], []);
    assert FieldLeaves(data, fs, []) == Leaves(Int(1), ["a_b"]) + FieldLeaves(data, fs[1..], []);
  }

  lemma CollisionKeys()
    ensures KeyOf(["a", "b"], "_") == "a_b" && KeyOf(["a_b"], "_") == "a_b"
  {
    assert ["a", "b"][..1] == ["a"];
    assert ["a"][..0] == [];
    assert ["a_b"][..0] == [];
  }

  lemma CollisionWrites()
    ensures PutAll([], [Field("a_b", Int(1)), Field("a_b", Int(2))]) == [Field("a_b", Int(2))]
  {
    var writes := [Field("a_b", Int(1)), Field("a_b", Int(2))];
    var once := Put([], "a_b", Int(1));
    assert once == [Field("a_b", Int(1))];
    assert once[0].key == "a_b";
    assert "a_b" in KeysOf(once) && IndexOf(once, "a_b") == 0;
    var twice := Put(once, "a_b", Int(2));
    assert twice == [Field("a_b", Int(2))];
    assert writes[1..] == [Field("a_b", Int(2))] && writes[1..][1..] == [];
    assert PutAll([], writes) == PutAll(once, writes[1..]);
    assert PutAll(once, writes[1..]) == PutAll(twice, []);
  }

  // ---------------------------------------------------------------------
  // `_split_to_kv`
  // ---------------------------------------------------------------------

  /** Whether `_split_to_kv` takes the flattened data for sites or sitemaps. */
  predicate IsSiteData(entries: seq<Field>)
  {
    var keys := KeysOf(entries);
    "path" in keys || "permissionLevel" in keys || "sitemap_0_path" in keys
  }

  /** The header of a sites or sitemaps cell. */
  function SiteHeader(key: string): (r: Result<string>)
    ensures r.Raised? ==> r.failure == IndexError
    ensures '_' !in key ==> r == Ok(key)
    ensures '_' in key && SplitOn(key, '_')[0] != "sitemap" ==>
      (|SplitOn(key, '_')| < 3 <==> r == Raised(IndexError))
    ensures var parts := SplitOn(key, '_');
      '_' in key && parts[0] == "sitemap" ==>
        && (|parts| < 3 || |parts| == 4 <==> r == Raised(IndexError))
        && (|parts| == 3 ==> r == Ok(parts[2]))
        && (|parts| >= 5 ==> r == Ok(parts[2] + " " + (if parts[4] != "0" then parts[4] else "") + " " + parts[3]))
  {
    if '_' !in key then Ok(key)
    else
      var parts := SplitOn(key, '_');
      if parts[0] == "sitemap" then
        if |parts| >= 4 then
          if |parts| < 5 then Raised(IndexError)
          else
            Join3(parts[2], if parts[4] != "0" then parts[4] else "", parts[3], " ");
            Ok(Join([parts[2], if parts[4] != "0" then parts[4] else "", parts[3]], " "))
        else if |parts| < 3 then Raised(IndexError)
        else Ok(parts[2])
      else if |parts| < 3 then Raised(IndexError)
      else Ok(Join([parts[0], parts[2], parts[1]], " "))
  }

  /** A sites key "a_b_c…" names the column "a c b". */
  lemma SiteHeaderOfSegments(parts: seq<string>)
    requires |parts| >= 3 && parts[0] != "sitemap"
    requires forall i :: 0 <= i < |parts| ==> '_' !in parts[i]
    ensures SiteHeader(Join(parts, "_")) == Ok(parts[0] + " " + parts[2] + " " + parts[1])
  {
    var key := Join(parts, "_");
    SplitJoin(parts, '_');
    assert SplitOn(key, '_') == parts;
    assert '_' in key by {
      assert Join(parts, "_") == parts[0] + "_" + Join(parts[1..], "_");
      assert key[|parts[0]|] == '_';
    }
    Join3(parts[0], parts[2], parts[1], " ");
  }

  lemma Join3(a: string, b: string, c: string, sep: string)
    ensures Join([a, b, c], sep) == a + sep + b + sep + c
  {
    var parts := [a, b, c];
    assert parts[1..] == [b, c] && parts[1..][1..] == [c];
    assert Join([b, c], sep) == b + sep + c;
  }

  /** The header of a Search Analytics cell, or `None` for the skipped
      "responseAggregationType" cells: "keys" and the last segment when the
      segment before the last is "keys", else the last segment. */
  function ReportHeader(key: string): (r: Option<string>)
    ensures var parts := SplitOn(key, '_');
      && (r.None? <==> parts[0] == "responseAggregationType")
      && (r.Some? && |parts| >= 2 && parts[|parts| - 2] == "keys" ==> r.value == "keys" + parts[|parts| - 1])
      && (r.Some? && !(|parts| >= 2 && parts[|parts| - 2] == "keys") ==> r.value == parts[|parts| - 1])
  {
    var parts := SplitOn(key, '_');
    if parts[0] == "responseAggregationType" then None
    else if |parts| >= 2 && parts[|parts| - 2] == "keys" then Some("keys" + parts[|parts| - 1])
    else Some(parts[|parts| - 1])
  }

  /** A Search Analytics key such as "rows_0_keys_1" names the column
      "keys1", and one such as "rows_0_clicks" the column "clicks". */
  lemma ReportHeaderOfSegments(parts: seq<string>)
    requires |parts| >= 2 && parts[0] != "responseAggregationType"
    requires forall i :: 0 <= i < |parts| ==> '_' !in parts[i]
    ensures ReportHeader(Join(parts, "_")) ==
      Some(if parts[|parts| - 2] == "keys" then "keys" + parts[|parts| - 1] else parts[|parts| - 1])
  {
    var key := Join(parts, "_");
    SplitJoin(parts, '_');
    assert SplitOn(key, '_') == parts;
    var r := ReportHeader(key);
    assert r.Some?;
    if parts[|parts| - 2] == "keys" {
      assert r.value == "keys" + parts[|parts| - 1];
    } else {
      assert r.value == parts[|parts| - 1];
    }
  }

  /** The header and value lists after `_split_to_kv` has handled `cells`
      (or the exception that stopped it, with what it had added before). */
  datatype Columns = Columns(keys: seq<string>, values: seq<Json>, failure: Option<Failure>)

  /** A header is added when it is new; the value always is. */
  function AddCell(keys: seq<string>, values: seq<Json>, header: string, value: Json): Columns
  {
    Columns(if header in keys then keys else keys + [header], values + [value], None)
  }

  /** What `_split_to_kv` makes of a sites or sitemaps key: its header or
      the exception. */
  function SiteCell(key: string): Result<Option<string>>
  {
    match SiteHeader(key)
    case Raised(f) => Raised(f)
    case Ok(h) => Ok(Some(h))
  }

  /** What `_split_to_kv` makes of a report key: its header, or `None` when
      the cell is skipped. */
  function ReportCell(key: string): Result<Option<string>>
  {
    Ok(ReportHeader(key))
  }

  /** The `for key, value in data.items()` loop of `_split_to_kv` with the
      renaming `header`: a skipped cell adds nothing, a renamed one adds its
      header when new and its value always, and an exception stops the loop
      with what was added before it. */
  function SplitWith(keys: seq<string>, values: seq<Json>, cells: seq<Field>,
                     header: string -> Result<Option<string>>): Columns
    decreases |cells|
  {
    if |cells| == 0 then Columns(keys, values, None)
    else
      match header(cells[0].key)
      case Raised(f) => Columns(keys, values, Some(f))
      case Ok(None) => SplitWith(keys, values, cells[1..], header)
      case Ok(Some(h)) =>
        var next := AddCell(keys, values, h, cells[0].value);
        SplitWith(next.keys, next.values, cells[1..], header)
  }

  function SplitCells(keys: seq<string>, values: seq<Json>, cells: seq<Field>, sites: bool): Columns
  {
    SplitWith(keys, values, cells, if sites then SiteCell else ReportCell)
  }

  /** The values of the cells that `header` renames, in order. */
  function KeptWith(cells: seq<Field>, header: string -> Result<Option<string>>): seq<Json>
    decreases |cells|
  {
    if |cells| == 0 then []
    else
      var here := if header(cells[0].key).Ok? && header(cells[0].key).value.Some? then [cells[0].value] else [];
      here + KeptWith(cells[1..], header)
  }

  /** Whatever the renaming, a loop that ends without an exception has
      appended the values of the renamed cells, in order. */
  lemma {:induction false} SplitWithValues(keys: seq<string>, values: seq<Json>, cells: seq<Field>,
                                           header: string -> Result<Option<string>>)
    ensures var c := SplitWith(keys, values, cells, header);
      c.failure.None? ==> c.values == values + KeptWith(cells, header)
    decreases |cells|
  {
    if |cells| > 0 {
      match header(cells[0].key)
      case Raised(f) =>
      case Ok(None) =>
        SplitWithValues(keys, values, cells[1..], header);
      case Ok(Some(h)) =>
        var next := AddCell(keys, values, h, cells[0].value);
        SplitWithValues(next.keys, next.values, cells[1..], header);
        var rest := KeptWith(cells[1..], header);
        assert KeptWith(cells, header) == [cells[0].value] + rest;
        assert next.values + rest == values + ([cells[0].value] + rest);
    }
  }

  /** A loop that ends without an exception renamed or skipped every cell. */
  lemma {:induction false} SplitWithOk(keys: seq<string>, values: seq<Json>, cells: seq<Field>,
                                       header: string -> Result<Option<string>>)
    ensures SplitWith(keys, values, cells, header).failure.None? ==>
      forall i :: 0 <= i < |cells| ==> header(cells[i].key).Ok?
    decreases |cells|
  {
    if |cells| > 0 {
      assert forall i :: 0 <= i < |cells[1..]| ==> cells[1..][i] == cells[i + 1];
      match header(cells[0].key)
      case Raised(f) =>
      case Ok(None) =>
        SplitWithOk(keys, values, cells[1..], header);
      case Ok(Some(h)) =>
        var next := AddCell(keys, values, h, cells[0].value);
        SplitWithOk(next.keys, next.values, cells[1..], header);
    }
  }

  /** When every cell is renamed, every value is kept. */
  lemma {:induction false} KeptWithAll(cells: seq<Field>, header: string -> Result<Option<string>>)
    requires forall i :: 0 <= i < |cells| ==> header(cells[i].key).Ok? && header(cells[i].key).value.Some?
    ensures KeptWith(cells, header) == CellValues(cells)
    decreases |cells|
  {
    if |cells| > 0 {
      assert forall i :: 0 <= i < |cells[1..]| ==> cells[1..][i] == cells[i + 1];
      KeptWithAll(cells[1..], header);
      assert CellValues(cells) == [cells[0].value] + CellValues(cells[1..]);
    }
  }

  /** The values of the cells of a report that are not skipped, in order. */
  function KeptValues(cells: seq<Field>): seq<Json>
  {
    KeptWith(cells, ReportCell)
  }

  /** The values of all cells, in order. */
  function CellValues(cells: seq<Field>): (r: seq<Json>)
    ensures |r| == |cells| && forall i :: 0 <= i < |cells| ==> r[i] == cells[i].value
  {
    seq(|cells|, i requires 0 <= i < |cells| => cells[i].value)
  }

  /** For a report: nothing fails, headers stay free of duplicates and only
      grow, and the values of the cells that are not skipped are appended
      in order. */
  lemma {:induction false} ReportColumns(keys: seq<string>, values: seq<Json>, cells: seq<Field>)
    requires NoDuplicates(keys)
    ensures var c := SplitCells(keys, values, cells, false);
      && c.failure.None?
      && NoDuplicates(c.keys) && keys <= c.keys
      && c.values == values + KeptValues(cells)
    decreases |cells|
  {
    if |cells| > 0 {
      match ReportHeader(cells[0].key)
      case None =>
        ReportColumns(keys, values, cells[1..]);
      case Some(h) =>
        var next := AddCell(keys, values, h, cells[0].value);
        ReportColumns(next.keys, next.values, cells[1..]);
    }
    SplitWithValues(keys, values, cells, ReportCell);
  }

  /** For a report: the header of every cell that is not skipped is among
      the headers. */
  lemma {:induction false} ReportHeadersCovered(keys: seq<string>, values: seq<Json>, cells: seq<Field>)
    ensures var c := SplitCells(keys, values, cells, false);
      forall i :: 0 <= i < |cells| && ReportHeader(cells[i].key).Some? ==> ReportHeader(cells[i].key).value in c.keys
    decreases |cells|
  {
    if |cells| > 0 {
      var next := match ReportHeader(cells[0].key)
        case None => Columns(keys, values, None)
        case Some(h) => AddCell(keys, values, h, cells[0].value);
      assert SplitCells(keys, values, cells, false) == SplitCells(next.keys, next.values, cells[1..], false);
      var c := SplitCells(next.keys, next.values, cells[1..], false);
      ReportHeadersCovered(next.keys, next.values, cells[1..]);
      ReportKeysKept(next.keys, next.values, cells[1..]);
      forall i | 0 <= i < |cells| && ReportHeader(cells[i].key).Some?
        ensures ReportHeader(cells[i].key).value in c.keys
      {
        if i == 0 {
          assert ReportHeader(cells[0].key).value in next.keys;
        } else {
          assert cells[i] == cells[1..][i - 1];
        }
      }
    }
  }

  /** For a report: every header is an old one or the header of a cell. */
  lemma {:induction false} ReportHeadersFrom(keys: seq<string>, values: seq<Json>, cells: seq<Field>)
    ensures var c := SplitCells(keys, values, cells, false);
      forall h :: h in c.keys ==> h in keys || exists i :: 0 <= i < |cells| && ReportHeader(cells[i].key) == Some(h)
    decreases |cells|
  {
    if |cells| > 0 {
      var next := match ReportHeader(cells[0].key)
        case None => Columns(keys, values, None)
        case Some(h) => AddCell(keys, values, h, cells[0].value);
      var c := SplitCells(next.keys, next.values, cells[1..], false);
      assert SplitCells(keys, values, cells, false) == c;
      ReportHeadersFrom(next.keys, next.values, cells[1..]);
      forall h | h in c.keys && h !in keys
        ensures exists i :: 0 <= i < |cells| && ReportHeader(cells[i].key) == Some(h)
      {
        if h in next.keys {
          assert ReportHeader(cells[0].key) == Some(h);
        } else {
          var j :| 0 <= j < |cells[1..]| && ReportHeader(cells[1..][j].key) == Some(h);
          assert cells[1..][j] == cells[j + 1];
        }
      }
    }
  }

  lemma {:induction false} ReportKeysKept(keys: seq<string>, values: seq<Json>, cells: seq<Field>)
    ensures keys <= SplitCells(keys, values, cells, false).keys
    decreases |cells|
  {
    if |cells| > 0 {
      match ReportHeader(cells[0].key)
      case None =>
        ReportKeysKept(keys, values, cells[1..]);
      case Some(h) =>
        var next := AddCell(keys, values, h, cells[0].value);
        ReportKeysKept(next.keys, next.values, cells[1..]);
    }
  }

  /** For sites and sitemaps: `_split_to_kv` stops with `IndexError` at the
      first key it cannot rename, and otherwise adds every value; headers
      stay free of duplicates and only grow either way. */
  lemma {:induction false} SiteColumns(keys: seq<string>, values: seq<Json>, cells: seq<Field>)
    requires NoDuplicates(keys)
    ensures var c := SplitCells(keys, values, cells, true);
      && NoDuplicates(c.keys) && keys <= c.keys && values <= c.values
      && (c.failure.None? <==> forall i :: 0 <= i < |cells| ==> SiteHeader(cells[i].key).Ok?)
      && (c.failure.Some? ==> c.failure == Some(IndexError))
    decreases |cells|
  {
    if |cells| > 0 {
      ShiftCells(keys, cells);
      match SiteHeader(cells[0].key)
      case Raised(f) =>
      case Ok(h) =>
        var next := AddCell(keys, values, h, cells[0].value);
        SiteColumns(next.keys, next.values, cells[1..]);
    }
  }

  /** For sites and sitemaps that `_split_to_kv` renames without an
      exception: the value of every cell is appended, in order. */
  lemma SiteValues(keys: seq<string>, values: seq<Json>, cells: seq<Field>)
    ensures var c := SplitCells(keys, values, cells, true);
      c.failure.None? ==> c.values == values + CellValues(cells)
  {
    var c := SplitCells(keys, values, cells, true);
    SplitWithValues(keys, values, cells, SiteCell);
    SplitWithOk(keys, values, cells, SiteCell);
    if c.failure.None? {
      KeptWithAll(cells, SiteCell);
    }
  }

  lemma ShiftCells(keys: seq<string>, cells: seq<Field>)
    requires |cells| > 0
    ensures forall i :: 0 <= i < |cells[1..]| ==> cells[1..][i] == cells[i + 1]
  {
  }

  /** The shared header and value lists of `Export`: the defaults `keys=[]`
      and `values=[]` are one pair of lists for every `Export` made without
      them, so each export of a session extends the same lists. */
  class ColumnLists {
    var keys: seq<string>
    var values: seq<Json>

    constructor ()
      ensures keys == [] && values == []
    {
      keys, values := [], [];
    }

    /** `_split_to_kv(data)` on the flattened cells. */
    method SplitToKv(cells: seq<Field>) returns (failure: Option<Failure>)
      modifies this
      ensures Columns(keys, values, failure) == SplitCells(old(keys), old(values), cells, IsSiteData(cells))
    {
      var sites := IsSiteData(cells);
      failure := None;
      for i := 0 to |cells|
        invariant SplitCells(keys, values, cells[i..], sites) == SplitCells(old(keys), old(values), cells, sites)
      {
        assert cells[i..][0] == cells[i] && cells[i..][1..] == cells[i + 1..];
        var header: string;
        if sites {
          var h := SiteHeader(cells[i].key);
          if h.Raised? {
            return Some(h.failure);
          }
          header := h.value;
        } else {
          var h := ReportHeader(cells[i].key);
          if h.None? {
            continue;
          }
          header := h.value;
        }
        if header !in keys {
          keys := keys + [header];
        }
        values := values + [cells[i].value];
      }
      assert cells[|cells|..] == [];
    }
  }

  // ---------------------------------------------------------------------
  // Rows of width len(keys), and the writers
  // ---------------------------------------------------------------------

  /** `[values[ctr : ctr + sub] for ctr in range(0, len(values), sub)]`. */
  function Chunks(values: seq<Json>, width: nat): seq<seq<Json>>
    requires width >= 1
    decreases |values|
  {
    if |values| == 0 then []
    else if |values| <= width then [values]
    else [values[..width]] + Chunks(values[width..], width)
  }

  function Concat(rows: seq<seq<Json>>): seq<Json>
    decreases |rows|
  {
    if |rows| == 0 then [] else rows[0] + Concat(rows[1..])
  }

  /** The rows put back together are the values. */
  lemma {:induction false} ChunksConcat(values: seq<Json>, width: nat)
    requires width >= 1
    ensures Concat(Chunks(values, width)) == values
    decreases |values|
  {
    if |values| > width {
      var rows := Chunks(values, width);
      ChunksConcat(values[width..], width);
      assert rows[1..] == Chunks(values[width..], width);
      assert values[..width] + values[width..] == values;
    } else if |values| > 0 {
      assert Concat(Chunks(values, width)) == values + Concat([]);
    }
  }

  /** Every row but the last is full and the last holds 1 to `width`
      values, so there are just enough rows of `width` to hold the values. */
  lemma {:induction false} ChunksWidths(values: seq<Json>, width: nat)
    requires width >= 1
    ensures var rows := Chunks(values, width);
      && |values| <= |rows| * width < |values| + width
      && (forall i :: 0 <= i < |rows| - 1 ==> |rows[i]| == width)
      && (|rows| > 0 ==> 1 <= |rows[|rows| - 1]| <= width)
    decreases |values|
  {
    if |values| > width {
      var rows := Chunks(values, width);
      var rest := Chunks(values[width..], width);
      ChunksWidths(values[width..], width);
      assert rows == [values[..width]] + rest;
      assert |rows| * width == |rest| * width + width;
      forall i | 0 <= i < |rows| - 1 ensures |rows[i]| == width {
        if i > 0 { assert rows[i] == rest[i - 1]; }
      }
    }
  }

  /** The cells `_flatten` makes with the default separator "_". */
  function FlatCells(data: Json): seq<Field>
  {
    PutAll([], Keyed(Leaves(data, []), "_"))
  }

  /** The header and value lists after `__preprocess` on `data`. */
  function Prepared(data: Json, keys: seq<string>, values: seq<Json>): Columns
  {
    SplitCells(keys, values, FlatCells(data), IsSiteData(FlatCells(data)))
  }

  /** What a table-like writer receives: headers and rows of cells. */
  datatype Sheet = Sheet(headers: seq<string>, rows: seq<seq<Json>>)

  /** `Export(data)`: the data to export and the default header and value
      lists it shares with every other `Export`. */
  class Export {
    const data: Json
    const lists: ColumnLists

    constructor (data: Json, lists: ColumnLists)
      ensures this.data == data && this.lists == lists
    {
      this.data := data;
      this.lists := lists;
    }

    /** `__preprocess`: `_split_to_kv(_flatten(self.data))`. */
    method Preprocess() returns (failure: Option<Failure>)
      modifies lists
      ensures Columns(lists.keys, lists.values, failure) == Prepared(data, old(lists.keys), old(lists.values))
    {
      var cells := Flatten(data, "_");
      failure := lists.SplitToKv(cells);
    }

    /** `export_to_table` and `export_to_tsv`: the headers and the values in
        rows of len(keys), or the "An error occured" exit when there are no
        headers. */
    method ExportToTable() returns (r: Result<Sheet>)
      modifies lists
      ensures var c := Prepared(data, old(lists.keys), old(lists.values));
        && lists.keys == c.keys && lists.values == c.values
        && (c.failure.Some? ==> r == Raised(c.failure.value))
        && (c.failure.None? && |c.keys| == 0 ==> r == Raised(ExitNoHeaders))
        && (c.failure.None? && |c.keys| >= 1 ==> r == Ok(Sheet(c.keys, Chunks(c.values, |c.keys|))))
    {
      var failure := Preprocess();
      if failure.Some? {
        return Raised(failure.value);
      }
      var sub := |lists.keys|;
      if sub >= 1 {
        r := Ok(Sheet(lists.keys, Chunks(lists.values, sub)));
      } else {
        r := Raised(ExitNoHeaders);
      }
    }

    /** `export_to_excel`: the header row first, then the rows of values. */
    method ExportToExcel() returns (r: Result<seq<seq<Json>>>)
      modifies lists
      ensures var c := Prepared(data, old(lists.keys), old(lists.values));
        && lists.keys == c.keys && lists.values == c.values
        && (c.failure.Some? ==> r == Raised(c.failure.value))
        && (c.failure.None? && |c.keys| == 0 ==> r == Raised(ExitNoHeaders))
        && (c.failure.None? && |c.keys| >= 1 ==> r == Ok([Texts(c.keys)] + Chunks(c.values, |c.keys|)))
    {
      var failure := Preprocess();
      if failure.Some? {
        return Raised(failure.value);
      }
      var sub := |lists.keys|;
      if sub >= 1 {
        r := Ok([Texts(lists.keys)] + Chunks(lists.values, sub));
      } else {
        r := Raised(ExitNoHeaders);
      }
    }

    /** `export_to_csv`: the header line, then one line per `range(0,
        len(values), sub)` step. With no headers the header line is written
        and `range` with step 0 raises `ValueError`. */
    method ExportToCsv() returns (written: seq<seq<Json>>, r: Result<()>)
      modifies lists
      ensures var c := Prepared(data, old(lists.keys), old(lists.values));
        && lists.keys == c.keys && lists.values == c.values
        && (c.failure.Some? ==> written == [] && r == Raised(c.failure.value))
        && (c.failure.None? && |c.keys| == 0 ==> written == [[]] && r == Raised(ValueError))
        && (c.failure.None? && |c.keys| >= 1 ==> r == Ok(()) && written == [Texts(c.keys)] + Chunks(c.values, |c.keys|))
    {
      written := [];
      var failure := Preprocess();
      if failure.Some? {
        return written, Raised(failure.value);
      }
      var sub := |lists.keys|;
      var header := Texts(lists.keys);
      written := [header];
      if sub == 0 {
        return written, Raised(ValueError);
      }
      written := WriteChunks(header, lists.values, sub);
      r := Ok(());
    }
  }

  /** The csv loop from `ctr = 0` on: the header row, then one row per
      slice `values[ctr:ctr + sub]`. */
  method WriteChunks(header: seq<Json>, values: seq<Json>, sub: nat) returns (written: seq<seq<Json>>)
    requires sub >= 1
    ensures written == [header] + Chunks(values, sub)
  {
    written := [header];
    var ctr := 0;
    while ctr < |values|
      invariant 0 <= ctr
      invariant ctr < |values| ==> written + Chunks(values[ctr..], sub) == [header] + Chunks(values, sub)
      invariant ctr >= |values| ==> written == [header] + Chunks(values, sub)
      decreases |values| - ctr
    {
      var end := if ctr + sub <= |values| then ctr + sub else |values|;
      ChunkStep(values, ctr, sub);
      written := written + [values[ctr..end]];
      ctr := ctr + sub;
      if ctr < |values| {
        assert end == ctr;
      }
    }
    if |values| == 0 {
      assert Chunks(values, sub) == [];
    }
  }

  /** One step of the csv loop: the slice at `ctr` is the first chunk of
      what is left. */
  lemma ChunkStep(values: seq<Json>, ctr: nat, width: nat)
    requires width >= 1 && ctr < |values|
    ensures var end := if ctr + width <= |values| then ctr + width else |values|;
      && Chunks(values[ctr..], width) == [values[ctr..end]] + (if end < |values| then Chunks(values[end..], width) else [])
  {
    var rest := values[ctr..];
    if |rest| > width {
      assert rest[..width] == values[ctr..ctr + width];
      assert rest[width..] == values[ctr + width..];
    } else {
      assert rest == values[ctr..|values|];
    }
  }
}
