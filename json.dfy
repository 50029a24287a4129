// The JSON-like values the core passes around: query bodies, API
// responses, the parsed saved-query file and `SearchAnalytics.data`.

module Json {
  import opened Wrappers

  /** A day number: the proleptic Gregorian ordinal minus one, so that day 0
      is 0001-01-01, a Monday. Every `YYYY-MM-DD` text stands for one day. */
  type Day = int

  datatype Scalar =
    | Text(s: string)
    | Number(n: int)
    | Decimal(x: real)
    | Date(day: Day)     // a `YYYY-MM-DD` text
    | Bool(b: bool)
    | Null

  /** A Python value built from dicts (`Obj`, keys in insertion order),
      lists (`Arr`) and scalars. */
  datatype Json = Leaf(scalar: Scalar) | Arr(items: seq<Json>) | Obj(fields: seq<Field>)

  datatype Field = Field(key: string, value: Json)

  /** `d.get(key)` on an object given by its fields: the first field so named. */
  function Get(fields: seq<Field>, key: string): (r: Option<Json>)
    ensures r.Some? <==> exists i :: 0 <= i < |fields| && fields[i].key == key
    ensures r.Some? ==> exists i :: 0 <= i < |fields| && fields[i] == Field(key, r.value)
    decreases |fields|
  {
    if |fields| == 0 then None
    else if fields[0].key == key then Some(fields[0].value)
    else
      var r := Get(fields[1..], key);
      assert r.Some? ==> exists i :: 0 <= i < |fields[1..]| && fields[1..][i] == Field(key, r.value);
      r
  }

  /** The keys of an object given by its fields. */
  function KeysOf(entries: seq<Field>): set<string>
  {
    set i | 0 <= i < |entries| :: entries[i].key
  }

  lemma KeysOfSnoc(entries: seq<Field>, f: Field)
    ensures KeysOf(entries + [f]) == KeysOf(entries) + {f.key}
  {
    var all := entries + [f];
    assert all[|entries|] == f;
    forall k | k in KeysOf(entries) ensures k in KeysOf(all) {
      var i :| 0 <= i < |entries| && entries[i].key == k;
      assert all[i] == entries[i];
    }
  }

  predicate DistinctKeys(entries: seq<Field>)
  {
    forall i, j :: 0 <= i < j < |entries| ==> entries[i].key != entries[j].key
  }

  lemma {:induction false} GetAt(fields: seq<Field>, i: nat, key: string)
    requires i < |fields| && fields[i].key == key
    requires forall j :: 0 <= j < i ==> fields[j].key != key
    ensures Get(fields, key) == Some(fields[i].value)
    decreases i
  {
    if i > 0 {
      GetAt(fields[1..], i - 1, key);
    }
  }

  /** Two field lists that agree wherever either holds `key` look up `key`
      alike. */
  lemma {:induction false} GetAlike(a: seq<Field>, b: seq<Field>, key: string)
    requires |a| == |b|
    requires forall j :: 0 <= j < |a| ==> (a[j].key == key || b[j].key == key ==> a[j] == b[j])
    ensures Get(a, key) == Get(b, key)
    decreases |a|
  {
    if |a| > 0 && a[0].key != key {
      GetAlike(a[1..], b[1..], key);
    }
  }

  lemma {:induction false} GetAppendOther(fields: seq<Field>, f: Field, key: string)
    requires f.key != key
    ensures Get(fields + [f], key) == Get(fields, key)
    decreases |fields|
  {
    if |fields| > 0 {
      assert (fields + [f])[1..] == fields[1..] + [f];
      GetAppendOther(fields[1..], f, key);
    }
  }

  /** A lookup skips a prefix that does not hold the key. */
  lemma {:induction false} GetPrefix(a: seq<Field>, b: seq<Field>, key: string)
    requires key !in KeysOf(a)
    ensures Get(a + b, key) == Get(b, key)
    decreases |a|
  {
    if |a| > 0 {
      assert a[0].key in KeysOf(a);
      assert (a + b)[0] == a[0] && (a + b)[1..] == a[1..] + b;
      assert KeysOf(a[1..]) <= KeysOf(a) by {
        forall k | k in KeysOf(a[1..]) ensures k in KeysOf(a) {
          var i :| 0 <= i < |a[1..]| && a[1..][i].key == k;
          assert a[i + 1].key == k;
        }
      }
      GetPrefix(a[1..], b, key);
    } else {
      assert a + b == b;
    }
  }

  function Str(s: string): Json { Leaf(Text(s)) }
  function Int(n: int): Json { Leaf(Number(n)) }
  function DateValue(d: Day): Json { Leaf(Date(d)) }

  /** A list of texts, as the list of their values. */
  function Texts(items: seq<string>): (r: seq<Json>)
    ensures |r| == |items| && forall i :: 0 <= i < |items| ==> r[i] == Str(items[i])
  {
    seq(|items|, i requires 0 <= i < |items| => Str(items[i]))
  }
}
