/**
 * JSON values as the gateway protocol carries them, and the few JavaScript
 * operations the core applies to them: property access, `??`, object spread
 * and `for ... of` iteration. `null` and `undefined` are both `JNull`.
 */
module Json {
  import opened Wrappers
  import opened Text

  datatype Json =
    | JNull
    | JBool(b: bool)
    | JNum(n: int)
    | JStr(s: string)
    | JArr(items: seq<Json>)
    | JObj(fields: seq<Field>)

  datatype Field = Field(key: string, value: Json)

  /** The value of the last field named `key` (a later duplicate wins, as in `JSON.parse`). */
  function Lookup(fs: seq<Field>, key: string): Json {
    if fs == [] then JNull
    else if fs[|fs| - 1].key == key then fs[|fs| - 1].value
    else Lookup(fs[..|fs| - 1], key)
  }

  /** The field at `i` is the last one named `key`, so it is the one read. */
  lemma {:induction false} LookupAt(fs: seq<Field>, key: string, i: nat)
    requires i < |fs| && fs[i].key == key
    requires forall j :: i < j < |fs| ==> fs[j].key != key
    ensures Lookup(fs, key) == fs[i].value
    decreases |fs|
  {
    if i < |fs| - 1 {
      assert fs[..|fs| - 1][i] == fs[i];
      LookupAt(fs[..|fs| - 1], key, i);
    }
  }

  lemma {:induction false} LookupMissing(fs: seq<Field>, key: string)
    requires forall j :: 0 <= j < |fs| ==> fs[j].key != key
    ensures Lookup(fs, key) == JNull
    decreases |fs|
  {
    if fs != [] {
      LookupMissing(fs[..|fs| - 1], key);
    }
  }

  /** `v[key]`: a missing property, or a property of a non-object, reads as undefined. */
  function Get(v: Json, key: string): Json {
    if v.JObj? then Lookup(v.fields, key) else JNull
  }

  /** `a ?? b`. */
  function Coalesce(a: Json, b: Json): (r: Json)
    ensures r == a || r == b
    ensures r.JNull? ==> b.JNull?
  {
    if a.JNull? then b else a
  }

  predicate HasKey(fs: seq<Field>, key: string) {
    exists i :: 0 <= i < |fs| && fs[i].key == key
  }

  function Replace(fs: seq<Field>, key: string, value: Json): (r: seq<Field>)
    ensures |r| == |fs|
    ensures forall i :: 0 <= i < |fs| ==> r[i] == if fs[i].key == key then Field(key, value) else fs[i]
  {
    seq(|fs|, i requires 0 <= i < |fs| => if fs[i].key == key then Field(key, value) else fs[i])
  }

  /**
   * Assigning a property in an object literal: an existing key keeps its
   * place and takes the new value, a new key is added last.
   */
  function Put(fs: seq<Field>, key: string, value: Json): seq<Field> {
    if HasKey(fs, key) then Replace(fs, key, value) else fs + [Field(key, value)]
  }

  lemma {:induction false} LookupReplaced(fs: seq<Field>, key: string, value: Json)
    requires HasKey(fs, key)
    ensures Lookup(Replace(fs, key, value), key) == value
  {
    var r := Replace(fs, key, value);
    if fs[|fs| - 1].key != key {
      var i :| 0 <= i < |fs| && fs[i].key == key;
      assert r[..|r| - 1] == Replace(fs[..|fs| - 1], key, value);
      assert fs[..|fs| - 1][i].key == key;
      LookupReplaced(fs[..|fs| - 1], key, value);
    }
  }

  lemma {:induction false} LookupReplacedOther(fs: seq<Field>, key: string, value: Json, other: string)
    requires other != key
    ensures Lookup(Replace(fs, key, value), other) == Lookup(fs, other)
  {
    if fs != [] {
      var r := Replace(fs, key, value);
      assert r[..|r| - 1] == Replace(fs[..|fs| - 1], key, value);
      LookupReplacedOther(fs[..|fs| - 1], key, value, other);
    }
  }

  /** Reading a property just put gives the value put; every other property reads as before. */
  lemma PutLookup(fs: seq<Field>, key: string, value: Json, other: string)
    ensures Lookup(Put(fs, key, value), key) == value
    ensures other != key ==> Lookup(Put(fs, key, value), other) == Lookup(fs, other)
  {
    if HasKey(fs, key) {
      LookupReplaced(fs, key, value);
      if other != key {
        LookupReplacedOther(fs, key, value, other);
      }
    } else {
      assert (fs + [Field(key, value)])[..|fs|] == fs;
    }
  }

  /**
   * The properties `{...v}` copies: an object's own fields, an array's or a
   * string's elements under their decimal indices, nothing for other values.
   */
  function Spread(v: Json): seq<Field> {
    match v
    case JObj(fs) => fs
    case JArr(xs) => seq(|xs|, i requires 0 <= i < |xs| => Field(DecimalString(i), xs[i]))
    case JStr(s) => seq(|s|, i requires 0 <= i < |s| => Field(DecimalString(i), JStr([s[i]])))
    case _ => []
  }

  /** The values `for (const x of v)` visits, or `None` when `v` is not iterable (a TypeError). */
  function Iterate(v: Json): (r: Option<seq<Json>>)
    ensures v.JArr? ==> r == Some(v.items)
    ensures r.Some? <==> v.JArr? || v.JStr?
  {
    match v
    case JArr(xs) => Some(xs)
    case JStr(s) => Some(seq(|s|, i requires 0 <= i < |s| => JStr([s[i]])))
    case _ => None
  }
}
