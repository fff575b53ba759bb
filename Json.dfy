/** A value model of the JSON documents the client writes: `System.Text.Json.Nodes.JsonObject`
    as an ordered list of (property name, value) pairs, and the serializer's
    null/default omission rules. */
module Json {
  import opened Wrappers

  datatype Json =
    | JNull
    | JBool(b: bool)
    | JInt(i: int)
    | JReal(r: real)
    | JString(s: string)
    | JArray(items: seq<Json>)
    | JObject(fields: seq<(string, Json)>)

  /** The properties of a JSON object, in the order they are written. */
  type Fields = seq<(string, Json)>

  function Keys(fs: Fields): (ks: seq<string>)
    ensures |ks| == |fs|
    ensures forall i :: 0 <= i < |fs| ==> ks[i] == fs[i].0
  {
    if fs == [] then [] else [fs[0].0] + Keys(fs[1..])
  }

  /** A `JsonObject` never holds two properties with the same name. */
  predicate DistinctKeys(fs: Fields) {
    forall i, j :: 0 <= i < j < |fs| ==> fs[i].0 != fs[j].0
  }

  /** The value stored under `key`, if any (the object's indexer). */
  function Lookup(fs: Fields, key: string): Option<Json> {
    if fs == [] then None
    else if fs[0].0 == key then Some(fs[0].1)
    else Lookup(fs[1..], key)
  }

  /** `JsonObject.Add` on a value: appends the property, or throws `ArgumentException`
      when a property of that name is already present. */
  function AddProperty(fs: Fields, key: string, value: Json): (r: Result<Fields, string>)
  {
    if key in Keys(fs) then Failure(key) else Success(fs + [(key, value)])
  }

  /** The mutable `JsonObject` an invoker builds its payload in. */
  class JsonObject {
    var fields: Fields

    constructor (initial: Fields)
      ensures fields == initial
    {
      fields := initial;
    }

    /** `JsonObject.Add` in place: the property is appended, or, when the
        name is taken, the `ArgumentException` is reported and the object
        is left as it was. */
    method Add(key: string, value: Json) returns (r: Result<(), string>)
      modifies this
      ensures r.Success? <==> AddProperty(old(fields), key, value).Success?
      ensures r.Success? ==> fields == AddProperty(old(fields), key, value).value
      ensures r.Failure? ==> r.error == key && fields == old(fields)
    {
      if key in Keys(fields) {
        r := Failure(key);
      } else {
        fields := fields + [(key, value)];
        r := Success(());
      }
    }
  }

  /** A property as the serializer sees it: its JSON name and its value,
      `None` when the property's `JsonIgnore` condition holds (null for
      `WhenWritingNull`, the type's default for `WhenWritingDefault`). */
  type Property = (string, Option<Json>)

  /** Serializing an object: its properties in declaration order, each one
      whose ignore condition holds left out. */
  function Write(props: seq<Property>): (fs: Fields)
    ensures |fs| <= |props|
  {
    if props == [] then []
    else match props[0].1
         case None => Write(props[1..])
         case Some(v) => [(props[0].0, v)] + Write(props[1..])
  }

  predicate DistinctNames(props: seq<Property>) {
    forall i, j :: 0 <= i < j < |props| ==> props[i].0 != props[j].0
  }

  function OptInt(x: Option<int>): Option<Json> {
    match x
    case None => None
    case Some(i) => Some(JInt(i))
  }

  function OptReal(x: Option<real>): Option<Json> {
    match x
    case None => None
    case Some(r) => Some(JReal(r))
  }

  function OptString(x: Option<string>): Option<Json> {
    match x
    case None => None
    case Some(s) => Some(JString(s))
  }

  function Strings(ss: seq<string>): (j: seq<Json>)
    ensures |j| == |ss|
    ensures forall i :: 0 <= i < |ss| ==> j[i] == JString(ss[i])
  {
    if ss == [] then [] else [JString(ss[0])] + Strings(ss[1..])
  }

  function OptStrings(x: Option<seq<string>>): Option<Json> {
    match x
    case None => None
    case Some(ss) => Some(JArray(Strings(ss)))
  }

  /** Reading back a JSON array of strings. */
  function AsStrings(items: seq<Json>): (r: Option<seq<string>>)
    ensures r.Some? ==> |r.value| == |items|
  {
    if items == [] then Some([])
    else if !items[0].JString? then None
    else match AsStrings(items[1..])
         case None => None
         case Some(rest) => Some([items[0].s] + rest)
  }

  /** Reading back a property `Write` may have left out: `Some(None)` when absent, `None` when present with the wrong JSON type. */
  function ReadInt(fs: Fields, key: string): Option<Option<int>> {
    match Lookup(fs, key)
    case None => Some(None)
    case Some(JInt(i)) => Some(Some(i))
    case Some(_) => None
  }

  function ReadReal(fs: Fields, key: string): Option<Option<real>> {
    match Lookup(fs, key)
    case None => Some(None)
    case Some(JReal(r)) => Some(Some(r))
    case Some(_) => None
  }

  function ReadString(fs: Fields, key: string): Option<Option<string>> {
    match Lookup(fs, key)
    case None => Some(None)
    case Some(JString(s)) => Some(Some(s))
    case Some(_) => None
  }

  function ReadStrings(fs: Fields, key: string): Option<Option<seq<string>>> {
    match Lookup(fs, key)
    case None => Some(None)
    case Some(JArray(items)) =>
      (match AsStrings(items)
       case None => None
       case Some(ss) => Some(Some(ss)))
    case Some(_) => None
  }

  // ---------------------------------------------------------------------
  // Properties of the object model

  /** `AddProperty` succeeds exactly when the name is new; the new property is then
      the last one, readable under its name, and every other property reads
      as before. */
  lemma {:induction false} AddSpec(fs: Fields, key: string, value: Json)
    ensures AddProperty(fs, key, value).Success? <==> Lookup(fs, key).None?
    ensures AddProperty(fs, key, value).Success? ==>
      && AddProperty(fs, key, value).value[..|fs|] == fs
      && Lookup(AddProperty(fs, key, value).value, key) == Some(value)
      && (forall k :: k != key ==> Lookup(AddProperty(fs, key, value).value, k) == Lookup(fs, k))
      && (DistinctKeys(fs) ==> DistinctKeys(AddProperty(fs, key, value).value))
  {
    LookupNoneIffAbsent(fs, key);
    if AddProperty(fs, key, value).Success? {
      forall k ensures Lookup(fs + [(key, value)], k) == if k in Keys(fs) then Lookup(fs, k) else Lookup([(key, value)], k) {
        LookupAppend(fs, [(key, value)], k);
      }
      forall k | k != key ensures Lookup(fs + [(key, value)], k) == Lookup(fs, k) {
        LookupAppend(fs, [(key, value)], k);
        LookupNoneIffAbsent(fs, k);
        assert [(key, value)][1..] == [];
      }
    }
  }

  lemma {:induction false} LookupNoneIffAbsent(fs: Fields, key: string)
    ensures Lookup(fs, key).None? <==> key !in Keys(fs)
  {
    if fs != [] {
      LookupNoneIffAbsent(fs[1..], key);
      assert Keys(fs) == [fs[0].0] + Keys(fs[1..]);
    }
  }

  /** Looking a name up in two concatenated property lists. */
  lemma {:induction false} LookupAppend(a: Fields, b: Fields, key: string)
    ensures Lookup(a + b, key) == if key in Keys(a) then Lookup(a, key) else Lookup(b, key)
  {
    if a != [] {
      assert (a + b)[1..] == a[1..] + b;
      LookupAppend(a[1..], b, key);
      assert Keys(a) == [a[0].0] + Keys(a[1..]);
    } else {
      assert a + b == b;
    }
  }

  /** A name no property carries is absent from the written object. */
  lemma {:induction false} WriteAbsent(props: seq<Property>, key: string)
    requires forall i :: 0 <= i < |props| ==> props[i].0 != key
    ensures Lookup(Write(props), key).None?
  {
    if props != [] {
      WriteAbsent(props[1..], key);
    }
  }

  /** With distinct property names, every property reads back from the
      written object as exactly its value: present when not ignored, absent
      when ignored. The written object has distinct names too. */
  lemma {:induction false} WriteLookup(props: seq<Property>)
    requires DistinctNames(props)
    ensures forall i :: 0 <= i < |props| ==> Lookup(Write(props), props[i].0) == props[i].1
    ensures DistinctKeys(Write(props))
  {
    if props != [] {
      var rest := props[1..];
      WriteLookup(rest);
      WriteAbsent(rest, props[0].0);
      LookupNoneIffAbsent(Write(rest), props[0].0);
      forall i | 0 < i < |props| ensures Lookup(Write(props), props[i].0) == props[i].1 {
        assert props[i].0 == rest[i - 1].0;
      }
      if props[0].1.Some? {
        var w := Write(props);
        assert w[1..] == Write(rest);
        forall i, j | 0 <= i < j < |w| ensures w[i].0 != w[j].0 {
          if i == 0 {
            assert w[j] == Write(rest)[j - 1];
            assert Keys(Write(rest))[j - 1] == w[j].0;
          }
        }
      }
    }
  }

  lemma {:induction false} AsStringsRoundTrip(ss: seq<string>)
    ensures AsStrings(Strings(ss)) == Some(ss)
  {
    if ss != [] {
      assert Strings(ss)[1..] == Strings(ss[1..]);
      AsStringsRoundTrip(ss[1..]);
      assert [ss[0]] + ss[1..] == ss;
    }
  }
}
