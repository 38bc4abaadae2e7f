/** JSON-shaped values as the FHIR builders produce them: strings, lists and
    objects. An object is a Python dict: a lookup table plus the order in
    which its keys were inserted. */
module JsonValues {

  datatype Option<T> = None | Some(value: T)

  datatype Json =
    | JStr(s: string)
    | JArr(items: seq<Json>)
    | JObj(obj: Obj)

  /** A dict: `keys` in insertion order, `values` the table. */
  datatype Obj = Obj(keys: seq<string>, values: map<string, Json>)

  /** `{}` */
  const Empty := Obj([], map[])

  /** A well-formed dict: every key once, and exactly the keys of the table. */
  predicate IsDict(o: Obj) {
    && (forall i, j :: 0 <= i < j < |o.keys| ==> o.keys[i] != o.keys[j])
    && (forall k :: k in o.values ==> k in o.keys)
    && (forall i :: 0 <= i < |o.keys| ==> o.keys[i] in o.values)
  }

  /** `o.get(k)`: the value stored under `k`, if any. */
  function Get(o: Obj, k: string): Option<Json> {
    if k in o.values then Some(o.values[k]) else None
  }

  /** `o[k] = v`: an existing key keeps its position and takes the new
      value; a new key is appended at the end. A dict display is the same
      as inserting its keys one by one, left to right, into `{}`, and the
      builders write theirs that way. */
  function SetField(o: Obj, k: string, v: Json): Obj {
    Obj(WithKey(o.keys, k), o.values[k := v])
  }

  /** The key order after inserting `k`: unchanged if `k` is already there,
      otherwise `k` last. */
  function WithKey(keys: seq<string>, k: string): seq<string> {
    if keys == [] then [k]
    else if keys[0] == k then keys
    else [keys[0]] + WithKey(keys[1..], k)
  }

  lemma {:induction false} WithKeySpec(keys: seq<string>, k: string)
    ensures WithKey(keys, k) == if k in keys then keys else keys + [k]
  {
    if keys != [] && keys[0] != k {
      WithKeySpec(keys[1..], k);
      assert keys == [keys[0]] + keys[1..];
    }
  }

  /** What assignment promises: the key now holds the new value, no other
      key changes, and on a well-formed dict the result is well formed with
      the key kept in place or appended last. */
  lemma SetFieldSpec(o: Obj, k: string, v: Json)
    ensures Get(SetField(o, k, v), k) == Some(v)
    ensures forall k' :: k' != k ==> Get(SetField(o, k, v), k') == Get(o, k')
    ensures IsDict(o) ==> IsDict(SetField(o, k, v))
    ensures IsDict(o) ==> SetField(o, k, v).keys == if k in o.keys then o.keys else o.keys + [k]
  {
    if IsDict(o) {
      if k in o.keys {
        SetFieldExisting(o, k, v);
      } else {
        SetFieldNew(o, k, v);
      }
    }
  }

  /** Assigning a key a well-formed dict holds keeps the key order. */
  lemma SetFieldExisting(o: Obj, k: string, v: Json)
    requires IsDict(o) && k in o.keys
    ensures IsDict(SetField(o, k, v)) && SetField(o, k, v).keys == o.keys
  {
    WithKeySpec(o.keys, k);
    var r := SetField(o, k, v);
    assert forall k' :: k' in r.values ==> k' in o.values || k' == k;
  }

  /** Inserting a key a well-formed dict does not hold appends it. */
  lemma SetFieldNew(o: Obj, k: string, v: Json)
    requires IsDict(o) && k !in o.values
    ensures IsDict(SetField(o, k, v)) && SetField(o, k, v).keys == o.keys + [k]
  {
    WithKeySpec(o.keys, k);
    var r := SetField(o, k, v);
    assert r.keys == o.keys + [k];
    forall i, j | 0 <= i < j < |r.keys|
      ensures r.keys[i] != r.keys[j]
    {
      assert r.keys[i] == o.keys[i];
      if j < |o.keys| {
        assert r.keys[j] == o.keys[j];
      }
    }
    forall i | 0 <= i < |r.keys|
      ensures r.keys[i] in r.values
    {
      if i < |o.keys| {
        assert r.keys[i] == o.keys[i];
      }
    }
  }

  /** `keys` with `k` appended when `c` holds. */
  function AppendIf(keys: seq<string>, c: bool, k: string): seq<string> {
    if c then keys + [k] else keys
  }

  /** `o[k] = v` when there is a value to store, `o` otherwise. */
  function SetIfPresent(o: Obj, k: string, v: Option<Json>): Obj {
    if v.Some? then SetField(o, k, v.value) else o
  }

  /** A conditional insertion of a key not yet in the key list appends it
      when it happens. */
  lemma SetIfPresentKeys(o: Obj, k: string, v: Option<Json>)
    requires k !in o.keys
    ensures SetIfPresent(o, k, v).keys == AppendIf(o.keys, v.Some?, k)
  {
    WithKeySpec(o.keys, k);
  }

  /** An optional string as an optional JSON string. */
  function StrValue(o: Option<string>): Option<Json> {
    if o.Some? then Some(JStr(o.value)) else None
  }

  /** Python truthiness of an `Optional[str]`: present and non-empty. */
  predicate Truthy(o: Option<string>) {
    o.Some? && o.value != ""
  }

  /** The value an `if o: d[k] = o` leaves under `k`: `o` when truthy,
      nothing otherwise. */
  function Present(o: Option<string>): (r: Option<string>)
    ensures r.Some? <==> Truthy(o)
    ensures r.Some? ==> r == o
  {
    if Truthy(o) then o else None
  }

  /** Python's `o or d` for an `Optional[str]` and a string default. */
  function OrElse(o: Option<string>, d: string): (r: string)
    ensures Truthy(o) ==> r == o.value
    ensures !Truthy(o) ==> r == d
  {
    if Truthy(o) then o.value else d
  }

  function LowerChar(c: char): char {
    if 'A' <= c <= 'Z' then (c as int + 32) as char else c
  }

  /** `str.lower()` restricted to ASCII letters. */
  function Lower(s: string): (r: string)
    ensures |r| == |s|
    ensures forall i :: 0 <= i < |s| ==> r[i] == LowerChar(s[i])
  {
    seq(|s|, i requires 0 <= i < |s| => LowerChar(s[i]))
  }

  /** The result of `Lower` has no upper-case ASCII letter, every other
      character is kept, and lower-casing twice is lower-casing once. */
  lemma LowerSpec(s: string)
    ensures |Lower(s)| == |s|
    ensures forall i :: 0 <= i < |s| ==> !('A' <= Lower(s)[i] <= 'Z')
    ensures forall i :: 0 <= i < |s| && !('A' <= s[i] <= 'Z') ==> Lower(s)[i] == s[i]
    ensures Lower(Lower(s)) == Lower(s)
  {
    var l := Lower(s);
    forall i | 0 <= i < |s|
      ensures Lower(l)[i] == l[i]
    {
      assert !('A' <= l[i] <= 'Z');
    }
  }

  /** The resource types the builders produce lower-case to the id
      prefixes the assembler would draw for them. */
  lemma LowerResourceTypes()
    ensures Lower("Patient") == "patient"
    ensures Lower("Specimen") == "specimen"
    ensures Lower("Observation") == "observation"
    ensures Lower("Resource") == "resource"
  {
    assert Lower("Patient")[0] == 'p';
    assert Lower("Specimen")[0] == 's';
    assert Lower("Observation")[0] == 'o';
    assert Lower("Resource")[0] == 'r';
  }
}
