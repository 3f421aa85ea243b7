/** JavaScript values as the Cylon core handles them: optional fields, request
    parameters, option records and plain objects whose keys keep insertion
    order (the order a `for (var p in o)` loop visits them). */
module JsValues {

  datatype Option<+T> = None | Some(value: T)

  /** A JavaScript value. Numbers are modelled as integers; `Fn` stands for a
      function value, identified by a name. */
  datatype Value =
    | Undefined
    | Null
    | Bool(b: bool)
    | Num(n: int)
    | Str(s: string)
    | Fn(id: string)
    | Arr(items: seq<Value>)
    | Obj(fields: JsObject<Value>)

  /** `v == null` with JavaScript's loose equality: true of null and undefined. */
  predicate IsNullish(v: Value) {
    v.Undefined? || v.Null?
  }

  /** `typeof v === 'object'`: objects, arrays and null. */
  predicate IsObjectType(v: Value) {
    v.Obj? || v.Arr? || v.Null?
  }

  /** JavaScript truthiness, as `x ? a : b` and `x || y` test it. */
  predicate Truthy(v: Value) {
    match v
    case Undefined => false
    case Null => false
    case Bool(b) => b
    case Num(n) => n != 0
    case Str(s) => s != ""
    case _ => true
  }

  /** How an optional string prints when concatenated to a string. */
  function Show(s: Option<string>): string {
    match s
    case Some(t) => t
    case None => "undefined"
  }

  /** The property key a possibly-undefined name becomes (`o[undefined]` is `o["undefined"]`).
      JavaScript converts a property key with the same `String()` conversion
      that concatenation uses, so this is `Show` under the name of its role. */
  function KeyOf(s: Option<string>): string {
    Show(s)
  }

  predicate Distinct<T(==)>(s: seq<T>) {
    forall i, j :: 0 <= i < j < |s| ==> s[i] != s[j]
  }

  /** A plain object: its own enumerable keys in enumeration order and the value under each. */
  datatype JsObject<+V> = JsObject(keys: seq<string>, entries: map<string, V>) {

    predicate Valid() {
      && Distinct(keys)
      && (forall k :: k in entries ==> k in keys)
      && (forall k :: k in keys ==> k in entries)
    }

    /** `o[k] = v`: a new key goes last, an existing key keeps its place. */
    function Put(k: string, v: V): (r: JsObject<V>)
      requires Valid()
      ensures r.Valid()
      ensures k in r.entries && r.entries[k] == v
      ensures forall k' :: k' != k ==> (k' in r.entries <==> k' in entries)
      ensures forall k' :: k' != k && k' in entries ==> r.entries[k'] == entries[k']
      ensures k in entries ==> r.keys == keys
      ensures k !in entries ==> r.keys == keys + [k]
    {
      JsObject(if k in entries then keys else keys + [k], entries[k := v])
    }

    /** The values in key order: what `for (var p in o) out.push(o[p])` collects. */
    function Values(): (r: seq<V>)
      ensures Valid() ==> |r| == |keys| && forall i :: 0 <= i < |keys| ==> r[i] == entries[keys[i]]
    {
      ValuesAt(keys, entries)
    }
  }

  /** No two keys of `o` hold the same value. */
  predicate Injective<V(==)>(o: JsObject<V>) {
    forall k1, k2 :: k1 in o.entries && k2 in o.entries && k1 != k2 ==> o.entries[k1] != o.entries[k2]
  }

  function Empty<V(==)>(): (r: JsObject<V>)
    ensures r.Valid() && Injective(r) && r.keys == []
  {
    JsObject([], map[])
  }

  /** The values stored under `keys`, in that order (keys with no entry are skipped). */
  function ValuesAt<V>(keys: seq<string>, entries: map<string, V>): (r: seq<V>)
    ensures (forall k :: k in keys ==> k in entries) ==>
      |r| == |keys| && forall i :: 0 <= i < |keys| ==> r[i] == entries[keys[i]]
    decreases |keys|
  {
    if keys == [] then []
    else (if keys[0] in entries then [entries[keys[0]]] else []) + ValuesAt(keys[1..], entries)
  }

  /** In an object that is valid and injective, the values in key order are pairwise distinct. */
  lemma {:induction false} InjectiveValuesDistinct<V>(o: JsObject<V>)
    requires o.Valid() && Injective(o)
    ensures Distinct(o.Values())
  {
    var vs := o.Values();
    forall i, j | 0 <= i < j < |vs| ensures vs[i] != vs[j] {
      assert o.keys[i] != o.keys[j];
    }
  }

  /** Every value the object holds appears in its values in key order. */
  lemma ValuesListed<V>(o: JsObject<V>, v: V)
    requires o.Valid() && v in o.entries.Values
    ensures v in o.Values()
  {
    var k :| k in o.entries && o.entries[k] == v;
    var i :| 0 <= i < |o.keys| && o.keys[i] == k;
    assert o.Values()[i] == v;
  }

  /** The key sequence after assigning the names in order to an object whose key sequence is `keys`. */
  function AddKeys(keys: seq<string>, names: seq<string>): seq<string>
    decreases |names|
  {
    if names == [] then keys
    else
      var before := AddKeys(keys, names[..|names| - 1]);
      var n := names[|names| - 1];
      if n in before then before else before + [n]
  }

  /** Assigning names keeps the old keys first and in place, adds each new name
      once, in order of first assignment, and nothing else. */
  lemma {:induction false} AddKeysSpec(keys: seq<string>, names: seq<string>)
    requires Distinct(keys)
    ensures Distinct(AddKeys(keys, names))
    ensures keys <= AddKeys(keys, names)
    ensures forall k :: k in AddKeys(keys, names) <==> k in keys || k in names
    decreases |names|
  {
    if names != [] {
      var init := names[..|names| - 1];
      AddKeysSpec(keys, init);
      assert forall k :: k in names <==> k in init || k == names[|names| - 1];
    }
  }

  /** Index of the last occurrence of `k` in `s`. */
  function LastIndex<T(==)>(s: seq<T>, k: T): (i: nat)
    requires k in s
    ensures i < |s| && s[i] == k
    ensures forall j :: i < j < |s| ==> s[j] != k
    decreases |s|
  {
    if s[|s| - 1] == k then |s| - 1 else LastIndex(s[..|s| - 1], k)
  }

  lemma LastIndexSnoc<T>(s: seq<T>, x: T, k: T)
    requires k in s + [x]
    ensures x == k ==> LastIndex(s + [x], k) == |s|
    ensures x != k ==> k in s && LastIndex(s + [x], k) == LastIndex(s, k)
  {
    assert (s + [x])[..|s|] == s;
  }

  lemma AddKeysSnoc(keys: seq<string>, names: seq<string>, n: string)
    ensures AddKeys(keys, names + [n]) ==
      (var before := AddKeys(keys, names); if n in before then before else before + [n])
  {
    assert (names + [n])[..|names|] == names;
  }

  /** The object after `o[ks[0]] = vs[0]; o[ks[1]] = vs[1]; ...`. */
  function PutAll<V>(o: JsObject<V>, ks: seq<string>, vs: seq<V>): (r: JsObject<V>)
    requires o.Valid() && |ks| == |vs|
    ensures r.Valid()
    decreases |ks|
  {
    if ks == [] then o
    else PutAll(o, ks[..|ks| - 1], vs[..|vs| - 1]).Put(ks[|ks| - 1], vs[|vs| - 1])
  }

  lemma PutAllStep<V>(o: JsObject<V>, ks: seq<string>, i: nat, vs: seq<V>, v: V)
    requires o.Valid() && i < |ks| && |vs| == i
    ensures PutAll(o, ks[..i + 1], vs + [v]) == PutAll(o, ks[..i], vs).Put(ks[i], v)
  {
    assert ks[..i + 1][..i] == ks[..i];
    assert (vs + [v])[..i] == vs;
  }

  /** Assigning in order grows the key sequence as `AddKeys` says. */
  lemma {:induction false} PutAllKeys<V>(o: JsObject<V>, ks: seq<string>, vs: seq<V>)
    requires o.Valid() && |ks| == |vs|
    ensures PutAll(o, ks, vs).keys == AddKeys(o.keys, ks)
    decreases |ks|
  {
    if ks != [] {
      var n := |ks| - 1;
      PutAllKeys(o, ks[..n], vs[..n]);
      AddKeysSpec(o.keys, ks[..n]);
    }
  }

  /** Each assigned key holds the value of its last assignment. */
  lemma {:induction false} PutAllAssigned<V>(o: JsObject<V>, ks: seq<string>, vs: seq<V>)
    requires o.Valid() && |ks| == |vs|
    ensures forall k :: k in ks ==>
      k in PutAll(o, ks, vs).entries && PutAll(o, ks, vs).entries[k] == vs[LastIndex(ks, k)]
    decreases |ks|
  {
    if ks != [] {
      var n := |ks| - 1;
      var ks', vs' := ks[..n], vs[..n];
      PutAllAssigned(o, ks', vs');
      assert ks == ks' + [ks[n]];
      forall k | k in ks
        ensures k in PutAll(o, ks, vs).entries && PutAll(o, ks, vs).entries[k] == vs[LastIndex(ks, k)]
      {
        LastIndexSnoc(ks', ks[n], k);
      }
    }
  }

  /** Every key never assigned is as it was. */
  lemma {:induction false} PutAllUnassigned<V>(o: JsObject<V>, ks: seq<string>, vs: seq<V>)
    requires o.Valid() && |ks| == |vs|
    ensures forall k :: k !in ks ==>
      (k in PutAll(o, ks, vs).entries <==> k in o.entries)
      && (k in o.entries ==> PutAll(o, ks, vs).entries[k] == o.entries[k])
    decreases |ks|
  {
    if ks != [] {
      var n := |ks| - 1;
      PutAllUnassigned(o, ks[..n], vs[..n]);
      assert forall k :: k in ks[..n] ==> k in ks;
    }
  }

  /** Assigning in order: the key sequence grows as `AddKeys` says, each
      assigned key holds the value of its last assignment, and every other key
      is as it was. */
  lemma PutAllSpec<V>(o: JsObject<V>, ks: seq<string>, vs: seq<V>)
    requires o.Valid() && |ks| == |vs|
    ensures PutAll(o, ks, vs).keys == AddKeys(o.keys, ks)
    ensures forall k :: k in ks ==>
      k in PutAll(o, ks, vs).entries && PutAll(o, ks, vs).entries[k] == vs[LastIndex(ks, k)]
    ensures forall k :: k !in ks ==>
      (k in PutAll(o, ks, vs).entries <==> k in o.entries)
      && (k in o.entries ==> PutAll(o, ks, vs).entries[k] == o.entries[k])
  {
    PutAllKeys(o, ks, vs);
    PutAllAssigned(o, ks, vs);
    PutAllUnassigned(o, ks, vs);
  }

  /** Every value held after the assignments was held before or assigned. */
  lemma PutAllValues<V>(o: JsObject<V>, ks: seq<string>, vs: seq<V>)
    requires o.Valid() && |ks| == |vs|
    ensures forall v :: v in PutAll(o, ks, vs).entries.Values ==> v in o.entries.Values || v in vs
  {
    PutAllSpec(o, ks, vs);
    var r := PutAll(o, ks, vs);
    forall v | v in r.entries.Values
      ensures v in o.entries.Values || v in vs
    {
      var k :| k in r.entries && r.entries[k] == v;
      if k in ks {
        assert v == vs[LastIndex(ks, k)];
      } else {
        assert v == o.entries[k];
      }
    }
  }

  /** Assigning distinct values none of which the object already holds keeps it injective. */
  lemma PutAllInjective<V>(o: JsObject<V>, ks: seq<string>, vs: seq<V>)
    requires o.Valid() && Injective(o) && |ks| == |vs| && Distinct(vs)
    requires forall i :: 0 <= i < |vs| ==> vs[i] !in o.entries.Values
    ensures Injective(PutAll(o, ks, vs))
  {
    PutAllSpec(o, ks, vs);
    var r := PutAll(o, ks, vs);
    forall k1, k2 | k1 in r.entries && k2 in r.entries && k1 != k2
      ensures r.entries[k1] != r.entries[k2]
    {
      if k1 in ks && k2 in ks {
        assert ks[LastIndex(ks, k1)] != ks[LastIndex(ks, k2)];
      } else if k1 in ks {
        assert o.entries[k2] in o.entries.Values;
      } else if k2 in ks {
        assert o.entries[k1] in o.entries.Values;
      }
    }
  }
}
