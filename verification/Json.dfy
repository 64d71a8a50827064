/** The JSON values that cross the wire, with the Python readings of them that the sources rely on. */
module Json {
  import opened Basics

  datatype Value =
    | Null
    | Bool(b: bool)
    | Int(n: int)
    | Float(x: real)
    | Infinity(negative: bool)      // a number beyond all floats, as 1e999
    | Str(s: string)
    | Arr(items: seq<Value>)
    | Obj(fields: seq<Field>)

  /** One entry of an object, in insertion order. */
  datatype Field = Field(key: string, value: Value)

  type Dict = map<string, Value>

  /** An object read as a dictionary: a repeated key keeps its last value. */
  function ToDict(fields: seq<Field>): Dict
  {
    if fields == [] then map[]
    else ToDict(Init(fields))[Last(fields).key := Last(fields).value]
  }

  /** `dict.get`, on an object's entries; dictionaries hold a key once, so the first entry is the only one. */
  function Get(fields: seq<Field>, key: string): Option<Value>
  {
    if fields == [] then None
    else if fields[0].key == key then Some(fields[0].value)
    else Get(fields[1..], key)
  }

  /** Python truthiness. */
  predicate Truthy(v: Value)
  {
    match v
    case Null => false
    case Bool(b) => b
    case Int(n) => n != 0
    case Float(x) => x != 0.0
    case Infinity(_) => true
    case Str(s) => s != ""
    case Arr(items) => items != []
    case Obj(fields) => fields != []
  }

  predicate TruthyAt(d: Dict, key: string)
  {
    key in d && Truthy(d[key])
  }

  predicate Numeric(v: Value)
  {
    v.Bool? || v.Int? || v.Float?
  }

  function AsReal(v: Value): real
    requires Numeric(v)
  {
    match v
    case Bool(b) => if b then 1.0 else 0.0
    case Int(n) => n as real
    case Float(x) => x
  }

  /** Python `==`: booleans and integers compare as numbers, objects ignore the order of their entries. */
  predicate PyEq(a: Value, b: Value)
    decreases a
  {
    if Numeric(a) && Numeric(b) then AsReal(a) == AsReal(b)
    else match (a, b)
      case (Null, Null) => true
      case (Infinity(m), Infinity(n)) => m == n
      case (Str(s), Str(t)) => s == t
      case (Arr(xs), Arr(ys)) =>
        |xs| == |ys| && forall i :: 0 <= i < |xs| ==> PyEq(xs[i], ys[i])
      case (Obj(fs), Obj(gs)) =>
        && |fs| == |gs|
        && forall i :: 0 <= i < |fs| ==>
             Get(gs, fs[i].key).Some? && PyEq(fs[i].value, Get(gs, fs[i].key).value)
      case _ => false
  }

  // ---- what these readings mean -----------------------------------------------------------------

  /** Everything is true but Python's seven false values. */
  lemma TruthyIff(v: Value)
    ensures Truthy(v) <==> v != Null && v != Bool(false) && v != Int(0) && v != Float(0.0) && v != Str("") && v != Arr([]) && v != Obj([])
  {}

  ghost predicate DistinctKeys(fields: seq<Field>)
  {
    forall i, j :: 0 <= i < j < |fields| ==> fields[i].key != fields[j].key
  }

  lemma {:induction false} GetMeaning(fields: seq<Field>, key: string)
    requires DistinctKeys(fields)
    ensures forall v :: Get(fields, key) == Some(v) <==> Field(key, v) in fields
  {
    if fields != [] {
      GetMeaning(fields[1..], key);
      forall v ensures Get(fields, key) == Some(v) <==> Field(key, v) in fields {
        if Field(key, v) in fields {
          var i :| 0 <= i < |fields| && fields[i] == Field(key, v);
          if i > 0 { assert fields[1..][i - 1] == fields[i]; }
        }
        assert Field(key, v) in fields[1..] ==> Field(key, v) in fields;
      }
    }
  }

  /** An object with distinct keys, read as a dictionary, has every entry and no other. */
  lemma {:induction false} ToDictMeaning(fields: seq<Field>, key: string)
    requires DistinctKeys(fields)
    ensures forall v :: (key in ToDict(fields) && ToDict(fields)[key] == v) <==> Field(key, v) in fields
    decreases |fields|
  {
    if fields != [] {
      ToDictMeaning(Init(fields), key);
      var last := Last(fields);
      assert forall i :: 0 <= i < |Init(fields)| ==> Init(fields)[i].key != fields[|fields| - 1].key;
      assert forall v :: Field(key, v) in fields <==> Field(key, v) in Init(fields) || Field(key, v) == last;
    }
  }

  /** Plain values are equal when they are the same, or numbers of one value; plain and nested never are. */
  lemma PyEqOnPlain(a: Value, b: Value)
    requires !a.Arr? && !a.Obj?
    ensures PyEq(a, b) <==> a == b || (Numeric(a) && Numeric(b) && AsReal(a) == AsReal(b))
  {}

  lemma NumbersAreEqual(n: int, b: bool)
    ensures PyEq(Int(n), Float(n as real)) && PyEq(Float(n as real), Int(n)) && (PyEq(Bool(b), Int(n)) <==> n == if b then 1 else 0)
  {}

  /** Arrays are equal entry by entry; objects when each entry of one is in the other, and none is left over. */
  lemma PyEqOnNested(a: Value, b: Value)
    ensures a.Arr? ==> (PyEq(a, b) <==> b.Arr? && |a.items| == |b.items| && forall i :: 0 <= i < |a.items| ==> PyEq(a.items[i], b.items[i]))
    ensures a.Obj? ==> (PyEq(a, b) <==> b.Obj? && |a.fields| == |b.fields| && forall i :: 0 <= i < |a.fields| ==>
              Get(b.fields, a.fields[i].key).Some? && PyEq(a.fields[i].value, Get(b.fields, a.fields[i].key).value))
  {}

  /** No entry of the value has a key twice, at any depth. */
  ghost predicate WellKeyed(v: Value)
  {
    match v
    case Arr(items) => forall i :: 0 <= i < |items| ==> WellKeyed(items[i])
    case Obj(fields) => DistinctKeys(fields) && forall i :: 0 <= i < |fields| ==> WellKeyed(fields[i].value)
    case _ => true
  }

  /** Every value equals itself. */
  lemma {:induction false} PyEqIsReflexive(v: Value)
    requires WellKeyed(v)
    ensures PyEq(v, v)
  {
    match v
    case Arr(items) => forall i | 0 <= i < |items| ensures PyEq(items[i], items[i]) { PyEqIsReflexive(items[i]); }
    case Obj(fields) =>
      forall i | 0 <= i < |fields|
        ensures Get(fields, fields[i].key).Some? && PyEq(fields[i].value, Get(fields, fields[i].key).value)
      {
        GetMeaning(fields, fields[i].key);
        assert Field(fields[i].key, fields[i].value) in fields;
        PyEqIsReflexive(fields[i].value);
      }
    case _ =>
  }
}
