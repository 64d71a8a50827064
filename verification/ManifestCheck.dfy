/** The subset validator: which faults it finds in a value under a schema. */
module ManifestCheck {
  import opened Basics
  import opened Json
  import opened Decimals

  datatype Declared = NoType | OneType(name: string) | SomeTypes(names: seq<string>)

  datatype Additional = Anything | Forbidden | Held(schema: Schema)

  datatype Property = Property(name: string, schema: Schema)

  /** A schema, keyword by keyword; an absent `required` is an empty one. */
  datatype Schema = Schema(
    ref: Option<string>,
    constant: Option<Value>,
    enumeration: Option<seq<Value>>,
    declared: Declared,
    pattern: Option<string>,
    required: seq<string>,
    properties: Option<seq<Property>>,
    additional: Additional,
    items: Option<Schema>)

  /** The root's `$defs`, and regular-expression search, which is left open. */
  datatype Root = Root(defs: map<string, Schema>, search: (string, string) -> bool)

  datatype Complaint =
    | UnresolvableRef(ref: string)
    | ConstMismatch
    | NotInEnum
    | WrongType
    | NoPatternMatch
    | MissingRequired(name: string)
    | NotAllowed(key: string)

  datatype Fault = Fault(path: string, complaint: Complaint)

  // ---- references -------------------------------------------------------------------------------

  const LOCAL := "#/$defs/"

  /** Where a chain of references ends. */
  datatype Target = Found(schema: Schema) | Unresolvable(ref: string) | External | Endless

  function LastPart(ref: string): string
  {
    if ref == [] || Last(ref) == '/' then [] else LastPart(Init(ref)) + [Last(ref)]
  }

  /** A schema that refers is its target; coming by the same name twice, the chain never ends. */
  function Resolve(defs: map<string, Schema>, s: Schema, passed: set<string>): (t: Target)
    ensures t.Found? ==> t.schema.ref.None?
    decreases |defs.Keys - passed|
  {
    match s.ref
    case None => Found(s)
    case Some(ref) =>
      if !(LOCAL <= ref) then External
      else
        var name := LastPart(ref);
        if name !in defs then Unresolvable(ref)
        else if name in passed then Endless
        else
          assert defs.Keys - passed == (defs.Keys - (passed + {name})) + {name};
          Resolve(defs, defs[name], passed + {name})
  }

  // ---- types ------------------------------------------------------------------------------------

  /** A boolean is no number, and an unknown type name matches nothing. */
  predicate IsType(v: Value, name: string)
  {
    if name == "null" then v.Null?
    else if name == "object" then v.Obj?
    else if name == "array" then v.Arr?
    else if name == "string" then v.Str?
    else if name == "number" then v.Int? || v.Float? || v.Infinity?
    else if name == "integer" then v.Int?
    else if name == "boolean" then v.Bool?
    else false
  }

  predicate IsOneOf(v: Value, names: seq<string>)
  {
    exists i :: 0 <= i < |names| && IsType(v, names[i])
  }

  /** A declaration that is empty declares nothing. */
  predicate TypeFits(v: Value, d: Declared)
  {
    match d
    case NoType => true
    case OneType(name) => name == "" || IsType(v, name)
    case SomeTypes(names) => names == [] || IsOneOf(v, names)
  }

  // ---- objects ----------------------------------------------------------------------------------

  function PropertyOf(properties: seq<Property>, name: string): Option<Schema>
  {
    if properties == [] then None
    else if properties[0].name == name then Some(properties[0].schema)
    else PropertyOf(properties[1..], name)
  }

  predicate HasKey(fields: seq<Field>, key: string)
  {
    exists i :: 0 <= i < |fields| && fields[i].key == key
  }

  /** Properties are looked at only under a schema that says it is one of objects. */
  predicate Governs(s: Schema)
  {
    s.declared == OneType("object") || s.properties.Some?
  }

  datatype Rule = Free | Refused | Under(schema: Schema)

  function RuleFor(s: Schema, key: string): Rule
  {
    if !Governs(s) then Free
    else
      var p := if s.properties.Some? then PropertyOf(s.properties.value, key) else None;
      if p.Some? then Under(p.value)
      else match s.additional
        case Anything => Free
        case Forbidden => Refused
        case Held(h) => Under(h)
  }

  // ---- conformance ------------------------------------------------------------------------------

  predicate InEnum(v: Value, allowed: seq<Value>)
  {
    exists i :: 0 <= i < |allowed| && PyEq(v, allowed[i])
  }

  /** The keywords that look at the value as a whole. */
  predicate ValueConforms(root: Root, v: Value, s: Schema)
  {
    && (s.constant.Some? ==> PyEq(v, s.constant.value))
    && (s.enumeration.Some? ==> InEnum(v, s.enumeration.value))
    && TypeFits(v, s.declared)
    && (s.pattern.Some? && v.Str? ==> root.search(s.pattern.value, v.s))
    && (v.Obj? ==> forall i :: 0 <= i < |s.required| ==> HasKey(v.fields, s.required[i]))
  }

  /**
    What it means to conform: a reference stands for its target, an external one demands nothing, and a
    value conforms with all its parts.
   */
  predicate Conforms(root: Root, v: Value, schema: Schema)
    decreases v
  {
    match Resolve(root.defs, schema, {})
    case External => true
    case Unresolvable(_) => false
    case Endless => false
    case Found(s) =>
      && ValueConforms(root, v, s)
      && (v.Obj? ==> forall i :: 0 <= i < |v.fields| ==>
            var rule := RuleFor(s, v.fields[i].key);
            !rule.Refused? && (rule.Under? ==> Conforms(root, v.fields[i].value, rule.schema)))
      && (v.Arr? && s.items.Some? ==> forall i :: 0 <= i < |v.items| ==> Conforms(root, v.items[i], s.items.value))
  }

  // ---- faults -----------------------------------------------------------------------------------

  /** NeverEnds: the check went round in references and raised. */
  datatype Outcome = Faults(list: seq<Fault>) | NeverEnds

  function Then(a: Outcome, b: Outcome): Outcome
  {
    if a.Faults? && b.Faults? then Faults(a.list + b.list) else NeverEnds
  }

  function Complain(here: bool, path: string, c: Complaint): seq<Fault>
  {
    if here then [Fault(path, c)] else []
  }

  function Missing(fields: seq<Field>, required: seq<string>, path: string): seq<Fault>
    decreases |required|
  {
    if required == [] then []
    else Missing(fields, Init(required), path) + Complain(!HasKey(fields, Last(required)), path, MissingRequired(Last(required)))
  }

  function ValueFaults(v: Value, s: Schema, path: string): seq<Fault>
  {
    Complain(s.constant.Some? && !PyEq(v, s.constant.value), path, ConstMismatch)
    + Complain(s.enumeration.Some? && !InEnum(v, s.enumeration.value), path, NotInEnum)
  }

  function ShapeFaults(root: Root, v: Value, s: Schema, path: string): seq<Fault>
  {
    Complain(s.pattern.Some? && v.Str? && !root.search(s.pattern.value, v.s), path, NoPatternMatch)
    + if v.Obj? then Missing(v.fields, s.required, path) else []
  }

  /** `_check`: the faults of a value, a wrong type ending the search. */
  function Check(root: Root, v: Value, schema: Schema, path: string): Outcome
    decreases v, 2, 0
  {
    match Resolve(root.defs, schema, {})
    case External => Faults([])
    case Unresolvable(ref) => Faults([Fault(path, UnresolvableRef(ref))])
    case Endless => NeverEnds
    case Found(s) => CheckUnder(root, v, s, path)
  }

  /** The faults under a schema that is no reference. */
  function CheckUnder(root: Root, v: Value, s: Schema, path: string): Outcome
    decreases v, 1, 0
  {
    if !TypeFits(v, s.declared) then Faults(ValueFaults(v, s, path) + [Fault(path, WrongType)])
    else
      var own := Faults(ValueFaults(v, s, path) + ShapeFaults(root, v, s, path));
      match v
      case Obj(fields) => Then(own, FieldsCheck(root, v, s, path, |fields|))
      case Arr(items) => if s.items.Some? then Then(own, ItemsCheck(root, v, s.items.value, path, |items|)) else own
      case _ => own
  }

  /** The faults of entry `i`. */
  function FieldCheck(root: Root, v: Value, s: Schema, path: string, i: nat): Outcome
    requires v.Obj? && i < |v.fields|
    decreases v, 0, 0
  {
    match RuleFor(s, v.fields[i].key)
    case Free => Faults([])
    case Refused => Faults([Fault(path, NotAllowed(v.fields[i].key))])
    case Under(t) => Check(root, v.fields[i].value, t, path + "." + v.fields[i].key)
  }

  /** The faults of the first `n` entries. */
  function FieldsCheck(root: Root, v: Value, s: Schema, path: string, n: nat): Outcome
    requires v.Obj? && n <= |v.fields|
    decreases v, 0, n + 1
  {
    if n == 0 then Faults([]) else Then(FieldsCheck(root, v, s, path, n - 1), FieldCheck(root, v, s, path, n - 1))
  }

  /** The faults of the first `n` items. */
  function ItemsCheck(root: Root, v: Value, items: Schema, path: string, n: nat): Outcome
    requires v.Arr? && n <= |v.items|
    decreases v, 0, n
  {
    if n == 0 then Faults([])
    else Then(ItemsCheck(root, v, items, path, n - 1), Check(root, v.items[n - 1], items, path + "[" + Decimal(n - 1) + "]"))
  }

  /** The list of errors a check appends to. */
  class Report {
    var faults: seq<Fault>

    constructor ()
      ensures faults == []
    {
      faults := [];
    }

    method Add(path: string, c: Complaint)
      modifies this
      ensures faults == old(faults) + [Fault(path, c)]
    {
      faults := faults + [Fault(path, c)];
    }
  }

  method FindValueFaults(v: Value, s: Schema, path: string, report: Report)
    modifies report
    ensures report.faults == old(report.faults) + ValueFaults(v, s, path)
  {
    if s.constant.Some? && !PyEq(v, s.constant.value) {
      report.Add(path, ConstMismatch);
    }
    if s.enumeration.Some? && !InEnum(v, s.enumeration.value) {
      report.Add(path, NotInEnum);
    }
  }

  method FindShapeFaults(root: Root, v: Value, s: Schema, path: string, report: Report)
    modifies report
    ensures report.faults == old(report.faults) + ShapeFaults(root, v, s, path)
  {
    if s.pattern.Some? && v.Str? && !root.search(s.pattern.value, v.s) {
      report.Add(path, NoPatternMatch);
    }
    if v.Obj? {
      ghost var before := report.faults;
      for i := 0 to |s.required|
        invariant report.faults == before + Missing(v.fields, s.required[..i], path)
      {
        assert Init(s.required[..i + 1]) == s.required[..i];
        if !HasKey(v.fields, s.required[i]) {
          report.Add(path, MissingRequired(s.required[i]));
        }
      }
      assert s.required[..|s.required|] == s.required;
    }
  }

  /** Appends the faults of `v`; not `ended` when references went round. */
  method FindFaults(root: Root, v: Value, schema: Schema, path: string, report: Report) returns (ended: bool)
    modifies report
    ensures ended <==> Check(root, v, schema, path).Faults?
    ensures ended ==> report.faults == old(report.faults) + Check(root, v, schema, path).list
    decreases v, 2
  {
    var target := Resolve(root.defs, schema, {});
    match target
    case External => return true;
    case Unresolvable(ref) =>
      report.Add(path, UnresolvableRef(ref));
      return true;
    case Endless => return false;
    case Found(s) => ended := FindFaultsUnder(root, v, s, path, report);
  }

  method FindFaultsUnder(root: Root, v: Value, s: Schema, path: string, report: Report) returns (ended: bool)
    modifies report
    ensures ended <==> CheckUnder(root, v, s, path).Faults?
    ensures ended ==> report.faults == old(report.faults) + CheckUnder(root, v, s, path).list
    decreases v, 1
  {
    ghost var was, own := report.faults, ValueFaults(v, s, path) + ShapeFaults(root, v, s, path);
    FindValueFaults(v, s, path, report);
    if !TypeFits(v, s.declared) {
      report.Add(path, WrongType);
      return true;
    }
    FindShapeFaults(root, v, s, path, report);
    assert report.faults == was + own;
    ended := true;
    if v.Obj? {
      ended := FindFieldFaults(root, v, s, path, report);
      if ended { Associate(was, own, FieldsCheck(root, v, s, path, |v.fields|).list); }
    } else if v.Arr? && s.items.Some? {
      ended := FindItemFaults(root, v, s.items.value, path, report);
      if ended { Associate(was, own, ItemsCheck(root, v, s.items.value, path, |v.items|).list); }
    }
  }

  method FindFieldFaults(root: Root, v: Value, s: Schema, path: string, report: Report) returns (ended: bool)
    requires v.Obj?
    modifies report
    ensures ended <==> FieldsCheck(root, v, s, path, |v.fields|).Faults?
    ensures ended ==> report.faults == old(report.faults) + FieldsCheck(root, v, s, path, |v.fields|).list
    decreases v, 0
  {
    ghost var was := report.faults;
    for i := 0 to |v.fields|
      invariant FieldsCheck(root, v, s, path, i).Faults?
      invariant report.faults == was + FieldsCheck(root, v, s, path, i).list
    {
      var f := v.fields[i];
      var rule := RuleFor(s, f.key);
      ghost var before := FieldsCheck(root, v, s, path, i).list;
      if rule.Refused? {
        Associate(was, before, [Fault(path, NotAllowed(f.key))]);
        report.Add(path, NotAllowed(f.key));
      } else if rule.Under? {
        var more := FindFaults(root, f.value, rule.schema, path + "." + f.key, report);
        if !more {
          FieldsNeverEnd(root, v, s, path, i + 1, |v.fields|);
          return false;
        }
        Associate(was, before, Check(root, f.value, rule.schema, path + "." + f.key).list);
      }
    }
    ended := true;
  }

  method FindItemFaults(root: Root, v: Value, items: Schema, path: string, report: Report) returns (ended: bool)
    requires v.Arr?
    modifies report
    ensures ended <==> ItemsCheck(root, v, items, path, |v.items|).Faults?
    ensures ended ==> report.faults == old(report.faults) + ItemsCheck(root, v, items, path, |v.items|).list
    decreases v, 0
  {
    ghost var was := report.faults;
    for i := 0 to |v.items|
      invariant ItemsCheck(root, v, items, path, i).Faults?
      invariant report.faults == was + ItemsCheck(root, v, items, path, i).list
    {
      ghost var before := ItemsCheck(root, v, items, path, i).list;
      var at := path + "[" + Decimal(i) + "]";
      var more := FindFaults(root, v.items[i], items, at, report);
      if !more {
        ItemsNeverEnd(root, v, items, path, i + 1, |v.items|);
        return false;
      }
      Associate(was, before, Check(root, v.items[i], items, at).list);
    }
    ended := true;
  }

  lemma {:induction false} FieldsNeverEnd(root: Root, v: Value, s: Schema, path: string, i: nat, n: nat)
    requires v.Obj? && i <= n <= |v.fields| && FieldsCheck(root, v, s, path, i).NeverEnds?
    ensures FieldsCheck(root, v, s, path, n).NeverEnds?
  {
    if i < n { FieldsNeverEnd(root, v, s, path, i, n - 1); }
  }

  lemma {:induction false} ItemsNeverEnd(root: Root, v: Value, items: Schema, path: string, i: nat, n: nat)
    requires v.Arr? && i <= n <= |v.items| && ItemsCheck(root, v, items, path, i).NeverEnds?
    ensures ItemsCheck(root, v, items, path, n).NeverEnds?
  {
    if i < n { ItemsNeverEnd(root, v, items, path, i, n - 1); }
  }

  /** `validate_manifest`, for any schema: None when the check raises. */
  method Validate(root: Root, v: Value, schema: Schema) returns (faults: Option<seq<Fault>>)
    ensures faults.Some? <==> Check(root, v, schema, "$").Faults?
    ensures faults.Some? ==> faults.value == Check(root, v, schema, "$").list
    ensures faults == Some([]) <==> Conforms(root, v, schema)
  {
    var report := new Report();
    var ended := FindFaults(root, v, schema, "$", report);
    NoFaultsIffConforms(root, v, schema, "$");
    if !ended {
      return None;
    }
    faults := Some(report.faults);
  }

  // ---- no faults means conforming ---------------------------------------------------------------

  lemma {:induction false} MissingIff(fields: seq<Field>, required: seq<string>, path: string)
    ensures Missing(fields, required, path) == [] <==> forall i :: 0 <= i < |required| ==> HasKey(fields, required[i])
    decreases |required|
  {
    if required != [] {
      MissingIff(fields, Init(required), path);
      assert forall i :: 0 <= i < |required| - 1 ==> required[i] == Init(required)[i];
    }
  }

  lemma {:induction false} FieldsIff(root: Root, v: Value, s: Schema, path: string, n: nat)
    requires v.Obj? && n <= |v.fields|
    ensures FieldsCheck(root, v, s, path, n) == Faults([]) <==>
            forall i :: 0 <= i < n ==>
              var rule := RuleFor(s, v.fields[i].key);
              !rule.Refused? && (rule.Under? ==> Conforms(root, v.fields[i].value, rule.schema))
    decreases v, 0, n + 1
  {
    if n > 0 {
      FieldsIff(root, v, s, path, n - 1);
      FieldIff(root, v, s, path, n - 1);
      ThenIff(FieldsCheck(root, v, s, path, n - 1), FieldCheck(root, v, s, path, n - 1));
    }
  }

  lemma {:induction false} FieldIff(root: Root, v: Value, s: Schema, path: string, i: nat)
    requires v.Obj? && i < |v.fields|
    ensures var rule := RuleFor(s, v.fields[i].key);
            FieldCheck(root, v, s, path, i) == Faults([]) <==>
            !rule.Refused? && (rule.Under? ==> Conforms(root, v.fields[i].value, rule.schema))
    decreases v, 0, 0
  {
    var f := v.fields[i];
    var rule := RuleFor(s, f.key);
    if rule.Under? { NoFaultsIffConforms(root, f.value, rule.schema, path + "." + f.key); }
  }

  lemma ThenIff(a: Outcome, b: Outcome)
    ensures Then(a, b) == Faults([]) <==> a == Faults([]) && b == Faults([])
  {}

  lemma OwnIff(root: Root, v: Value, s: Schema, path: string)
    requires TypeFits(v, s.declared)
    ensures ValueFaults(v, s, path) + ShapeFaults(root, v, s, path) == [] <==> ValueConforms(root, v, s)
  {
    if v.Obj? { MissingIff(v.fields, s.required, path); }
    var (a, b) := (ValueFaults(v, s, path), ShapeFaults(root, v, s, path));
    assert a + b == [] <==> a == [] && b == [];
  }

  lemma {:induction false} ItemsIff(root: Root, v: Value, items: Schema, path: string, n: nat)
    requires v.Arr? && n <= |v.items|
    ensures ItemsCheck(root, v, items, path, n) == Faults([]) <==> forall i :: 0 <= i < n ==> Conforms(root, v.items[i], items)
    decreases v, 0, n
  {
    if n > 0 {
      ItemsIff(root, v, items, path, n - 1);
      NoFaultsIffConforms(root, v.items[n - 1], items, path + "[" + Decimal(n - 1) + "]");
    }
  }

  /** The check finds nothing exactly in the values that conform. */
  lemma {:induction false} NoFaultsIffConforms(root: Root, v: Value, schema: Schema, path: string)
    ensures Check(root, v, schema, path) == Faults([]) <==> Conforms(root, v, schema)
    decreases v, 1, 0
  {
    var target := Resolve(root.defs, schema, {});
    if target.Found? && TypeFits(v, target.schema.declared) {
      var s := target.schema;
      OwnIff(root, v, s, path);
      var own := Faults(ValueFaults(v, s, path) + ShapeFaults(root, v, s, path));
      if v.Obj? {
        FieldsIff(root, v, s, path, |v.fields|);
        ThenIff(own, FieldsCheck(root, v, s, path, |v.fields|));
      } else if v.Arr? && s.items.Some? {
        ItemsIff(root, v, s.items.value, path, |v.items|);
        ThenIff(own, ItemsCheck(root, v, s.items.value, path, |v.items|));
      }
    }
  }

  // ---- references that end ----------------------------------------------------------------------

  /** Local references go down in rank. */
  ghost predicate Acyclic(defs: map<string, Schema>, rank: string -> nat)
  {
    forall name :: name in defs && defs[name].ref.Some? && LOCAL <= defs[name].ref.value ==>
      rank(LastPart(defs[name].ref.value)) < rank(name)
  }

  lemma {:induction false} ChainsEnd(defs: map<string, Schema>, rank: string -> nat, s: Schema, passed: set<string>)
    requires Acyclic(defs, rank)
    requires s.ref.Some? && LOCAL <= s.ref.value ==> forall name :: name in passed ==> rank(LastPart(s.ref.value)) < rank(name)
    ensures !Resolve(defs, s, passed).Endless?
    decreases |defs.Keys - passed|
  {
    if s.ref.Some? && LOCAL <= s.ref.value {
      var name := LastPart(s.ref.value);
      if name in defs {
        assert name !in passed;
        assert defs.Keys - passed == (defs.Keys - (passed + {name})) + {name};
        ChainsEnd(defs, rank, defs[name], passed + {name});
      }
    }
  }

  /** With acyclic local references the check always ends, on every value. */
  lemma {:induction false} CheckEnds(root: Root, rank: string -> nat, v: Value, schema: Schema, path: string)
    requires Acyclic(root.defs, rank)
    ensures Check(root, v, schema, path).Faults?
    decreases v, 1, 0
  {
    ChainsEnd(root.defs, rank, schema, {});
    var target := Resolve(root.defs, schema, {});
    if target.Found? {
      var s := target.schema;
      match v
      case Obj(fields) => FieldsEnd(root, rank, v, s, path, |fields|);
      case Arr(items) => if s.items.Some? { ItemsEnd(root, rank, v, s.items.value, path, |items|); }
      case _ =>
    }
  }

  lemma {:induction false} FieldsEnd(root: Root, rank: string -> nat, v: Value, s: Schema, path: string, n: nat)
    requires Acyclic(root.defs, rank) && v.Obj? && n <= |v.fields|
    ensures FieldsCheck(root, v, s, path, n).Faults?
    decreases v, 0, n
  {
    if n > 0 {
      FieldsEnd(root, rank, v, s, path, n - 1);
      var f := v.fields[n - 1];
      var rule := RuleFor(s, f.key);
      if rule.Under? { CheckEnds(root, rank, f.value, rule.schema, path + "." + f.key); }
    }
  }

  lemma {:induction false} ItemsEnd(root: Root, rank: string -> nat, v: Value, items: Schema, path: string, n: nat)
    requires Acyclic(root.defs, rank) && v.Arr? && n <= |v.items|
    ensures ItemsCheck(root, v, items, path, n).Faults?
    decreases v, 0, n
  {
    if n > 0 {
      ItemsEnd(root, rank, v, items, path, n - 1);
      CheckEnds(root, rank, v.items[n - 1], items, path + "[" + Decimal(n - 1) + "]");
    }
  }

  // ---- references that do not -------------------------------------------------------------------

  /** How many local references a chain takes. */
  function Length(defs: map<string, Schema>, s: Schema, passed: set<string>): nat
    decreases |defs.Keys - passed|
  {
    if s.ref.None? || !(LOCAL <= s.ref.value) then 0
    else
      var name := LastPart(s.ref.value);
      if name !in defs || name in passed then 1
      else
        assert defs.Keys - passed == (defs.Keys - (passed + {name})) + {name};
        1 + Length(defs, defs[name], passed + {name})
  }

  /** A chain that ends is the same chain, whatever was passed before it. */
  lemma {:induction false} PassedMattersNot(defs: map<string, Schema>, s: Schema, passed: set<string>, fewer: set<string>)
    requires fewer <= passed && !Resolve(defs, s, passed).Endless?
    ensures Resolve(defs, s, fewer) == Resolve(defs, s, passed) && Length(defs, s, fewer) == Length(defs, s, passed)
    decreases |defs.Keys - passed|
  {
    if s.ref.Some? && LOCAL <= s.ref.value {
      var name := LastPart(s.ref.value);
      if name in defs {
        assert defs.Keys - passed == (defs.Keys - (passed + {name})) + {name};
        PassedMattersNot(defs, defs[name], passed + {name}, fewer + {name});
      }
    }
  }

  function Ranking(defs: map<string, Schema>): string -> nat
  {
    name => if name in defs then Length(defs, defs[name], {}) else 0
  }

  lemma EndingIsRanked(defs: map<string, Schema>)
    requires forall name :: name in defs ==> !Resolve(defs, defs[name], {}).Endless?
    ensures Acyclic(defs, Ranking(defs))
  {
    var rank := Ranking(defs);
    forall name | name in defs && defs[name].ref.Some? && LOCAL <= defs[name].ref.value
      ensures rank(LastPart(defs[name].ref.value)) < rank(name)
    {
      var next := LastPart(defs[name].ref.value);
      if next in defs {
        assert {} + {next} == {next};
        PassedMattersNot(defs, defs[next], {next}, {});
      }
    }
  }

  /** Chains of local references all end exactly when the definitions can be ranked so that references go down. */
  lemma ChainsEndIff(defs: map<string, Schema>)
    ensures (forall name :: name in defs ==> !Resolve(defs, defs[name], {}).Endless?) <==> exists rank :: Acyclic(defs, rank)
  {
    if forall name :: name in defs ==> !Resolve(defs, defs[name], {}).Endless? {
      EndingIsRanked(defs);
    }
    if rank :| Acyclic(defs, rank) {
      forall name | name in defs ensures !Resolve(defs, defs[name], {}).Endless? {
        ChainsEnd(defs, rank, defs[name], {});
      }
    }
  }

  /** A definition that refers to itself, as the shortest such chain: the check of anything under it goes round. */
  lemma SelfReferenceNeverEnds(root: Root, name: string, v: Value, path: string)
    requires name in root.defs && root.defs[name].ref.Some?
    requires LOCAL <= root.defs[name].ref.value && LastPart(root.defs[name].ref.value) == name
    ensures Check(root, v, root.defs[name], path).NeverEnds? && !Conforms(root, v, root.defs[name])
  {
    var s := root.defs[name];
    assert Resolve(root.defs, s, {name}).Endless?;
    assert {} + {name} == {name};
    assert Resolve(root.defs, s, {}) == Resolve(root.defs, s, {name});
  }

  ghost predicate AlwaysEnds(root: Root)
  {
    forall v, schema, path :: Check(root, v, schema, path).Faults?
  }

  /** The check ends on every value under every schema exactly when the local references are acyclic. */
  lemma CheckEndsIff(root: Root)
    ensures AlwaysEnds(root) <==> exists rank :: Acyclic(root.defs, rank)
  {
    ChainsEndIff(root.defs);
    if AlwaysEnds(root) {
      forall name | name in root.defs ensures !Resolve(root.defs, root.defs[name], {}).Endless? {
        assert Check(root, Null, root.defs[name], "$").Faults?;
      }
    }
    if rank :| Acyclic(root.defs, rank) {
      forall v, schema, path ensures Check(root, v, schema, path).Faults? {
        CheckEnds(root, rank, v, schema, path);
      }
    }
  }
}
