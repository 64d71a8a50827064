/** What the subset validator demands and reports, keyword by keyword. */
module ManifestMeaning {
  import opened Basics
  import opened Json
  import opened Decimals
  import opened ManifestCheck

  // ---- types ------------------------------------------------------------------------------------

  /** The type names, each for its own values: a boolean is no number, and whatever else is named has none. */
  lemma TypesAreToldApart(v: Value, name: string)
    ensures IsType(v, "null") <==> v == Null
    ensures IsType(v, "object") <==> v.Obj?
    ensures IsType(v, "array") <==> v.Arr?
    ensures IsType(v, "string") <==> v.Str?
    ensures IsType(v, "boolean") <==> v.Bool?
    ensures IsType(v, "integer") <==> v.Int?
    ensures IsType(v, "number") <==> !v.Null? && !v.Obj? && !v.Arr? && !v.Str? && !v.Bool?
    ensures IsType(v, name) ==> name in {"null", "object", "array", "string", "boolean", "integer", "number"}
  {}

  // ---- objects ----------------------------------------------------------------------------------

  /** The first property of that name. */
  predicate Declares(s: Schema, name: string, t: Schema)
  {
    s.properties.Some? && exists i :: 0 <= i < |s.properties.value| && s.properties.value[i] == Property(name, t)
                                      && forall j :: 0 <= j < i ==> s.properties.value[j].name != name
  }

  predicate Names(s: Schema, name: string)
  {
    s.properties.Some? && exists i :: 0 <= i < |s.properties.value| && s.properties.value[i].name == name
  }

  /** Entries are looked at under a schema of objects only: one that says so, or that lists properties. */
  predicate OfObjects(s: Schema)
  {
    s.declared == OneType("object") || s.properties.Some?
  }

  lemma {:induction false} PropertyMeaning(ps: seq<Property>, name: string) returns (i: nat)
    ensures i <= |ps| && forall j :: 0 <= j < i ==> ps[j].name != name
    ensures PropertyOf(ps, name).None? <==> i == |ps|
    ensures i < |ps| ==> ps[i].name == name && PropertyOf(ps, name) == Some(ps[i].schema)
  {
    i := 0;
    if ps != [] && ps[0].name != name {
      var k := PropertyMeaning(ps[1..], name);
      i := k + 1;
      assert forall j :: 0 < j < i ==> ps[j] == ps[1..][j - 1];
    }
  }

  /** The schema an entry is held to, if any. */
  predicate HeldTo(s: Schema, name: string, t: Schema)
  {
    OfObjects(s) && (Declares(s, name, t) || (!Names(s, name) && s.additional == Held(t)))
  }

  /** The entry is one too many. */
  predicate TooMany(s: Schema, name: string)
  {
    OfObjects(s) && !Names(s, name) && s.additional == Forbidden
  }

  lemma RulesAre(s: Schema, name: string)
    ensures RuleFor(s, name).Refused? <==> TooMany(s, name)
    ensures forall t :: RuleFor(s, name) == Under(t) <==> HeldTo(s, name, t)
  {
    if s.properties.Some? {
      var i := PropertyMeaning(s.properties.value, name);
      if i < |s.properties.value| { assert Declares(s, name, s.properties.value[i].schema); }
    }
  }

  // ---- conformance ------------------------------------------------------------------------------

  /** The entry `f` does nothing that is forbidden, and its value conforms to what it is held to. */
  ghost predicate EntryConforms(root: Root, f: Field, s: Schema)
  {
    !TooMany(s, f.key) && forall t :: HeldTo(s, f.key, t) ==> Conforms(root, f.value, t)
  }

  /** An object conforms exactly when it does as a whole, and every entry conforms. */
  lemma ObjectConformsIff(root: Root, fields: seq<Field>, s: Schema)
    requires s.ref.None?
    ensures Conforms(root, Obj(fields), s) <==>
            ValueConforms(root, Obj(fields), s) && forall i :: 0 <= i < |fields| ==> EntryConforms(root, fields[i], s)
  {
    var v := Obj(fields);
    assert Resolve(root.defs, s, {}) == Found(s);
    forall i | 0 <= i < |fields|
      ensures EntryConforms(root, fields[i], s) <==>
              var rule := RuleFor(s, v.fields[i].key);
              !rule.Refused? && (rule.Under? ==> Conforms(root, v.fields[i].value, rule.schema))
    {
      EntryConformsIff(root, fields[i], s);
    }
  }

  lemma EntryConformsIff(root: Root, f: Field, s: Schema)
    ensures EntryConforms(root, f, s) <==>
            var rule := RuleFor(s, f.key);
            !rule.Refused? && (rule.Under? ==> Conforms(root, f.value, rule.schema))
  {
    RulesAre(s, f.key);
  }

  /** Where further properties are forbidden, a conforming object has none but those listed. */
  lemma NothingBesideTheListed(root: Root, fields: seq<Field>, s: Schema, i: nat)
    requires s.ref.None? && s.additional == Forbidden && OfObjects(s)
    requires Conforms(root, Obj(fields), s) && i < |fields|
    ensures Names(s, fields[i].key)
  {
    ObjectConformsIff(root, fields, s);
    assert EntryConforms(root, fields[i], s);
  }

  // ---- references -------------------------------------------------------------------------------

  /** The reference names a definition of the schema itself: the text behind its last slash. */
  ghost predicate Local(ref: string, name: string)
  {
    "#/$defs/" <= ref && '/' !in name && exists front :: IsPath(ref, front, name)
  }

  predicate IsPath(ref: string, front: string, name: string)
  {
    ref == front + "/" + name
  }

  /** Each schema refers to the definition that comes next. */
  ghost predicate Linked(defs: map<string, Schema>, chain: seq<Schema>, names: seq<string>)
  {
    && |chain| == |names| + 1
    && forall i :: 0 <= i < |names| ==>
         chain[i].ref.Some? && Local(chain[i].ref.value, names[i]) && names[i] in defs && defs[names[i]] == chain[i + 1]
  }

  /** Where the chain comes to an end, or back to where it was. */
  ghost predicate EndsAs(defs: map<string, Schema>, end: Schema, names: seq<string>, passed: set<string>, t: Target)
  {
    match t
    case Found(s) => s == end && end.ref.None?
    case External => end.ref.Some? && !("#/$defs/" <= end.ref.value)
    case Unresolvable(ref) => end.ref == Some(ref) && "#/$defs/" <= ref && forall name :: Local(ref, name) ==> name !in defs
    case Endless => end.ref.Some? && exists name :: Local(end.ref.value, name) && name in defs && (name in names || name in passed)
  }

  lemma {:induction false} LastPartOf(ref: string, front: string, name: string)
    requires IsPath(ref, front, name) && '/' !in name
    ensures LastPart(ref) == name
  {
    if name != "" {
      assert Last(ref) == Last(name) && Last(name) in name;
      assert Init(ref) == front + "/" + Init(name);
      LastPartOf(Init(ref), front, Init(name));
    }
  }

  lemma {:induction false} LastPartSplits(ref: string) returns (front: string)
    requires '/' in ref
    ensures IsPath(ref, front, LastPart(ref)) && '/' !in LastPart(ref)
  {
    if Last(ref) == '/' {
      front := Init(ref);
    } else {
      front := LastPartSplits(Init(ref));
      assert ref == Init(ref) + [Last(ref)];
    }
  }

  lemma LocalIff(ref: string, name: string)
    requires "#/$defs/" <= ref
    ensures Local(ref, name) <==> name == LastPart(ref)
  {
    assert ref[1] == '/';
    var front := LastPartSplits(ref);
    if Local(ref, name) {
      var f :| IsPath(ref, f, name);
      LastPartOf(ref, f, name);
    }
  }

  /** A schema that refers stands for the end of the chain of its references. */
  lemma {:induction false} ReferencesAreFollowed(defs: map<string, Schema>, s: Schema, passed: set<string>)
    returns (chain: seq<Schema>, names: seq<string>)
    ensures Linked(defs, chain, names) && chain[0] == s
    ensures EndsAs(defs, Last(chain), names, passed, Resolve(defs, s, passed))
    decreases |defs.Keys - passed|
  {
    chain, names := [s], [];
    if s.ref.Some? && LOCAL <= s.ref.value {
      var name := LastPart(s.ref.value);
      LocalIff(s.ref.value, name);
      if name in defs && name !in passed {
        assert defs.Keys - passed == (defs.Keys - (passed + {name})) + {name};
        chain, names := ReferencesAreFollowed(defs, defs[name], passed + {name});
        LinkInFront(defs, s, name, chain, names);
        chain, names := [s] + chain, [name] + names;
      } else if name !in defs {
        forall n | Local(s.ref.value, n) ensures n !in defs { LocalIff(s.ref.value, n); }
      }
    }
  }

  lemma LinkInFront(defs: map<string, Schema>, s: Schema, name: string, chain: seq<Schema>, names: seq<string>)
    requires Linked(defs, chain, names) && s.ref.Some? && Local(s.ref.value, name) && name in defs && defs[name] == chain[0]
    ensures Linked(defs, [s] + chain, [name] + names) && Last([s] + chain) == Last(chain)
  {
    var c, n := [s] + chain, [name] + names;
    forall i | 0 <= i < |n| ensures c[i].ref.Some? && Local(c[i].ref.value, n[i]) && n[i] in defs && defs[n[i]] == c[i + 1] {
      if i > 0 { assert c[i] == chain[i - 1] && n[i] == names[i - 1] && c[i + 1] == chain[i]; }
    }
  }

  // ---- faults -----------------------------------------------------------------------------------

  /** What is wrong with the value itself, under a schema that is no reference. */
  ghost predicate Complains(root: Root, v: Value, s: Schema, c: Complaint)
  {
    match c
    case UnresolvableRef(_) => false
    case ConstMismatch => s.constant.Some? && !PyEq(v, s.constant.value)
    case NotInEnum => s.enumeration.Some? && forall i :: 0 <= i < |s.enumeration.value| ==> !PyEq(v, s.enumeration.value[i])
    case WrongType => MistypedAs(v, s.declared)
    case NoPatternMatch => !MistypedAs(v, s.declared) && v.Str? && s.pattern.Some? && !root.search(s.pattern.value, v.s)
    case MissingRequired(name) =>
      !MistypedAs(v, s.declared) && v.Obj? && name in s.required && forall i :: 0 <= i < |v.fields| ==> v.fields[i].key != name
    case NotAllowed(key) =>
      !MistypedAs(v, s.declared) && v.Obj? && TooMany(s, key) && exists i :: 0 <= i < |v.fields| && v.fields[i].key == key
  }

  /** A type is declared, and the value is of none declared. */
  predicate MistypedAs(v: Value, d: Declared)
  {
    match d
    case NoType => false
    case OneType(name) => name != "" && !IsType(v, name)
    case SomeTypes(names) => names != [] && forall i :: 0 <= i < |names| ==> !IsType(v, names[i])
  }

  /** The fault is one of the value at the path, or of a part of it at the part's path; a wrong type ends the search. */
  ghost predicate FaultAt(root: Root, v: Value, schema: Schema, path: string, f: Fault)
    decreases v, 1
  {
    match Resolve(root.defs, schema, {})
    case External => false
    case Endless => false
    case Unresolvable(ref) => f == Fault(path, UnresolvableRef(ref))
    case Found(s) => FaultUnder(root, v, s, path, f)
  }

  ghost predicate FaultUnder(root: Root, v: Value, s: Schema, path: string, f: Fault)
    decreases v, 0
  {
    || (f.path == path && Complains(root, v, s, f.complaint))
    || (!MistypedAs(v, s.declared) && v.Obj?
        && exists i, t :: 0 <= i < |v.fields| && HeldTo(s, v.fields[i].key, t)
                          && FaultAt(root, v.fields[i].value, t, path + "." + v.fields[i].key, f))
    || (!MistypedAs(v, s.declared) && v.Arr? && s.items.Some?
        && exists i :: 0 <= i < |v.items| && FaultAt(root, v.items[i], s.items.value, path + "[" + Decimal(i) + "]", f))
  }

  lemma MistypedIff(v: Value, d: Declared)
    ensures MistypedAs(v, d) <==> !TypeFits(v, d)
  {}

  lemma {:induction false} MissingAre(fields: seq<Field>, required: seq<string>, path: string, f: Fault)
    ensures f in Missing(fields, required, path)
       <==> f.path == path && f.complaint.MissingRequired? && f.complaint.name in required && !HasKey(fields, f.complaint.name)
    decreases |required|
  {
    if required != [] {
      MissingAre(fields, Init(required), path, f);
      assert required == Init(required) + [Last(required)];
    }
  }

  /** Complaints about the value as a whole. */
  predicate Whole(c: Complaint)
  {
    c.ConstMismatch? || c.NotInEnum?
  }

  lemma ValueFaultsAre(root: Root, v: Value, s: Schema, path: string, f: Fault)
    ensures f in ValueFaults(v, s, path) <==> f.path == path && Whole(f.complaint) && Complains(root, v, s, f.complaint)
  {}

  lemma ShapeFaultsAre(root: Root, v: Value, s: Schema, path: string, f: Fault)
    requires !MistypedAs(v, s.declared)
    ensures f in ShapeFaults(root, v, s, path)
       <==> f.path == path && (f.complaint.NoPatternMatch? || f.complaint.MissingRequired?) && Complains(root, v, s, f.complaint)
  {
    if v.Obj? { MissingAre(v.fields, s.required, path, f); }
  }

  lemma OwnFaultsAre(root: Root, v: Value, s: Schema, path: string, f: Fault)
    requires !MistypedAs(v, s.declared)
    ensures f in ValueFaults(v, s, path) + ShapeFaults(root, v, s, path)
       <==> f.path == path && !f.complaint.NotAllowed? && Complains(root, v, s, f.complaint)
  {
    ValueFaultsAre(root, v, s, path, f);
    ShapeFaultsAre(root, v, s, path, f);
  }

  lemma MistypedFaultsAre(root: Root, v: Value, s: Schema, path: string, f: Fault)
    requires MistypedAs(v, s.declared)
    ensures f in ValueFaults(v, s, path) + [Fault(path, WrongType)] <==> f.path == path && Complains(root, v, s, f.complaint)
  {
    ValueFaultsAre(root, v, s, path, f);
  }

  /** The fault is one of entry `i`. */
  ghost predicate FaultOfEntry(root: Root, e: Field, s: Schema, path: string, f: Fault)
  {
    || (f == Fault(path, NotAllowed(e.key)) && TooMany(s, e.key))
    || (exists t :: HeldTo(s, e.key, t) && FaultAt(root, e.value, t, path + "." + e.key, f))
  }

  lemma {:induction false} FieldFaults(root: Root, v: Value, s: Schema, path: string, i: nat, f: Fault)
    requires v.Obj? && i < |v.fields| && FieldCheck(root, v, s, path, i).Faults?
    ensures f in FieldCheck(root, v, s, path, i).list <==> FaultOfEntry(root, v.fields[i], s, path, f)
    decreases v, 0, 0
  {
    var e := v.fields[i];
    RulesAre(s, e.key);
    var rule := RuleFor(s, e.key);
    if rule.Under? {
      FaultsAre(root, e.value, rule.schema, path + "." + e.key, f);
    }
  }

  lemma {:induction false} FieldsFaults(root: Root, v: Value, s: Schema, path: string, n: nat, f: Fault)
    requires v.Obj? && n <= |v.fields| && FieldsCheck(root, v, s, path, n).Faults?
    ensures f in FieldsCheck(root, v, s, path, n).list <==> exists i :: 0 <= i < n && FaultOfEntry(root, v.fields[i], s, path, f)
    decreases v, 0, n + 1
  {
    if n > 0 {
      FieldsFaults(root, v, s, path, n - 1, f);
      FieldFaults(root, v, s, path, n - 1, f);
    }
  }

  /** The fault is one of item `i`. */
  ghost predicate FaultOfItem(root: Root, v: Value, items: Schema, path: string, i: int, f: Fault)
  {
    v.Arr? && 0 <= i < |v.items| && FaultAt(root, v.items[i], items, path + "[" + Decimal(i) + "]", f)
  }

  lemma {:induction false} ItemsFaults(root: Root, v: Value, items: Schema, path: string, n: nat, f: Fault)
    requires v.Arr? && n <= |v.items| && ItemsCheck(root, v, items, path, n).Faults?
    ensures f in ItemsCheck(root, v, items, path, n).list <==> exists i :: i < n && FaultOfItem(root, v, items, path, i, f)
    decreases v, 0, n
  {
    if n > 0 {
      ItemsFaults(root, v, items, path, n - 1, f);
      var here := Check(root, v.items[n - 1], items, path + "[" + Decimal(n - 1) + "]");
      assert ItemsCheck(root, v, items, path, n) == Then(ItemsCheck(root, v, items, path, n - 1), here);
      FaultsAre(root, v.items[n - 1], items, path + "[" + Decimal(n - 1) + "]", f);
      assert f in here.list <==> FaultOfItem(root, v, items, path, n - 1, f);
    }
  }

  lemma ItemFaultsAre(root: Root, v: Value, items: Schema, path: string, f: Fault)
    requires v.Arr?
    ensures (exists i :: i < |v.items| && FaultOfItem(root, v, items, path, i, f))
       <==> (exists i :: 0 <= i < |v.items| && FaultAt(root, v.items[i], items, path + "[" + Decimal(i) + "]", f))
  {
    if i :| 0 <= i < |v.items| && FaultAt(root, v.items[i], items, path + "[" + Decimal(i) + "]", f) {
      assert FaultOfItem(root, v, items, path, i, f);
    }
  }

  /** Where the check ends, it reports exactly the faults there are, each at its path. */
  lemma {:induction false} FaultsAre(root: Root, v: Value, schema: Schema, path: string, f: Fault)
    requires Check(root, v, schema, path).Faults?
    ensures f in Check(root, v, schema, path).list <==> FaultAt(root, v, schema, path, f)
    decreases v, 2, 0
  {
    var target := Resolve(root.defs, schema, {});
    if target.Found? { FaultsUnder(root, v, target.schema, path, f); }
  }

  lemma {:induction false} FaultsUnder(root: Root, v: Value, s: Schema, path: string, f: Fault)
    requires CheckUnder(root, v, s, path).Faults?
    ensures f in CheckUnder(root, v, s, path).list <==> FaultUnder(root, v, s, path, f)
    decreases v, 1, 0
  {
    MistypedIff(v, s.declared);
    if MistypedAs(v, s.declared) {
      MistypedFaultsAre(root, v, s, path, f);
    } else {
      OwnFaultsAre(root, v, s, path, f);
      if v.Obj? {
        FieldsFaults(root, v, s, path, |v.fields|, f);
      } else if v.Arr? && s.items.Some? {
        ItemsFaults(root, v, s.items.value, path, |v.items|, f);
        ItemFaultsAre(root, v, s.items.value, path, f);
      }
    }
  }
}
