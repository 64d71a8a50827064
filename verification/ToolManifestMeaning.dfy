/** What a valid manifest says, what a built one says, and what compilation reads of it. */
module ToolManifestMeaning {
  import opened Basics
  import opened Json
  import opened ManifestCheck
  import opened ManifestMeaning
  import opened Compile
  import opened ToolManifests
  import opened ToolManifestProofs

  // ---- valid manifests --------------------------------------------------------------------------

  predicate IsClass(v: Value)
  {
    v == Str("READ") || v == Str("WRITE") || v == Str("EXPORT") || v == Str("EXEC")
  }

  predicate IsTextList(v: Value)
  {
    v.Arr? && forall i :: 0 <= i < |v.items| ==> v.items[i].Str?
  }

  /** A rule names the class it resolves to, and when; of the condition nothing is said here. */
  predicate IsRule(v: Value)
  {
    && v.Obj? && HasKey(v.fields, "when") && HasKey(v.fields, "class")
    && forall i :: 0 <= i < |v.fields| ==> v.fields[i].key == "when" || (v.fields[i].key == "class" && IsClass(v.fields[i].value))
  }

  /** An entry of an effect: its class, the arguments that drive it, and the rules it resolves by. */
  predicate EffectEntry(f: Field)
  {
    || (f.key == "default_class" && IsClass(f.value))
    || (f.key == "driving_args" && IsTextList(f.value))
    || (f.key == "resolve" && f.value.Arr? && forall i :: 0 <= i < |f.value.items| ==> IsRule(f.value.items[i]))
  }

  predicate IsEffect(v: Value)
  {
    && v.Obj? && HasKey(v.fields, "default_class") && HasKey(v.fields, "driving_args")
    && forall i :: 0 <= i < |v.fields| ==> EffectEntry(v.fields[i])
  }

  /** An entry of a manifest, each under its name. */
  predicate ManifestEntry(f: Field)
  {
    || (f.key == "schema_version" && f.value == Str("tool-manifest/v1"))
    || (f.key == "id" && f.value.Str?)
    || ((f.key == "args_schema" || f.key == "result_schema") && f.value.Obj?)
    || (f.key == "effect" && IsEffect(f.value))
    || ((f.key == "untrusted_fields" || f.key == "sensitive_fields") && IsTextList(f.value))
    || (f.key == "side_effecting" && f.value.Bool?)
    || ((f.key == "simulation" || f.key == "reset") && f.value.Obj?)
  }

  lemma TypedSays(root: Root, v: Value, name: string)
    requires Conforms(root, v, Typed(name)) && name != ""
    ensures IsType(v, name)
  {
    assert Resolve(root.defs, Typed(name), {}) == Found(Typed(name));
  }

  lemma TextListSays(root: Root, v: Value)
    requires Conforms(root, v, ListOf(Typed("string")))
    ensures IsTextList(v)
  {
    var s := ListOf(Typed("string"));
    assert Resolve(root.defs, s, {}) == Found(s);
    forall i | 0 <= i < |v.items| ensures v.items[i].Str? {
      TypedSays(root, v.items[i], "string");
    }
  }

  lemma RuleSays(root: Root, v: Value)
    requires Conforms(root, v, RuleSchema())
    ensures IsRule(v)
  {
    var ps := RuleSchema().properties.value;
    RecordSays(root, v, ["when", "class"], ps);
    assert "when" in RuleSchema().required && "class" in RuleSchema().required;
    forall i | 0 <= i < |v.fields|
      ensures v.fields[i].key == "when" || (v.fields[i].key == "class" && IsClass(v.fields[i].value))
    {
      var j :| HeldAt(root, v.fields[i], ps, j);
      if j == 1 { ClassSays(root, v.fields[i].value); }
    }
  }

  lemma RulesSay(root: Root, v: Value)
    requires Conforms(root, v, ListOf(RuleSchema()))
    ensures v.Arr? && forall i :: 0 <= i < |v.items| ==> IsRule(v.items[i])
  {
    var s := ListOf(RuleSchema());
    assert Resolve(root.defs, s, {}) == Found(s);
    forall i | 0 <= i < |v.items| ensures IsRule(v.items[i]) { RuleSays(root, v.items[i]); }
  }

  lemma ClassSays(root: Root, v: Value)
    requires Conforms(root, v, OneOf(EFFECT_CLASSES))
    ensures IsClass(v)
  {
    var s := OneOf(EFFECT_CLASSES);
    assert Resolve(root.defs, s, {}) == Found(s);
    var i :| 0 <= i < |Strings(EFFECT_CLASSES)| && PyEq(v, Strings(EFFECT_CLASSES)[i]);
    assert Strings(EFFECT_CLASSES)[i] == Str(EFFECT_CLASSES[i]);
  }

  lemma RecordSays(root: Root, v: Value, required: seq<string>, ps: seq<Property>)
    requires Conforms(root, v, Record(required, ps))
    ensures v.Obj? && forall r :: r in required ==> HasKey(v.fields, r)
    ensures forall i :: 0 <= i < |v.fields| ==> Held(root, v.fields[i], ps)
  {
    var s := Record(required, ps);
    assert Resolve(root.defs, s, {}) == Found(s);
    forall i | 0 <= i < |v.fields| ensures Held(root, v.fields[i], ps) {
      ObjectConformsIff(root, v.fields, s);
      EntryIsHeld(root, v.fields[i], s, ps);
    }
  }

  /** The entry stands under the name of property `j`, the first of that name, and conforms to it. */
  ghost predicate HeldAt(root: Root, f: Field, ps: seq<Property>, j: int)
  {
    0 <= j < |ps| && ps[j].name == f.key && Conforms(root, f.value, ps[j].schema)
  }

  ghost predicate Held(root: Root, f: Field, ps: seq<Property>)
  {
    exists j :: HeldAt(root, f, ps, j)
  }

  lemma EntryIsHeld(root: Root, f: Field, s: Schema, ps: seq<Property>)
    requires EntryConforms(root, f, s) && OfObjects(s) && s.additional == Forbidden && s.properties == Some(ps)
    ensures Held(root, f, ps)
  {
    assert Names(s, f.key);
    var j := PropertyMeaning(ps, f.key);
    assert Declares(s, f.key, ps[j].schema) && HeldTo(s, f.key, ps[j].schema);
    assert HeldAt(root, f, ps, j);
  }

  lemma EffectSays(root: Root, v: Value)
    requires Conforms(root, v, EffectSchema())
    ensures IsEffect(v)
  {
    var ps := EffectSchema().properties.value;
    RecordSays(root, v, ["default_class", "driving_args"], ps);
    assert "default_class" in EffectSchema().required && "driving_args" in EffectSchema().required;
    forall i | 0 <= i < |v.fields| ensures EffectEntry(v.fields[i]) {
      var f := v.fields[i];
      var j :| HeldAt(root, f, ps, j);
      if j == 0 { ClassSays(root, f.value); }
      else if j == 1 { TextListSays(root, f.value); }
      else { RulesSay(root, f.value); }
    }
  }

  lemma EntrySays(root: Root, f: Field, j: int)
    requires HeldAt(root, f, ManifestProperties(), j)
    ensures ManifestEntry(f)
  {
    if j == 0 { VersionSays(root, f.value); }
    else if j == 1 { TypedSays(root, f.value, "string"); }
    else if j == 2 || j == 3 { TypedSays(root, f.value, "object"); }
    else if j == 4 { EffectSays(root, f.value); }
    else if j == 5 || j == 6 { TextListSays(root, f.value); }
    else if j == 7 { TypedSays(root, f.value, "boolean"); }
    else if j == 8 { ObjectSays(root, f.value, SimulationSchema()); }
    else { ObjectSays(root, f.value, ResetSchema()); }
  }

  lemma VersionSays(root: Root, v: Value)
    requires Conforms(root, v, ANY.(constant := Some(Str(VERSION))))
    ensures v == Str("tool-manifest/v1")
  {
    var s := ANY.(constant := Some(Str(VERSION)));
    assert Resolve(root.defs, s, {}) == Found(s);
  }

  lemma ObjectSays(root: Root, v: Value, s: Schema)
    requires Conforms(root, v, s) && s.ref.None? && s.declared == OneType("object")
    ensures v.Obj?
  {
    assert Resolve(root.defs, s, {}) == Found(s);
  }

  /** A valid manifest is an object of known entries only, each of its kind, and with the five it must have. */
  lemma ValidManifestsSay(root: Root, v: Value)
    requires Conforms(root, v, ManifestSchema())
    ensures v.Obj? && forall i :: 0 <= i < |v.fields| ==> ManifestEntry(v.fields[i])
    ensures HasKey(v.fields, "schema_version") && HasKey(v.fields, "id") && HasKey(v.fields, "args_schema")
    ensures HasKey(v.fields, "effect") && HasKey(v.fields, "side_effecting")
  {
    RecordSays(root, v, REQUIRED, ManifestProperties());
    assert REQUIRED[0] in REQUIRED && REQUIRED[1] in REQUIRED && REQUIRED[2] in REQUIRED;
    assert REQUIRED[3] in REQUIRED && REQUIRED[4] in REQUIRED;
    forall i | 0 <= i < |v.fields| ensures ManifestEntry(v.fields[i]) {
      var j :| HeldAt(root, v.fields[i], ManifestProperties(), j);
      EntrySays(root, v.fields[i], j);
    }
  }

  // ---- built manifests --------------------------------------------------------------------------

  /** The list is one of exactly these texts. */
  predicate Lists(v: Value, names: seq<string>)
  {
    v.Arr? && |v.items| == |names| && forall i :: 0 <= i < |names| ==> v.items[i] == Str(names[i])
  }

  lemma StringsList(names: seq<string>)
    ensures Lists(Arr(Strings(names)), names)
  {}

  /** The class a guess is built with: a guess of none of the four counts as the gravest. */
  predicate BuiltClass(guess: string, c: string)
  {
    c == if guess == "READ" || guess == "WRITE" || guess == "EXPORT" then guess else "EXEC"
  }

  predicate SaysEffect(v: Value, c: string, drivingArgs: seq<string>)
  {
    && v.Obj? && |v.fields| == 2 && v.fields[0] == Field("default_class", Str(c))
    && v.fields[1].key == "driving_args" && Lists(v.fields[1].value, drivingArgs)
  }

  /** The five entries every manifest begins with; what it does besides reading counts as a side effect. */
  predicate SaysEssentials(fs: seq<Field>, id: string, c: string, drivingArgs: seq<string>)
  {
    && |fs| >= 5 && fs[0] == Field("schema_version", Str("tool-manifest/v1")) && fs[1] == Field("id", Str(id))
    && fs[2].key == "args_schema" && fs[2].value.Obj?
    && fs[3].key == "effect" && SaysEffect(fs[3].value, c, drivingArgs)
    && fs[4] == Field("side_effecting", Bool(c != "READ"))
  }

  /** The arguments' schema is the one detected, or that of any object; a description is added unless it has one. */
  predicate SaysArguments(detected: seq<Field>, description: string, said: seq<Field>)
  {
    var base := if detected == [] then [Field("type", Str("object"))] else detected;
    said == if description == "" || HasKey(base, "description") then base else base + [Field("description", Str(description))]
  }

  /** The manifest of a detected tool. */
  lemma BuiltManifestSays(tool: DetectedTool, guess: EffectGuess)
    ensures var v := BuildManifest(tool, guess);
            && v.Obj? && BuiltClass(guess.defaultClass, ClassFor(guess))
            && SaysEssentials(v.fields, tool.id, ClassFor(guess), guess.drivingArgs)
            && SaysArguments(tool.argsSchema, tool.description, v.fields[2].value.fields)
            && |v.fields| == (if guess.untrustedFields == [] then 5 else 6)
            && (guess.untrustedFields != [] ==> v.fields[5].key == "untrusted_fields" && Lists(v.fields[5].value, guess.untrustedFields))
  {
    StringsList(guess.drivingArgs);
    StringsList(guess.untrustedFields);
    assert guess.defaultClass in EFFECT_CLASSES <==>
           guess.defaultClass == EFFECT_CLASSES[0] || guess.defaultClass == EFFECT_CLASSES[1]
           || guess.defaultClass == EFFECT_CLASSES[2] || guess.defaultClass == EFFECT_CLASSES[3];
  }

  /** The manifest of an asserted role: the class as asserted, and the whole result untrusted or sensitive where it is said to be. */
  lemma HarnessManifestSays(h: Harness)
    ensures var v := HarnessValue(h);
            && v.Obj? && SaysEssentials(v.fields, h.id, h.effectClass, h.drivingArgs)
            && SaysArguments(h.argsSchema, "", v.fields[2].value.fields)
            && |v.fields| == 5 + (if h.untrusted then 1 else 0) + (if h.sensitive then 1 else 0)
            && (h.untrusted ==> v.fields[5] == Field("untrusted_fields", Arr([Str("result")])))
            && (h.sensitive ==> Last(v.fields) == Field("sensitive_fields", Arr([Str("result")])))
  {
    StringsList(h.drivingArgs);
    assert Strings(["result"]) == [Str("result")];
  }

  // ---- what compilation reads -------------------------------------------------------------------

  lemma {:induction false} TextsRead(names: seq<string>)
    ensures TextsIn(Strings(names)) == names
  {
    if names != [] {
      assert Strings(names)[1..] == Strings(names[1..]);
      TextsRead(names[1..]);
    }
  }

  /** A built manifest is read as it was meant: its id, class, arguments and untrusted fields, no rules and nothing sensitive. */
  lemma BuiltManifestIsRead(tool: DetectedTool, guess: EffectGuess)
    ensures var m := Parsed(BuildManifest(tool, guess));
            && m.id == tool.id && BuiltClass(guess.defaultClass, m.defaultClass) && m.rules == []
            && m.drivingArgs == guess.drivingArgs && m.untrustedFields == guess.untrustedFields && m.sensitiveFields == []
  {
    BuiltIsParsed(tool, guess);
    BuiltManifestSays(tool, guess);
    DrivingIsRead(tool, guess);
    FieldsAreRead(tool, guess);
  }

  lemma DrivingIsRead(tool: DetectedTool, guess: EffectGuess)
    ensures Parsed(BuildManifest(tool, guess)).drivingArgs == guess.drivingArgs
  {
    var essentials := Essentials(tool.id, Described(tool), ClassFor(guess), guess.drivingArgs);
    GetFirst(essentials, 3, Listed("untrusted_fields", guess.untrustedFields));
    var effect := Effect(ClassFor(guess), guess.drivingArgs);
    assert EffectOf(BuildManifest(tool, guess)) == effect;
    GetFirst(effect.fields, 1, []);
    assert effect.fields + [] == effect.fields;
    TextsRead(guess.drivingArgs);
  }

  lemma {:induction false} GetBehind(fs: seq<Field>, more: seq<Field>, key: string)
    requires forall i :: 0 <= i < |fs| ==> fs[i].key != key
    ensures Get(fs + more, key) == Get(more, key)
  {
    if fs == [] {
      assert fs + more == more;
    } else {
      assert (fs + more)[1..] == fs[1..] + more;
      GetBehind(fs[1..], more, key);
    }
  }

  lemma FieldsAreRead(tool: DetectedTool, guess: EffectGuess)
    ensures var m := Parsed(BuildManifest(tool, guess));
            m.untrustedFields == guess.untrustedFields && m.sensitiveFields == []
  {
    var essentials := Essentials(tool.id, Described(tool), ClassFor(guess), guess.drivingArgs);
    var more := Listed("untrusted_fields", guess.untrustedFields);
    KeysDiffer(essentials);
    GetBehind(essentials, more, "untrusted_fields");
    GetBehind(essentials, more, "sensitive_fields");
    TextsRead(guess.untrustedFields);
    assert "untrusted_fields"[0] != "sensitive_fields"[0];
  }

  lemma KeysDiffer(essentials: seq<Field>)
    requires |essentials| == 5
    requires essentials[0].key == "schema_version" && essentials[1].key == "id" && essentials[2].key == "args_schema"
    requires essentials[3].key == "effect" && essentials[4].key == "side_effecting"
    ensures forall i :: 0 <= i < 5 ==> essentials[i].key != "untrusted_fields" && essentials[i].key != "sensitive_fields"
  {
    assert "schema_version"[1] == 'c' && "side_effecting"[1] == 'i' && "sensitive_fields"[1] == 'e';
  }
}
