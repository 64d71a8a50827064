/** `tool-manifest/v1`: the embedded schema, the two builders, and what compilation reads of their work. */
module ToolManifests {
  import opened Basics
  import opened Json
  import opened ManifestCheck
  import opened Compile

  // ---- the embedded schema ----------------------------------------------------------------------

  const ANY := Schema(None, None, None, NoType, None, [], None, Anything, None)

  function Typed(name: string): Schema
  {
    ANY.(declared := OneType(name))
  }

  function Strings(names: seq<string>): (r: seq<Value>)
    ensures |r| == |names| && forall i :: 0 <= i < |names| ==> r[i] == Str(names[i])
  {
    seq(|names|, i requires 0 <= i < |names| => Str(names[i]))
  }

  function OneOf(names: seq<string>): Schema
  {
    ANY.(enumeration := Some(Strings(names)))
  }

  function ListOf(items: Schema): Schema
  {
    ANY.(declared := OneType("array"), items := Some(items))
  }

  /** An object of these properties and no others. */
  function Record(required: seq<string>, properties: seq<Property>): Schema
  {
    ANY.(declared := OneType("object"), required := required, properties := Some(properties), additional := Forbidden)
  }

  const VERSION := "tool-manifest/v1"

  const EFFECT_CLASSES := ["READ", "WRITE", "EXPORT", "EXEC"]

  function RuleSchema(): Schema
  {
    Record(["when", "class"],
           [Property("when", ANY.(ref := Some("predicate.schema.json#/$defs/matcher_map"))),
            Property("class", OneOf(EFFECT_CLASSES))])
  }

  function EffectSchema(): Schema
  {
    Record(["default_class", "driving_args"],
           [Property("default_class", OneOf(EFFECT_CLASSES)),
            Property("driving_args", ListOf(Typed("string"))),
            Property("resolve", ListOf(RuleSchema()))])
  }

  function SimulationSchema(): Schema
  {
    Record([],
           [Property("supported", Typed("boolean")),
            Property("adapter", Typed("string")),
            Property("real_execution", Record([],
              [Property("opt_in", Typed("boolean")),
               Property("requires", ListOf(OneOf(["isolated_test_account", "resource_allowlist", "dry_run_confirmed"])))]))])
  }

  function ResetSchema(): Schema
  {
    Record([], [Property("strategy", OneOf(["stateless", "fixture", "snapshot_restore"])), Property("fixture_ref", Typed("string"))])
  }

  const REQUIRED := ["schema_version", "id", "args_schema", "effect", "side_effecting"]

  function ManifestProperties(): seq<Property>
  {
    [Property("schema_version", ANY.(constant := Some(Str(VERSION)))),
     Property("id", Typed("string")),
     Property("args_schema", Typed("object")),
     Property("result_schema", Typed("object")),
     Property("effect", EffectSchema()),
     Property("untrusted_fields", ListOf(Typed("string"))),
     Property("sensitive_fields", ListOf(Typed("string"))),
     Property("side_effecting", Typed("boolean")),
     Property("simulation", SimulationSchema()),
     Property("reset", ResetSchema())]
  }

  function ManifestSchema(): Schema
  {
    Record(REQUIRED, ManifestProperties())
  }

  /** The embedded schema defines nothing. */
  function Embedded(search: (string, string) -> bool): Root
  {
    Root(map[], search)
  }

  // ---- building ---------------------------------------------------------------------------------

  datatype DetectedTool = DetectedTool(id: string, description: string, argsSchema: seq<Field>)

  datatype EffectGuess = EffectGuess(defaultClass: string, drivingArgs: seq<string>, untrustedFields: seq<string>)

  const FALLBACK := "EXEC"

  /** A class the schema does not know becomes the most consequential one. */
  function ClassFor(guess: EffectGuess): string
  {
    if guess.defaultClass in EFFECT_CLASSES then guess.defaultClass else FALLBACK
  }

  function ObjectSchema(fields: seq<Field>): seq<Field>
  {
    if fields == [] then [Field("type", Str("object"))] else fields
  }

  function Described(tool: DetectedTool): seq<Field>
  {
    var base := ObjectSchema(tool.argsSchema);
    if tool.description != "" && !HasKey(base, "description") then base + [Field("description", Str(tool.description))] else base
  }

  function Effect(c: string, drivingArgs: seq<string>): Value
  {
    Obj([Field("default_class", Str(c)), Field("driving_args", Arr(Strings(drivingArgs)))])
  }

  function Essentials(id: string, argsSchema: seq<Field>, c: string, drivingArgs: seq<string>): seq<Field>
  {
    [Field("schema_version", Str(VERSION)), Field("id", Str(id)), Field("args_schema", Obj(argsSchema)),
     Field("effect", Effect(c, drivingArgs)), Field("side_effecting", Bool(c != "READ"))]
  }

  function Listed(key: string, names: seq<string>): seq<Field>
  {
    if names == [] then [] else [Field(key, Arr(Strings(names)))]
  }

  /** `build_manifest`. */
  function BuildManifest(tool: DetectedTool, guess: EffectGuess): Value
  {
    Obj(Essentials(tool.id, Described(tool), ClassFor(guess), guess.drivingArgs)
        + Listed("untrusted_fields", guess.untrustedFields))
  }

  datatype Harness = Harness(
    id: string, effectClass: string, drivingArgs: seq<string>, untrusted: bool, sensitive: bool, argsSchema: seq<Field>)

  datatype HarnessError = UnknownClass | Invalid(faults: seq<Fault>) | CheckRaised

  function HarnessValue(h: Harness): Value
  {
    Obj(Essentials(h.id, ObjectSchema(h.argsSchema), h.effectClass, h.drivingArgs)
        + (Listed("untrusted_fields", if h.untrusted then ["result"] else [])
           + Listed("sensitive_fields", if h.sensitive then ["result"] else [])))
  }

  /** `harness_manifest`: an asserted role, validated before it is handed out. */
  function HarnessManifest(search: (string, string) -> bool, h: Harness): Result<Value, HarnessError>
  {
    if h.effectClass !in EFFECT_CLASSES then Err(UnknownClass)
    else match Check(Embedded(search), HarnessValue(h), ManifestSchema(), "$")
      case NeverEnds => Err(CheckRaised)
      case Faults(list) => if list == [] then Ok(HarnessValue(h)) else Err(Invalid(list))
  }

  // ---- reading ----------------------------------------------------------------------------------

  function TextAt(v: Value, key: string): string
  {
    if v.Obj? then
      match Get(v.fields, key)
      case Some(Str(s)) => s
      case _ => ""
    else ""
  }

  function TextsIn(items: seq<Value>): seq<string>
  {
    if items == [] then [] else (if items[0].Str? then [items[0].s] else []) + TextsIn(items[1..])
  }

  function TextsAt(v: Value, key: string): seq<string>
  {
    if v.Obj? then
      match Get(v.fields, key)
      case Some(Arr(items)) => TextsIn(items)
      case _ => []
    else []
  }

  function ClassesIn(rules: seq<Value>): seq<string>
  {
    if rules == [] then [] else [TextAt(rules[0], "class")] + ClassesIn(rules[1..])
  }

  function EffectOf(v: Value): Value
  {
    if v.Obj? && Get(v.fields, "effect").Some? then Get(v.fields, "effect").value else Obj([])
  }

  /** What compilation reads of a conforming manifest. */
  function Parsed(v: Value): ToolManifest
  {
    var effect := EffectOf(v);
    var rules := if effect.Obj? then Get(effect.fields, "resolve") else None;
    ToolManifest(TextAt(v, "id"), TextAt(effect, "default_class"),
                 if rules.Some? && rules.value.Arr? then ClassesIn(rules.value.items) else [],
                 TextsAt(v, "untrusted_fields"), TextsAt(v, "sensitive_fields"), TextsAt(effect, "driving_args"))
  }
}

/** What is built conforms, and lands where its class says. */
module ToolManifestProofs {
  import opened Basics
  import opened Json
  import opened Sorting
  import opened ManifestCheck
  import opened Compile
  import opened CompileProofs
  import opened ToolManifests

  // ---- conformance of parts ---------------------------------------------------------------------

  lemma ListsConform(root: Root, names: seq<string>)
    ensures Conforms(root, Arr(Strings(names)), ListOf(Typed("string")))
  {
    forall i | 0 <= i < |names| ensures Conforms(root, Strings(names)[i], Typed("string")) {
      assert Strings(names)[i] == Str(names[i]);
    }
  }

  lemma ClassConforms(root: Root, c: string)
    requires c in EFFECT_CLASSES
    ensures Conforms(root, Str(c), OneOf(EFFECT_CLASSES))
  {
    var i :| 0 <= i < |EFFECT_CLASSES| && EFFECT_CLASSES[i] == c;
    assert PyEq(Str(c), Strings(EFFECT_CLASSES)[i]);
  }

  lemma EffectConforms(root: Root, c: string, drivingArgs: seq<string>)
    requires c in EFFECT_CLASSES
    ensures Conforms(root, Effect(c, drivingArgs), EffectSchema())
  {
    ClassConforms(root, c);
    ListsConform(root, drivingArgs);
    var s, v := EffectSchema(), Effect(c, drivingArgs);
    assert v.fields[0].key == "default_class" && v.fields[1].key == "driving_args";
    assert HasKey(v.fields, "default_class") && HasKey(v.fields, "driving_args");
    assert RuleFor(s, "default_class") == Under(OneOf(EFFECT_CLASSES));
    assert RuleFor(s, "driving_args") == Under(ListOf(Typed("string")));
  }

  // ---- the schema's rules -----------------------------------------------------------------------

  lemma RuleAt(i: nat)
    requires i < |ManifestProperties()|
    requires forall j :: 0 <= j < i ==> ManifestProperties()[j].name != ManifestProperties()[i].name
    ensures RuleFor(ManifestSchema(), ManifestProperties()[i].name) == Under(ManifestProperties()[i].schema)
  {
    PropertyAt(ManifestProperties(), i);
  }

  lemma {:induction false} PropertyAt(properties: seq<Property>, i: nat)
    requires i < |properties| && forall j :: 0 <= j < i ==> properties[j].name != properties[i].name
    ensures PropertyOf(properties, properties[i].name) == Some(properties[i].schema)
  {
    if i > 0 { PropertyAt(properties[1..], i - 1); }
  }

  lemma NamesDiffer()
    ensures "schema_version" != "side_effecting" && "id" != "side_effecting" && "args_schema" != "side_effecting"
    ensures "result_schema" != "side_effecting" && "effect" != "side_effecting"
    ensures "untrusted_fields" != "side_effecting" && "sensitive_fields" != "side_effecting"
  {
    assert "schema_version"[1] != "side_effecting"[1];
  }

  lemma UntrustedRule()
    ensures RuleFor(ManifestSchema(), "untrusted_fields") == Under(ListOf(Typed("string")))
  {
    RuleAt(5);
  }

  lemma SensitiveRule()
    ensures RuleFor(ManifestSchema(), "sensitive_fields") == Under(ListOf(Typed("string")))
  {
    RuleAt(6);
  }

  /** A field declaring untrusted or sensitive result fields. */
  ghost predicate DeclaresFields(f: Field)
  {
    && (f.key == "untrusted_fields" || f.key == "sensitive_fields")
    && exists names :: f.value == Arr(Strings(names))
  }

  lemma DeclarationConforms(root: Root, f: Field)
    requires DeclaresFields(f)
    ensures RuleFor(ManifestSchema(), f.key) == Under(ListOf(Typed("string"))) && Conforms(root, f.value, ListOf(Typed("string")))
  {
    UntrustedRule();
    SensitiveRule();
    var names :| f.value == Arr(Strings(names));
    ListsConform(root, names);
  }

  /** An entry the schema has a rule for, and that keeps to it. */
  predicate Fits(root: Root, s: Schema, f: Field)
  {
    var rule := RuleFor(s, f.key);
    rule.Under? && Conforms(root, f.value, rule.schema)
  }

  lemma EssentialsFit(root: Root, id: string, argsSchema: seq<Field>, c: string, drivingArgs: seq<string>)
    requires c in EFFECT_CLASSES
    ensures forall i :: 0 <= i < 5 ==> Fits(root, ManifestSchema(), Essentials(id, argsSchema, c, drivingArgs)[i])
  {
    VersionFits(root);
    IdFits(root, id);
    ArgsFit(root, argsSchema);
    EffectFits(root, c, drivingArgs);
    SideEffectFits(root, c != "READ");
    AllFit(root, ManifestSchema(), Essentials(id, argsSchema, c, drivingArgs));
  }

  lemma AllFit(root: Root, s: Schema, fs: seq<Field>)
    requires |fs| == 5
    requires Fits(root, s, fs[0]) && Fits(root, s, fs[1]) && Fits(root, s, fs[2]) && Fits(root, s, fs[3]) && Fits(root, s, fs[4])
    ensures forall i :: 0 <= i < 5 ==> Fits(root, s, fs[i])
  {}

  lemma VersionFits(root: Root)
    ensures Fits(root, ManifestSchema(), Field("schema_version", Str(VERSION)))
  {
    RuleAt(0);
  }

  lemma IdFits(root: Root, id: string)
    ensures Fits(root, ManifestSchema(), Field("id", Str(id)))
  {
    RuleAt(1);
  }

  lemma ArgsFit(root: Root, argsSchema: seq<Field>)
    ensures Fits(root, ManifestSchema(), Field("args_schema", Obj(argsSchema)))
  {
    RuleAt(2);
  }

  lemma EffectFits(root: Root, c: string, drivingArgs: seq<string>)
    requires c in EFFECT_CLASSES
    ensures Fits(root, ManifestSchema(), Field("effect", Effect(c, drivingArgs)))
  {
    RuleAt(4);
    EffectConforms(root, c, drivingArgs);
  }

  lemma SideEffectFits(root: Root, side: bool)
    ensures Fits(root, ManifestSchema(), Field("side_effecting", Bool(side)))
  {
    NamesDiffer();
    RuleAt(7);
  }

  lemma EssentialsAreThere(id: string, argsSchema: seq<Field>, c: string, drivingArgs: seq<string>, more: seq<Field>)
    ensures forall i :: 0 <= i < |REQUIRED| ==> HasKey(Essentials(id, argsSchema, c, drivingArgs) + more, REQUIRED[i])
  {
    var fs := Essentials(id, argsSchema, c, drivingArgs) + more;
    assert fs[0].key == REQUIRED[0] && fs[1].key == REQUIRED[1] && fs[2].key == REQUIRED[2];
    assert fs[3].key == REQUIRED[3] && fs[4].key == REQUIRED[4];
  }

  lemma FittingConforms(root: Root, fs: seq<Field>)
    requires forall i :: 0 <= i < |REQUIRED| ==> HasKey(fs, REQUIRED[i])
    requires forall i :: 0 <= i < |fs| ==> Fits(root, ManifestSchema(), fs[i])
    ensures Conforms(root, Obj(fs), ManifestSchema())
  {
    assert Resolve(root.defs, ManifestSchema(), {}) == Found(ManifestSchema());
    assert ValueConforms(root, Obj(fs), ManifestSchema());
    forall i | 0 <= i < |fs|
      ensures var rule := RuleFor(ManifestSchema(), fs[i].key);
              !rule.Refused? && (rule.Under? ==> Conforms(root, fs[i].value, rule.schema))
    {
      assert Fits(root, ManifestSchema(), fs[i]);
    }
  }

  lemma ManifestConforms(root: Root, id: string, argsSchema: seq<Field>, c: string, drivingArgs: seq<string>, more: seq<Field>)
    requires c in EFFECT_CLASSES
    requires forall i :: 0 <= i < |more| ==> DeclaresFields(more[i])
    ensures Conforms(root, Obj(Essentials(id, argsSchema, c, drivingArgs) + more), ManifestSchema())
  {
    var essentials := Essentials(id, argsSchema, c, drivingArgs);
    EssentialsFit(root, id, argsSchema, c, drivingArgs);
    EssentialsAreThere(id, argsSchema, c, drivingArgs, more);
    var fs := essentials + more;
    forall i | 0 <= i < |fs| ensures Fits(root, ManifestSchema(), fs[i]) {
      if i < 5 {
        assert fs[i] == essentials[i];
      } else {
        assert fs[i] == more[i - 5];
        DeclarationConforms(root, more[i - 5]);
      }
    }
    FittingConforms(root, fs);
  }

  // ---- main results -----------------------------------------------------------------------------

  /** Whatever was detected and guessed, the manifest built is a valid one. */
  lemma BuiltManifestsConform(search: (string, string) -> bool, tool: DetectedTool, guess: EffectGuess)
    ensures Conforms(Embedded(search), BuildManifest(tool, guess), ManifestSchema())
  {
    assert EFFECT_CLASSES[3] == FALLBACK;
    ManifestConforms(Embedded(search), tool.id, Described(tool), ClassFor(guess), guess.drivingArgs,
                     Listed("untrusted_fields", guess.untrustedFields));
  }

  /** An asserted role is handed out exactly when its class is one of the four; then the manifest is valid. */
  lemma HarnessIsHandedOutIff(search: (string, string) -> bool, h: Harness)
    ensures HarnessManifest(search, h) == if h.effectClass in EFFECT_CLASSES then Ok(HarnessValue(h)) else Err(UnknownClass)
    ensures h.effectClass in EFFECT_CLASSES ==> Conforms(Embedded(search), HarnessValue(h), ManifestSchema())
  {
    if h.effectClass in EFFECT_CLASSES {
      ManifestConforms(Embedded(search), h.id, ObjectSchema(h.argsSchema), h.effectClass, h.drivingArgs,
                       Listed("untrusted_fields", if h.untrusted then ["result"] else [])
                       + Listed("sensitive_fields", if h.sensitive then ["result"] else []));
      NoFaultsIffConforms(Embedded(search), HarnessValue(h), ManifestSchema(), "$");
    }
  }

  lemma {:induction false} GetFirst(fs: seq<Field>, i: nat, more: seq<Field>)
    requires i < |fs| && forall j :: 0 <= j < i ==> fs[j].key != fs[i].key
    ensures Get(fs + more, fs[i].key) == Some(fs[i].value)
  {
    assert (fs + more)[0] == fs[0] && (fs + more)[1..] == fs[1..] + more;
    if i > 0 { GetFirst(fs[1..], i - 1, more); }
  }

  /** What compilation reads of a built manifest: the class chosen for it, and no effect rules. */
  lemma BuiltIsParsed(tool: DetectedTool, guess: EffectGuess)
    ensures var m := Parsed(BuildManifest(tool, guess));
            m.id == tool.id && m.defaultClass == ClassFor(guess) && m.rules == []
  {
    var essentials := Essentials(tool.id, Described(tool), ClassFor(guess), guess.drivingArgs);
    var more := Listed("untrusted_fields", guess.untrustedFields);
    GetFirst(essentials, 1, more);
    GetFirst(essentials, 3, more);
    var effect := Effect(ClassFor(guess), guess.drivingArgs);
    assert EffectOf(BuildManifest(tool, guess)) == effect;
    GetFirst(effect.fields, 0, []);
    assert effect.fields + [] == effect.fields;
    assert Get(effect.fields[1..], "resolve") == Get(effect.fields[1..][1..], "resolve");
    assert Get(effect.fields, "resolve") == Get(effect.fields[1..], "resolve");
  }

  /** Fail closed: every tool built is a sink unless it was guessed a READ or a WRITE. */
  lemma UnclassifiedToolsAreSinks(t: Texts, ms: seq<ToolManifest>, policy: Policy, inputs: Option<Dict>, c: Compiled,
                                  i: nat, tool: DetectedTool, guess: EffectGuess)
    requires Compilation(t, ms, policy, inputs) == Ok(c)
    requires i < |ms| && ms[i] == Parsed(BuildManifest(tool, guess))
    ensures guess.defaultClass != "READ" && guess.defaultClass != "WRITE" ==> tool.id in c.egress
    ensures DistinctIds(ms) && tool.id in c.egress ==> guess.defaultClass != "READ" && guess.defaultClass != "WRITE"
  {
    BuiltIsParsed(tool, guess);
    SinksAndSources(t, ms, policy, inputs, c, tool.id);
    ClassIsEgressIff(guess);
    assert IsEgress(ms[i]) <==> IsEgressClass(ClassFor(guess));
  }

  lemma ClassIsEgressIff(guess: EffectGuess)
    ensures IsEgressClass(ClassFor(guess)) <==> guess.defaultClass != "READ" && guess.defaultClass != "WRITE"
  {
    assert forall x :: x in EFFECT_CLASSES <==> x == "READ" || x == "WRITE" || x == "EXPORT" || x == "EXEC";
  }
}
