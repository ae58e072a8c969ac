/** Validation of the metrics and usage log exporters of a Monitoring resource. */
module Exporters {
  import opened Text

  const MAX_FIELDS := 50
  const MAX_DEPTH := 10
  const MAX_STRING := 1024
  const MAX_ARRAY := 100
  const MAX_EXPORTER_SIZE := 10240
  const MAX_TOTAL_SIZE := 51200

  /** A decoded configuration value. Strings are counted in bytes, one char each. */
  datatype Value =
    | Object(fields: map<string, Value>)
    | Array(items: seq<Value>)
    | Text(text: string)
    | Integer
    | Float64
    | Float32
    | Boolean
    | Null
    | Unsupported

  // ---- The structural limits ----

  /** The recursive check, with the depth it is called at. */
  predicate WithinLimits(v: Value, depth: nat)
    decreases v
  {
    depth <= MAX_DEPTH &&
    match v
    case Object(fields) =>
      && |fields| <= MAX_FIELDS
      && forall k :: k in fields ==> |k| <= MAX_STRING && WithinLimits(fields[k], depth + 1)
    case Array(items) =>
      |items| <= MAX_ARRAY && forall i :: 0 <= i < |items| ==> WithinLimits(items[i], depth + 1)
    case Text(text) => |text| <= MAX_STRING
    case Unsupported => false
    case _ => true
  }

  /** Walks a value; map entries in any order. */
  method ValidateConfigDepthAndTypes(v: Value, depth: nat) returns (ok: bool)
    ensures ok <==> WithinLimits(v, depth)
    decreases v, 1
  {
    if depth > MAX_DEPTH { return false; }
    match v
    case Object(fields) =>
      if |fields| > MAX_FIELDS { return false; }
      ok := ValidateFields(v, depth);
    case Array(items) =>
      if |items| > MAX_ARRAY { return false; }
      for i := 0 to |items|
        invariant forall j :: 0 <= j < i ==> WithinLimits(items[j], depth + 1)
      {
        var fine := ValidateConfigDepthAndTypes(items[i], depth + 1);
        if !fine { return false; }
      }
      ok := true;
    case Text(text) => ok := |text| <= MAX_STRING;
    case Unsupported => ok := false;
    case _ => ok := true;
  }

  method ValidateFields(v: Value, depth: nat) returns (ok: bool)
    requires v.Object?
    ensures ok <==> forall k :: k in v.fields ==> |k| <= MAX_STRING && WithinLimits(v.fields[k], depth + 1)
    decreases v, 0
  {
    var left := v.fields.Keys;
    while left != {}
      invariant left <= v.fields.Keys
      invariant forall k :: k in v.fields.Keys - left ==> |k| <= MAX_STRING && WithinLimits(v.fields[k], depth + 1)
      decreases |left|
    {
      var k :| k in left;
      if |k| > MAX_STRING { return false; }
      var fine := ValidateConfigDepthAndTypes(v.fields[k], depth + 1);
      if !fine { return false; }
      left := left - {k};
    }
    ok := true;
  }

  // ---- The same limits, said of every position in the tree ----

  datatype Step = Field(key: string) | Item(index: nat)

  type Path = seq<Step>

  predicate HasStep(v: Value, step: Step) {
    match step
    case Field(key) => v.Object? && key in v.fields
    case Item(index) => v.Array? && index < |v.items|
  }

  function Child(v: Value, step: Step): (c: Value)
    requires HasStep(v, step)
    ensures c < v
  {
    match step
    case Field(key) => v.fields[key]
    case Item(index) => v.items[index]
  }

  predicate Reaches(v: Value, path: Path)
    decreases |path|
  {
    path == [] || (HasStep(v, path[0]) && Reaches(Child(v, path[0]), path[1..]))
  }

  function At(v: Value, path: Path): Value
    requires Reaches(v, path)
    decreases |path|
  {
    if path == [] then v else At(Child(v, path[0]), path[1..])
  }

  /** A value that is fine by itself, whatever its children are. */
  predicate NodeFine(v: Value) {
    match v
    case Object(fields) => |fields| <= MAX_FIELDS && forall k :: k in fields ==> |k| <= MAX_STRING
    case Array(items) => |items| <= MAX_ARRAY
    case Text(text) => |text| <= MAX_STRING
    case Unsupported => false
    case _ => true
  }

  /** No position is too deep and every position is fine by itself. */
  ghost predicate EveryPositionFine(v: Value, depth: nat) {
    forall path :: Reaches(v, path) ==> depth + |path| <= MAX_DEPTH && NodeFine(At(v, path))
  }

  lemma {:induction false} WithinLimitsReaches(v: Value, depth: nat, path: Path)
    requires WithinLimits(v, depth) && Reaches(v, path)
    ensures depth + |path| <= MAX_DEPTH && NodeFine(At(v, path))
    decreases |path|
  {
    if path != [] {
      WithinLimitsReaches(Child(v, path[0]), depth + 1, path[1..]);
    }
  }

  lemma {:induction false} FineBelow(v: Value, depth: nat, step: Step)
    requires EveryPositionFine(v, depth) && HasStep(v, step)
    ensures EveryPositionFine(Child(v, step), depth + 1)
  {
    var c := Child(v, step);
    forall path | Reaches(c, path)
      ensures depth + 1 + |path| <= MAX_DEPTH && NodeFine(At(c, path))
    {
      var longer := [step] + path;
      assert longer[0] == step && longer[1..] == path;
      assert Reaches(v, longer) && At(v, longer) == At(c, path);
    }
  }

  lemma FineHere(v: Value, depth: nat)
    requires EveryPositionFine(v, depth)
    ensures depth <= MAX_DEPTH && NodeFine(v)
  {
    assert Reaches(v, []) && At(v, []) == v;
  }

  lemma {:induction false} ChildrenWithinLimits(v: Value, depth: nat)
    requires depth <= MAX_DEPTH && NodeFine(v)
    requires forall step :: HasStep(v, step) ==> WithinLimits(Child(v, step), depth + 1)
    ensures WithinLimits(v, depth)
  {
    if v.Object? {
      forall k | k in v.fields
        ensures WithinLimits(v.fields[k], depth + 1)
      {
        assert HasStep(v, Field(k));
      }
    } else if v.Array? {
      forall i | 0 <= i < |v.items|
        ensures WithinLimits(v.items[i], depth + 1)
      {
        assert HasStep(v, Item(i));
      }
    }
  }

  lemma {:induction false} FineIsWithinLimits(v: Value, depth: nat)
    requires EveryPositionFine(v, depth)
    ensures WithinLimits(v, depth)
    decreases v
  {
    hide EveryPositionFine;
    hide WithinLimits;
    FineHere(v, depth);
    forall step | HasStep(v, step)
      ensures WithinLimits(Child(v, step), depth + 1)
    {
      FineBelow(v, depth, step);
      FineIsWithinLimits(Child(v, step), depth + 1);
    }
    ChildrenWithinLimits(v, depth);
  }

  /** The recursive check accepts exactly the trees in which every position meets the limits. */
  lemma LimitsHoldEverywhere(v: Value, depth: nat)
    ensures WithinLimits(v, depth) <==> EveryPositionFine(v, depth)
  {
    if WithinLimits(v, depth) {
      forall path | Reaches(v, path)
        ensures depth + |path| <= MAX_DEPTH && NodeFine(At(v, path))
      {
        WithinLimitsReaches(v, depth, path);
      }
    }
    if EveryPositionFine(v, depth) { FineIsWithinLimits(v, depth); }
  }

  // ---- How large an accepted tree can be ----

  /** The steps out of a value, all of them. */
  function Steps(v: Value): set<Step> {
    match v
    case Object(fields) => set k | k in fields :: Field(k)
    case Array(items) => set i | 0 <= i < |items| :: Item(i)
    case _ => {}
  }

  lemma StepsExist(v: Value, step: Step)
    ensures step in Steps(v) <==> HasStep(v, step)
  {
  }

  /** The positions in a tree. */
  ghost function Positions(v: Value): set<Path>
    decreases v, 1
  {
    {[]} + Below(v, Steps(v))
  }

  /** The positions behind some of the steps out of a value. */
  ghost function Below(v: Value, steps: set<Step>): set<Path>
    requires steps <= Steps(v)
    decreases v, 0
  {
    set step, path | step in steps && path in Positions(Child(v, step)) :: [step] + path
  }

  lemma {:induction false} PositionsAreReached(v: Value, path: Path)
    ensures path in Positions(v) <==> Reaches(v, path)
    decreases |path|
  {
    if path != [] {
      var step, rest := path[0], path[1..];
      assert path == [step] + rest;
      StepsExist(v, step);
      if HasStep(v, step) {
        PositionsAreReached(Child(v, step), rest);
      }
    }
  }

  /** 1 + 100 + ... + 100^n. */
  function Geometric(n: nat): (r: nat)
    ensures 99 * r == Pow100(n + 1) - 1
  {
    if n == 0 then 1 else 1 + 100 * Geometric(n - 1)
  }

  function Pow100(n: nat): (r: nat)
    ensures r >= 1
  {
    if n == 0 then 1 else 100 * Pow100(n - 1)
  }

  lemma FieldSteps(fields: map<string, Value>)
    ensures |Steps(Object(fields))| == |fields|
    decreases |fields|
  {
    if fields != map[] {
      var k :| k in fields;
      var rest := fields - {k};
      FieldSteps(rest);
      assert Steps(Object(fields)) == Steps(Object(rest)) + {Field(k)};
    } else {
      assert Steps(Object(fields)) == {};
    }
  }

  lemma ItemSteps(items: seq<Value>)
    ensures |Steps(Array(items))| == |items|
  {
    if items != [] {
      var n := |items| - 1;
      ItemSteps(items[..n]);
      assert Steps(Array(items)) == Steps(Array(items[..n])) + {Item(n)};
    } else {
      assert Steps(Array(items)) == {};
    }
  }

  /** As many steps as fields or items. */
  lemma StepsCounted(v: Value)
    ensures |Steps(v)| == match v case Object(fields) => |fields| case Array(items) => |items| case _ => 0
  {
    if v.Object? { FieldSteps(v.fields); }
    if v.Array? { ItemSteps(v.items); }
  }

  lemma BelowSplits(v: Value, steps: set<Step>, step: Step)
    requires steps <= Steps(v) && step in steps
    ensures Below(v, steps) == Below(v, steps - {step}) + Below(v, {step})
  {
    hide Positions;
    hide Steps;
  }

  lemma BelowOne(v: Value, step: Step)
    requires step in Steps(v) && HasStep(v, step)
    ensures Below(v, {step}) == set path | path in Positions(Child(v, step)) :: [step] + path
  {
    hide Positions;
    hide Steps;
    hide Child;
  }

  lemma BelowOneMore(v: Value, steps: set<Step>, step: Step)
    requires steps <= Steps(v) && step in steps
    ensures |Below(v, steps)| <= |Below(v, steps - {step})| + |Positions(Child(v, step))|
  {
    hide Positions;
    hide Below;
    hide Child;
    hide Steps;
    hide HasStep;
    StepsExist(v, step);
    BelowSplits(v, steps, step);
    BelowOne(v, step);
    Prefixed(step, Positions(Child(v, step)));
  }

  lemma {:induction false} Prefixed(step: Step, paths: set<Path>)
    ensures |set path | path in paths :: [step] + path| <= |paths|
    decreases |paths|
  {
    var image := set path | path in paths :: [step] + path;
    if paths == {} {
      assert image == {};
    } else {
      var p :| p in paths;
      Prefixed(step, paths - {p});
      assert image == (set path | path in paths - {p} :: [step] + path) + {[step] + p};
    }
  }

  lemma NothingBelow(v: Value)
    ensures Below(v, {}) == {}
  {
  }

  lemma {:induction false} BelowBounded(v: Value, steps: set<Step>, each: nat)
    requires steps <= Steps(v)
    requires forall step :: step in steps ==> |Positions(Child(v, step))| <= each
    ensures |Below(v, steps)| <= |steps| * each
    decreases |steps|
  {
    hide Positions;
    hide Child;
    hide Steps;
    hide Below;
    if steps == {} {
      NothingBelow(v);
    } else {
      var step :| step in steps;
      BelowBounded(v, steps - {step}, each);
      BelowOneMore(v, steps, step);
      assert |steps| * each == |steps - {step}| * each + each;
    }
  }

  lemma LeafPositions(v: Value)
    requires Steps(v) == {}
    ensures |Positions(v)| == 1
  {
    assert Positions(v) == {[]};
  }

  lemma PositionsBounded(v: Value, each: nat)
    requires forall step :: step in Steps(v) ==> |Positions(Child(v, step))| <= each
    ensures |Positions(v)| <= 1 + |Steps(v)| * each
  {
    hide Below;
    hide Child;
    hide Steps;
    BelowBounded(v, Steps(v), each);
  }

  lemma Times(a: nat, b: nat, each: nat)
    requires a <= b
    ensures a * each <= b * each
  {
  }

  lemma FewSteps(v: Value, depth: nat)
    requires WithinLimits(v, depth)
    ensures |Steps(v)| <= 100 && depth <= MAX_DEPTH
  {
    hide Steps;
    StepsCounted(v);
  }

  lemma {:induction false} SubtreeBounded(v: Value, depth: nat)
    requires WithinLimits(v, depth)
    ensures depth <= MAX_DEPTH && |Positions(v)| <= Geometric(MAX_DEPTH - depth)
    decreases v
  {
    hide Positions;
    hide Steps;
    hide Pow100;
    hide WithinLimits;
    hide Child;
    FewSteps(v, depth);
    if Steps(v) == {} {
      LeafPositions(v);
    } else {
      ChildrenBounded(v, depth);
      var each := Geometric(MAX_DEPTH - depth - 1);
      PositionsBounded(v, each);
      Times(|Steps(v)|, 100, each);
    }
  }

  lemma ChildWithinLimits(v: Value, depth: nat, step: Step)
    requires WithinLimits(v, depth) && step in Steps(v)
    ensures HasStep(v, step) && WithinLimits(Child(v, step), depth + 1) && depth < MAX_DEPTH
  {
    assert WithinLimits(Child(v, step), depth + 1);
  }

  /** A value with children is not at the last level, and its children are bounded. */
  lemma {:induction false} ChildrenBounded(v: Value, depth: nat)
    requires WithinLimits(v, depth) && Steps(v) != {}
    ensures depth < MAX_DEPTH
    ensures forall step :: step in Steps(v) ==> |Positions(Child(v, step))| <= Geometric(MAX_DEPTH - depth - 1)
    decreases v, 0
  {
    hide WithinLimits;
    hide Positions;
    hide Geometric;
    hide Child;
    var some :| some in Steps(v);
    ChildWithinLimits(v, depth, some);
    forall step | step in Steps(v)
      ensures |Positions(Child(v, step))| <= Geometric(MAX_DEPTH - depth - 1)
    {
      ChildWithinLimits(v, depth, step);
      SubtreeBounded(Child(v, step), depth + 1);
    }
  }

  /** An accepted configuration holds at most 1 + 50 * (100^9 - 1) / 99 values. */
  lemma AcceptedTreeIsBounded(config: map<string, Value>)
    requires WithinLimits(Object(config), 1)
    ensures 99 * (|Positions(Object(config))| - 1) <= 50 * (Pow100(9) - 1)
  {
    hide Positions;
    hide Steps;
    hide Pow100;
    var v := Object(config);
    StepsCounted(v);
    if Steps(v) == {} {
      LeafPositions(v);
    } else {
      ChildrenBounded(v, 1);
      var each := Geometric(8);
      PositionsBounded(v, each);
      Times(|Steps(v)|, 50, each);
    }
  }

  // ---- Schemas ----

  datatype FieldKind = StringKind | IntKind | BoolKind | ObjectKind | ArrayKind | StringMapKind | OtherKind

  /** Patterns are predicates on the text. */
  datatype FieldType = FieldType(
    kind: FieldKind,
    pattern: Option<string -> bool>,
    minLength: Option<nat>,
    maxLength: Option<nat>,
    allowedValues: seq<string>)

  type Rule = Value -> bool

  datatype Schema = Schema(
    required: seq<string>,
    allowed: seq<string>,
    fieldTypes: map<string, FieldType>,
    fieldRules: map<string, seq<Rule>>)

  predicate TypeFits(v: Value, kind: FieldKind) {
    match kind
    case StringKind => v.Text?
    case IntKind => v.Integer? || v.Float64?
    case BoolKind => v.Boolean?
    case ObjectKind => v.Object?
    case ArrayKind => v.Array?
    case StringMapKind => v.Object? && forall k :: k in v.fields ==> v.fields[k].Text?
    case OtherKind => false
  }

  /** Value by value: the kinds it is accepted for. */
  lemma KindsExactly(v: Value, kind: FieldKind)
    ensures TypeFits(v, kind) <==>
            match v
            case Text(_) => kind == StringKind
            case Integer => kind == IntKind
            case Float64 => kind == IntKind
            case Boolean => kind == BoolKind
            case Array(_) => kind == ArrayKind
            case Object(fields) => kind == ObjectKind || (kind == StringMapKind && forall k :: k in fields ==> fields[k].Text?)
            case _ => false
  {
  }

  predicate FieldFits(v: Value, t: FieldType) {
    && TypeFits(v, t.kind)
    && (t.kind.StringKind? ==>
          && (t.minLength.Some? ==> t.minLength.value <= |v.text|)
          && (t.maxLength.Some? ==> |v.text| <= t.maxLength.value)
          && (t.pattern.Some? ==> t.pattern.value(v.text))
          && (t.allowedValues == [] || v.text in t.allowedValues))
  }

  predicate RulesHold(rules: seq<Rule>, v: Value) {
    forall i :: 0 <= i < |rules| ==> rules[i](v)
  }

  predicate FieldAccepted(schema: Schema, field: string, v: Value) {
    && (field in schema.fieldTypes ==> FieldFits(v, schema.fieldTypes[field]))
    && (field in schema.fieldRules ==> RulesHold(schema.fieldRules[field], v))
  }

  predicate SchemaAccepts(schema: Schema, config: map<string, Value>) {
    && (forall i :: 0 <= i < |schema.required| ==> schema.required[i] in config)
    && (forall field :: field in config ==> field in schema.allowed && FieldAccepted(schema, field, config[field]))
  }

  /** Required fields, then allowed fields, then each field's type and rules; fields in any order. */
  method ValidateSchema(schema: Schema, config: map<string, Value>) returns (ok: bool)
    ensures ok <==> SchemaAccepts(schema, config)
  {
    for i := 0 to |schema.required|
      invariant forall j :: 0 <= j < i ==> schema.required[j] in config
    {
      if schema.required[i] !in config { return false; }
    }
    var left := config.Keys;
    while left != {}
      invariant left <= config.Keys
      invariant forall field :: field in config.Keys - left ==> field in schema.allowed
      decreases |left|
    {
      var field :| field in left;
      if field !in schema.allowed { return false; }
      left := left - {field};
    }
    left := config.Keys;
    while left != {}
      invariant left <= config.Keys
      invariant forall field :: field in config.Keys - left ==> FieldAccepted(schema, field, config[field])
      decreases |left|
    {
      var field :| field in left;
      var fine := ValidateField(schema, field, config[field]);
      if !fine { return false; }
      left := left - {field};
    }
    ok := true;
  }

  method ValidateField(schema: Schema, field: string, v: Value) returns (ok: bool)
    ensures ok <==> FieldAccepted(schema, field, v)
  {
    if field in schema.fieldTypes && !FieldFits(v, schema.fieldTypes[field]) { return false; }
    if field in schema.fieldRules {
      var rules := schema.fieldRules[field];
      for i := 0 to |rules|
        invariant forall j :: 0 <= j < i ==> rules[j](v)
      {
        if !rules[i](v) { return false; }
      }
    }
    ok := true;
  }

  // ---- The exporters of a resource ----

  /** The parts in libraries and tables: component IDs, YAML both ways, and the schemas by type. */
  datatype Toolkit = Toolkit(
    isComponentID: string -> bool,
    decode: string -> Option<map<string, Value>>,
    encode: map<string, Value> -> Option<string>,
    schemas: map<string, Schema>)

  predicate IsReserved(name: string) {
    name == "otlp/tempo" || name == "prometheus"
  }

  /** The part of a component ID before its first slash. */
  function ExporterType(name: string): string {
    if name == "" || name[0] == '/' then "" else [name[0]] + ExporterType(name[1..])
  }

  predicate SchemaFits(k: Toolkit, name: string, config: map<string, Value>) {
    ExporterType(name) in k.schemas ==> SchemaAccepts(k.schemas[ExporterType(name)], config)
  }

  predicate ConfigFits(k: Toolkit, name: string, config: map<string, Value>) {
    WithinLimits(Object(config), 1) && SchemaFits(k, name, config) && k.encode(config).Some?
  }

  /** Valid by itself; an empty configuration is skipped once its name is checked. */
  predicate ExporterFits(k: Toolkit, name: string, raw: string) {
    && !IsReserved(name) && k.isComponentID(name)
    && (raw != "" ==>
          |raw| <= MAX_EXPORTER_SIZE && k.decode(raw).Some? && ConfigFits(k, name, k.decode(raw).value))
  }

  /** The sum over a map, whatever order it is taken in. */
  ghost function Total<K>(sizes: map<K, nat>): nat
    decreases |sizes|
  {
    if sizes == map[] then 0
    else
      var k :| k in sizes;
      sizes[k] + Total(sizes - {k})
  }

  lemma {:induction false} TotalTakesAny<K>(sizes: map<K, nat>, k: K)
    requires k in sizes
    ensures Total(sizes) == sizes[k] + Total(sizes - {k})
    decreases |sizes|
  {
    var first :| first in sizes && Total(sizes) == sizes[first] + Total(sizes - {first});
    if first != k {
      TotalTakesAny(sizes - {first}, k);
      TotalTakesAny(sizes - {k}, first);
      assert sizes - {first} - {k} == sizes - {k} - {first};
    }
  }

  function Sizes(exporters: map<string, string>): map<string, nat> {
    map name | name in exporters :: |exporters[name]|
  }

  /** Every exporter valid by itself, and the sizes within the total. */
  ghost predicate Accepted(k: Toolkit, exporters: map<string, string>) {
    && (forall name :: name in exporters ==> ExporterFits(k, name, exporters[name]))
    && Total(Sizes(exporters)) <= MAX_TOTAL_SIZE
  }

  function Output(k: Toolkit, name: string, raw: string): string
    requires ExporterFits(k, name, raw) && raw != ""
  {
    TrimSpace(k.encode(k.decode(raw).value).value)
  }

  /** The exporters outside left are valid, and those with a configuration have their output. */
  ghost predicate Validated(k: Toolkit, exporters: map<string, string>, left: set<string>, outputs: map<string, string>) {
    && left <= exporters.Keys
    && (forall name :: name in exporters.Keys - left ==> ExporterFits(k, name, exporters[name]))
    && (forall name :: name in outputs <==> name in exporters.Keys - left && exporters[name] != "")
    && (forall name :: name in outputs ==> outputs[name] == Output(k, name, exporters[name]))
  }

  lemma NothingValidated(k: Toolkit, exporters: map<string, string>)
    ensures Validated(k, exporters, exporters.Keys, map[])
  {
  }

  lemma ValidatedSkip(k: Toolkit, exporters: map<string, string>, left: set<string>, outputs: map<string, string>, name: string)
    requires Validated(k, exporters, left, outputs) && name in left
    requires ExporterFits(k, name, exporters[name]) && exporters[name] == ""
    ensures Validated(k, exporters, left - {name}, outputs)
  {
    hide ExporterFits;
  }

  lemma ValidatedOneMore(k: Toolkit, exporters: map<string, string>, left: set<string>, outputs: map<string, string>, name: string)
    requires Validated(k, exporters, left, outputs) && name in left
    requires ExporterFits(k, name, exporters[name]) && exporters[name] != ""
    ensures Validated(k, exporters, left - {name}, outputs[name := Output(k, name, exporters[name])])
  {
    hide ExporterFits;
    hide Output;
  }

  lemma NotAccepted(k: Toolkit, exporters: map<string, string>, name: string)
    requires name in exporters && !ExporterFits(k, name, exporters[name])
    ensures !Accepted(k, exporters)
  {
    hide ExporterFits;
    hide Total;
  }

  /** Accepts or rejects the same way in whatever order the map is walked. */
  method ValidateExporters(k: Toolkit, exporters: map<string, string>) returns (r: Option<map<string, string>>)
    ensures r.Some? <==> Accepted(k, exporters)
    ensures r.Some? ==> Validated(k, exporters, {}, r.value)
  {
    var validated: map<string, string> := map[];
    var totalSize := 0;
    var left := exporters.Keys;
    ghost var open := Sizes(exporters);
    NothingValidated(k, exporters);
    while left != {}
      invariant Validated(k, exporters, left, validated)
      invariant left <= exporters.Keys && open.Keys == left
      invariant forall name :: name in left ==> open[name] == |exporters[name]|
      invariant totalSize + Total(open) == Total(Sizes(exporters)) && totalSize <= MAX_TOTAL_SIZE
      decreases |left|
    {
      hide Validated;
      hide Total;
      hide Output;
      hide ConfigFits;
      hide Accepted;
      var name :| name in left;
      var raw := exporters[name];
      TotalTakesAny(open, name);
      if IsReserved(name) || !k.isComponentID(name) {
        NotAccepted(k, exporters, name);
        return None;
      }
      if |raw| == 0 {
        ValidatedSkip(k, exporters, left, validated, name);
        left, open := left - {name}, open - {name};
        continue;
      }
      if |raw| > MAX_EXPORTER_SIZE {
        NotAccepted(k, exporters, name);
        return None;
      }
      totalSize := totalSize + |raw|;
      if totalSize > MAX_TOTAL_SIZE {
        TooLarge(k, exporters);
        return None;
      }
      var fine, output := ValidateConfig(k, name, raw);
      if !fine {
        NotAccepted(k, exporters, name);
        return None;
      }
      ValidatedOneMore(k, exporters, left, validated, name);
      validated := validated[name := output];
      left, open := left - {name}, open - {name};
    }
    AllValidated(k, exporters, validated);
    r := Some(validated);
  }

  lemma TooLarge(k: Toolkit, exporters: map<string, string>)
    requires Total(Sizes(exporters)) > MAX_TOTAL_SIZE
    ensures !Accepted(k, exporters)
  {
  }

  lemma AllValidated(k: Toolkit, exporters: map<string, string>, outputs: map<string, string>)
    requires Validated(k, exporters, {}, outputs) && Total(Sizes(exporters)) <= MAX_TOTAL_SIZE
    ensures Accepted(k, exporters)
  {
    hide ExporterFits;
    hide Total;
    hide Output;
  }

  /** What is behind the size checks: decode, limits, schema, encode. */
  method ValidateConfig(k: Toolkit, name: string, raw: string) returns (ok: bool, output: string)
    requires !IsReserved(name) && k.isComponentID(name) && 0 < |raw| <= MAX_EXPORTER_SIZE
    ensures ok <==> ExporterFits(k, name, raw)
    ensures ok ==> output == Output(k, name, raw)
  {
    var decoded := k.decode(raw);
    if decoded.None? { return false, ""; }
    var config := decoded.value;
    if |config| > MAX_FIELDS { return false, ""; }
    output := "";
    ok := ValidateConfigDepthAndTypes(Object(config), 1);
    if !ok { return; }
    if ExporterType(name) in k.schemas {
      ok := ValidateSchema(k.schemas[ExporterType(name)], config);
      if !ok { return; }
    }
    var encoded := k.encode(config);
    if encoded.None? { return false, ""; }
    return true, TrimSpace(encoded.value);
  }

  /** In an accepted set every position of every decoded configuration meets the limits,
      and every configuration is of bounded size. */
  lemma AcceptedConfigsAreBounded(k: Toolkit, exporters: map<string, string>, name: string)
    requires Accepted(k, exporters) && name in exporters && exporters[name] != ""
    ensures k.decode(exporters[name]).Some?
    ensures var v := Object(k.decode(exporters[name]).value);
            && EveryPositionFine(v, 1)
            && 99 * (|Positions(v)| - 1) <= 50 * (Pow100(9) - 1)
  {
    hide WithinLimits;
    hide EveryPositionFine;
    hide Positions;
    assert ExporterFits(k, name, exporters[name]);
    var config := k.decode(exporters[name]).value;
    LimitsHoldEverywhere(Object(config), 1);
    AcceptedTreeIsBounded(config);
  }

  /** Dropping exporters from an accepted set leaves it accepted. */
  lemma {:induction false} AcceptedShrinks(k: Toolkit, exporters: map<string, string>, name: string)
    requires Accepted(k, exporters) && name in exporters
    ensures Accepted(k, exporters - {name})
  {
    hide ExporterFits;
    hide Total;
    TotalTakesAny(Sizes(exporters), name);
    assert Sizes(exporters) - {name} == Sizes(exporters - {name});
  }

  /** Within the limits, in numbers. */
  predicate WithinNumbers(v: Value) {
    match v
    case Object(fields) => |fields| <= 50 && forall key :: key in fields ==> |key| <= 1024
    case Array(items) => |items| <= 100
    case Text(text) => |text| <= 1024
    case Unsupported => false
    case _ => true
  }

  /** The names that are never accepted, and the sizes in numbers. */
  lemma AcceptedNames(k: Toolkit, exporters: map<string, string>, name: string)
    requires Accepted(k, exporters) && name in exporters
    ensures name != "otlp/tempo" && name != "prometheus" && k.isComponentID(name)
    ensures |exporters[name]| <= 10240 && Total(Sizes(exporters)) <= 51200
  {
    hide Total;
    assert ExporterFits(k, name, exporters[name]);
  }

  /** At every position of an accepted configuration. */
  lemma AcceptedInNumbers(k: Toolkit, exporters: map<string, string>, name: string, path: Path)
    requires Accepted(k, exporters) && name in exporters && exporters[name] != "" && k.decode(exporters[name]).Some?
    requires Reaches(Object(k.decode(exporters[name]).value), path)
    ensures |path| <= 9 && WithinNumbers(At(Object(k.decode(exporters[name]).value), path))
  {
    hide WithinLimits;
    hide Total;
    assert ExporterFits(k, name, exporters[name]);
    LimitsHoldEverywhere(Object(k.decode(exporters[name]).value), 1);
  }

  /** The other way: a lone exporter that keeps to the numbers, under a good name and without
      a schema for its type, is accepted. */
  lemma WithinNumbersAccepted(k: Toolkit, name: string, raw: string)
    requires k.isComponentID(name) && name != "otlp/tempo" && name != "prometheus"
    requires 0 < |raw| <= 10240 && k.decode(raw).Some? && k.encode(k.decode(raw).value).Some?
    requires ExporterType(name) !in k.schemas
    requires forall path :: Reaches(Object(k.decode(raw).value), path) ==>
               |path| <= 9 && WithinNumbers(At(Object(k.decode(raw).value), path))
    ensures Accepted(k, map[name := raw])
  {
    hide WithinLimits;
    var v := Object(k.decode(raw).value);
    assert EveryPositionFine(v, 1);
    LimitsHoldEverywhere(v, 1);
    TotalTakesAny(Sizes(map[name := raw]), name);
    assert Sizes(map[name := raw]) - {name} == map[];
  }
}
