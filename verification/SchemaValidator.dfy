/**
 The interpreter of plugin payload schemas: a subset of JSON Schema with local references, bounded by
 1000 visited nodes and 32 path segments. A path is kept as its number of dot-separated segments.
 */
module SchemaValidator {
  import opened Prelude
  import opened Json

  const NODE_LIMIT := 1000
  const SEGMENT_LIMIT := 32

  datatype Code = ComplexityExceeded | SchemaInvalid | SchemaUnsupported | ValidationFailed

  const SUPPORTED: set<string> := {
    "$defs", "definitions", "$ref", "$schema", "title", "description", "type", "properties", "required",
    "additionalProperties", "items", "enum", "const", "minLength", "maxLength", "minimum", "maximum",
    "minItems", "maxItems"
  }

  // ---------------------------------------------------------------------------
  // Looking up members
  // ---------------------------------------------------------------------------

  /** The names every host object answers to without holding them itself. */
  const INHERITED: set<string> := {
    "constructor", "hasOwnProperty", "isPrototypeOf", "propertyIsEnumerable", "toLocaleString", "toString",
    "valueOf", "__proto__", "__defineGetter__", "__defineSetter__", "__lookupGetter__", "__lookupSetter__"
  }

  /** What a name finds: a member, something inherited (which is a bare object for one name), or nothing. */
  datatype Found = Own(value: Value) | Inherited(bareObject: bool) | Missing

  function Lookup(members: seq<Member>, key: string): Found {
    match Get(members, key)
    case Some(v) => Own(v)
    case None => if key in INHERITED then Inherited(key == "__proto__") else Missing
  }

  // ---------------------------------------------------------------------------
  // Keywords that look at one value
  // ---------------------------------------------------------------------------

  function Power10(e: nat): (p: nat)
    ensures p > 0
  {
    if e == 0 then 1 else 10 * Power10(e - 1)
  }

  /** The mantissa of `n` at an exponent no larger than its own. */
  function Scaled(n: Decimal, exponent: int): int
    requires exponent <= n.exponent
  {
    n.mantissa * Power10(n.exponent - exponent)
  }

  predicate Less(a: Decimal, b: Decimal) {
    var e := Min(a.exponent, b.exponent);
    Scaled(a, e) < Scaled(b, e)
  }

  predicate IsInteger(n: Decimal) {
    n.exponent >= 0 || n.mantissa % Power10(-n.exponent) == 0
  }

  lemma {:induction false} Power10Adds(a: nat, b: nat)
    ensures Power10(a + b) == Power10(a) * Power10(b)
  {
    if a > 0 {
      Power10Adds(a - 1, b);
      Associates(10, Power10(a - 1), Power10(b));
    }
  }

  lemma Associates(a: int, b: int, c: int)
    ensures a * (b * c) == (a * b) * c
  {
  }

  lemma OrderScales(x: int, y: int, p: int)
    requires p > 0
    ensures x < y <==> x * p < y * p
  {
  }

  /** Scaling to a smaller exponent multiplies the mantissa. */
  lemma Rescale(n: Decimal, e: int, d: nat)
    requires e <= n.exponent
    ensures Scaled(n, e - d) == Scaled(n, e) * Power10(d)
  {
    Power10Adds(n.exponent - e, d);
    Associates(n.mantissa, Power10(n.exponent - e), Power10(d));
  }

  /** The comparison is that of the numbers: it comes out the same at every scale both can be written at. */
  lemma LessAtAnyScale(a: Decimal, b: Decimal, e: int)
    requires e <= a.exponent && e <= b.exponent
    ensures Less(a, b) <==> Scaled(a, e) < Scaled(b, e)
  {
    var top := Min(a.exponent, b.exponent);
    Rescale(a, top, top - e);
    Rescale(b, top, top - e);
    OrderScales(Scaled(a, top), Scaled(b, top), Power10(top - e));
  }

  lemma MultiplesDivide(m: int, p: int, k: int)
    requires p > 0 && m == k * p
    ensures m % p == 0
  {
    var q, r := m / p, m % p;
    assert m == q * p + r;
    assert (k - q) * p == k * p - q * p;
    RemainderIsZero(k - q, p, r);
  }

  lemma RemainderIsZero(d: int, p: int, r: int)
    requires 0 <= r < p && d * p == r
    ensures r == 0
  {
    assert d >= 1 ==> (d - 1) * p >= 0;
  }

  lemma DividesIsMultiple(m: int, p: int)
    requires p > 0 && m % p == 0
    ensures m == (m / p) * p
  {
  }

  /** A decimal is an integer exactly when, written with exponent `-d`, it is a multiple of 10^d. */
  lemma IntegersAreWhole(n: Decimal, d: int)
    requires d >= 0 && -d <= n.exponent
    ensures IsInteger(n) <==> exists k: int :: Scaled(n, -d) == k * Power10(d)
  {
    if n.exponent >= 0 {
      Rescale(n, 0, d);
    } else {
      var x := -n.exponent;
      Power10Adds(x, d - x);
      if IsInteger(n) {
        DividesIsMultiple(n.mantissa, Power10(x));
        Associates(n.mantissa / Power10(x), Power10(x), Power10(d - x));
      }
      if k: int :| Scaled(n, -d) == k * Power10(d) {
        Associates(k, Power10(x), Power10(d - x));
        Uncancel(n.mantissa, k * Power10(x), Power10(d - x));
        MultiplesDivide(n.mantissa, Power10(x), k);
      }
    }
  }

  lemma Uncancel(x: int, y: int, p: int)
    requires p > 0 && x * p == y * p
    ensures x == y
  {
    OrderScales(x, y, p);
    OrderScales(y, x, p);
  }

  /** A string's length counts the code units of UTF-16. */
  function Utf16Length(s: string): nat {
    if s == "" then 0 else (if s[0] as int >= 0x10000 then 2 else 1) + Utf16Length(s[1..])
  }

  predicate KeywordsSupported(schema: seq<Member>) {
    forall i :: 0 <= i < |schema| ==> schema[i].key in SUPPORTED
  }

  predicate EnumAllows(schema: seq<Member>, v: Value) {
    match Get(schema, "enum")
    case None => true
    case Some(Array(candidates)) => v in candidates
    case Some(_) => false
  }

  predicate ConstAllows(schema: seq<Member>, v: Value) {
    Get(schema, "const").None? || Get(schema, "const").value == v
  }

  predicate HasType(name: string, v: Value) {
    || (name == "null" && v.Null?)
    || (name == "object" && v.Object?)
    || (name == "array" && v.Array?)
    || (name == "string" && v.String?)
    || (name == "boolean" && v.Bool?)
    || (name == "number" && v.Number?)
    || (name == "integer" && v.Number? && IsInteger(v.number))
  }

  predicate TypeExplicit(schema: seq<Member>) {
    Get(schema, "type").Some? && Get(schema, "type").value.String?
  }

  predicate TypeAllows(schema: seq<Member>, v: Value) {
    TypeExplicit(schema) && HasType(Get(schema, "type").value.text, v)
  }

  /** A bound that is not a number does not bind. */
  predicate Bounded(schema: seq<Member>, least: string, most: string, measure: Decimal) {
    && (match Get(schema, least) case Some(Number(n)) => !Less(measure, n) case _ => true)
    && (match Get(schema, most) case Some(Number(n)) => !Less(n, measure) case _ => true)
  }

  predicate BoundsAllow(schema: seq<Member>, v: Value) {
    match v
    case String(text) => Bounded(schema, "minLength", "maxLength", Decimal(Utf16Length(text), 0))
    case Number(n) => Bounded(schema, "minimum", "maximum", n)
    case Array(items) => Bounded(schema, "minItems", "maxItems", Decimal(|items|, 0))
    case _ => true
  }

  // ---------------------------------------------------------------------------
  // Keywords that shape arrays and objects
  // ---------------------------------------------------------------------------

  predicate PropertiesFormed(schema: seq<Member>) {
    Get(schema, "properties").Some? ==> Get(schema, "properties").value.Object?
  }

  function Properties(schema: seq<Member>): seq<Member>
    requires PropertiesFormed(schema)
  {
    match Get(schema, "properties")
    case Some(properties) => properties.members
    case None => []
  }

  predicate RequiredFormed(schema: seq<Member>) {
    match Get(schema, "required")
    case None => true
    case Some(Array(keys)) => forall i :: 0 <= i < |keys| ==> keys[i].String?
    case Some(_) => false
  }

  /** Every required key is found in the value, be it inherited. */
  predicate RequiredPresent(schema: seq<Member>, members: seq<Member>)
    requires RequiredFormed(schema)
  {
    match Get(schema, "required")
    case Some(Array(keys)) => forall i :: 0 <= i < |keys| ==> !Lookup(members, keys[i].text).Missing?
    case None => true
  }

  predicate ShapeFormed(schema: seq<Member>, v: Value) {
    && (v.Array? ==> Get(schema, "items").Some?)
    && (v.Object? ==> PropertiesFormed(schema) && RequiredFormed(schema))
  }

  predicate ShapeAllows(schema: seq<Member>, v: Value)
    requires ShapeFormed(schema, v)
  {
    v.Object? ==> RequiredPresent(schema, v.members)
  }

  /** What governs an item or a member: nothing, a prohibition, or a schema. */
  datatype Rule = Free | Forbidden | Under(schema: Found)

  function RuleFor(schema: seq<Member>, key: string): Rule
    requires PropertiesFormed(schema)
  {
    match Lookup(Properties(schema), key)
    case Missing =>
      (match Get(schema, "additionalProperties")
       case None => Free
       case Some(Bool(allowed)) => if allowed then Free else Forbidden
       case Some(additional) => Under(Own(additional)))
    case found => Under(found)
  }

  function Dots(s: string): nat {
    if s == "" then 0 else (if s[0] == '.' then 1 else 0) + Dots(s[1..])
  }

  /** One item or member, its rule, and the segments it adds to the path. */
  datatype Part = Part(rule: Rule, value: Value, deeper: nat)

  function Parts(schema: seq<Member>, v: Value): (parts: seq<Part>)
    requires ShapeFormed(schema, v)
  {
    match v
    case Array(items) =>
      seq(|items|, i requires 0 <= i < |items| => Part(Under(Own(Get(schema, "items").value)), items[i], 0))
    case Object(members) =>
      seq(|members|, i requires 0 <= i < |members| =>
        Part(RuleFor(schema, members[i].key), members[i].value, 1 + Dots(members[i].key)))
    case _ => []
  }

  // ---------------------------------------------------------------------------
  // References
  // ---------------------------------------------------------------------------

  predicate IsNameChar(c: char) {
    'A' <= c <= 'Z' || 'a' <= c <= 'z' || '0' <= c <= '9' || c == '.' || c == '_' || c == '-'
  }

  predicate IsName(s: string) {
    s != "" && forall i :: 0 <= i < |s| ==> IsNameChar(s[i])
  }

  /** The container and the name of a local reference. */
  function ReferenceParts(reference: string): Option<(string, string)> {
    if "#/$defs/" <= reference && IsName(reference[8..]) then Some(("$defs", reference[8..]))
    else if "#/definitions/" <= reference && IsName(reference[14..]) then Some(("definitions", reference[14..]))
    else None
  }

  function Resolve(root: seq<Member>, reference: Value): Result<Found, Code> {
    if !reference.String? || ReferenceParts(reference.text).None? then Failure(SchemaUnsupported)
    else
      var (container, name) := ReferenceParts(reference.text).value;
      match Get(root, container)
      case Some(Object(definitions)) =>
        var found := Lookup(definitions, name);
        if found.Missing? then Failure(SchemaInvalid) else Success(found)
      case _ => Failure(SchemaInvalid)
  }

  // ---------------------------------------------------------------------------
  // The interpreter as a function
  // ---------------------------------------------------------------------------

  /** What one node asks for: to fail, to follow a reference, or to check parts. */
  datatype Step = Fail(code: Code) | Refer(target: Found) | Visit(parts: seq<Part>)

  function InspectKeywords(schema: seq<Member>, v: Value): Step {
    if !EnumAllows(schema, v) || !ConstAllows(schema, v) then Fail(ValidationFailed)
    else if !TypeExplicit(schema) then Fail(SchemaUnsupported)
    else if !TypeAllows(schema, v) || !BoundsAllow(schema, v) then Fail(ValidationFailed)
    else if !ShapeFormed(schema, v) then Fail(if v.Array? then SchemaUnsupported else SchemaInvalid)
    else if !ShapeAllows(schema, v) then Fail(ValidationFailed)
    else Visit(Parts(schema, v))
  }

  function Inspect(root: seq<Member>, s: Found, v: Value): Step {
    match s
    case Own(Object(schema)) =>
      if !KeywordsSupported(schema) then Fail(SchemaUnsupported)
      else if Get(schema, "$ref").Some? then
        match Resolve(root, Get(schema, "$ref").value)
        case Failure(code) => Fail(code)
        case Success(target) => Refer(target)
      else InspectKeywords(schema, v)
    case Inherited(true) => Fail(SchemaUnsupported)
    case _ => Fail(SchemaInvalid)
  }

  /** Acceptance reports how many nodes have been visited by then. */
  datatype Outcome = Accepted(nodes: nat) | Rejected(code: Code)

  function Check(root: seq<Member>, s: Found, v: Value, segments: nat, nodes: nat): (r: Outcome)
    ensures r.Accepted? ==> nodes < r.nodes <= NODE_LIMIT
    decreases NODE_LIMIT + 1 - nodes, 0
  {
    if nodes + 1 > NODE_LIMIT || segments > SEGMENT_LIMIT then Rejected(ComplexityExceeded)
    else Proceed(root, Inspect(root, s, v), v, segments, nodes + 1)
  }

  /** Doing what a node asks for. */
  function Proceed(root: seq<Member>, step: Step, v: Value, segments: nat, nodes: nat): (r: Outcome)
    requires nodes <= NODE_LIMIT
    ensures r.Accepted? ==> nodes <= r.nodes <= NODE_LIMIT
    decreases NODE_LIMIT + 1 - nodes, 2
  {
    match step
    case Fail(code) => Rejected(code)
    case Refer(target) => Check(root, target, v, segments, nodes)
    case Visit(parts) => CheckParts(root, parts, segments, nodes)
  }

  function CheckParts(root: seq<Member>, parts: seq<Part>, segments: nat, nodes: nat): (r: Outcome)
    requires nodes <= NODE_LIMIT
    ensures r.Accepted? ==> nodes <= r.nodes <= NODE_LIMIT
    decreases NODE_LIMIT + 1 - nodes, 1, |parts|
  {
    if parts == [] then Accepted(nodes)
    else
      match CheckPart(root, parts[0], segments, nodes)
      case Rejected(code) => Rejected(code)
      case Accepted(after) => CheckParts(root, parts[1..], segments, after)
  }

  function CheckPart(root: seq<Member>, part: Part, segments: nat, nodes: nat): (r: Outcome)
    requires nodes <= NODE_LIMIT
    ensures r.Accepted? ==> nodes <= r.nodes <= NODE_LIMIT
    decreases NODE_LIMIT + 1 - nodes, 1, 0
  {
    match part.rule
    case Free => Accepted(nodes)
    case Forbidden => Rejected(ValidationFailed)
    case Under(schema) => Check(root, schema, part.value, segments + part.deeper, nodes)
  }

  // ---------------------------------------------------------------------------
  // What it means to conform, without counting
  // ---------------------------------------------------------------------------

  /** A finite derivation: a node at a path of so many segments, and one branch per part that is governed. */
  datatype Tree = Tree(segments: nat, branches: seq<Option<Tree>>)

  /** The keywords of one schema without reference allow the value itself. */
  predicate KeywordsAllow(schema: seq<Member>, v: Value) {
    && EnumAllows(schema, v) && ConstAllows(schema, v) && TypeAllows(schema, v) && BoundsAllow(schema, v)
    && ShapeFormed(schema, v) && ShapeAllows(schema, v)
  }

  predicate IsSchema(s: Found) {
    s.Own? && s.value.Object? && KeywordsSupported(s.value.members)
  }

  /** A schema that is a reference, and resolves. */
  predicate Refers(root: seq<Member>, s: Found) {
    && IsSchema(s) && Get(s.value.members, "$ref").Some?
    && Resolve(root, Get(s.value.members, "$ref").value).Success?
  }

  function Target(root: seq<Member>, s: Found): Found
    requires Refers(root, s)
  {
    Resolve(root, Get(s.value.members, "$ref").value).value
  }

  /** A schema without reference whose keywords allow the value. */
  predicate Allows(s: Found, v: Value) {
    IsSchema(s) && Get(s.value.members, "$ref").None? && KeywordsAllow(s.value.members, v)
  }

  /**
   `tree` derives that `v` conforms to `s`: a reference passes the value on to its target; any other
   schema allows the value by all its keywords and every part by the rule that governs it.
   */
  predicate Conforms(root: seq<Member>, s: Found, v: Value, segments: nat, tree: Tree)
    decreases tree, 0
  {
    tree.segments == segments &&
    if Refers(root, s) then
      && |tree.branches| == 1 && tree.branches[0].Some?
      && Conforms(root, Target(root, s), v, segments, tree.branches[0].value)
    else
      Allows(s, v) && PartsConform(root, Parts(s.value.members, v), segments, tree.branches)
  }

  predicate PartsConform(root: seq<Member>, parts: seq<Part>, segments: nat, branches: seq<Option<Tree>>)
    decreases branches, 2
  {
    |branches| == |parts| &&
    forall i :: 0 <= i < |parts| ==> PartConforms(root, parts[i], segments, branches[i])
  }

  /** A free part needs no branch, a forbidden one has none, a governed one conforms to its schema. */
  predicate PartConforms(root: seq<Member>, part: Part, segments: nat, branch: Option<Tree>)
    decreases branch, 1
  {
    match part.rule
    case Free => branch.None?
    case Forbidden => false
    case Under(schema) => branch.Some? && Conforms(root, schema, part.value, segments + part.deeper, branch.value)
  }

  /** The number of nodes. */
  function Size(tree: Tree): nat {
    1 + ForestSize(tree.branches)
  }

  function ForestSize(branches: seq<Option<Tree>>): nat {
    if branches == [] then 0 else BranchSize(branches[0]) + ForestSize(branches[1..])
  }

  function BranchSize(branch: Option<Tree>): nat {
    match branch case None => 0 case Some(tree) => Size(tree)
  }

  /** No node is too deep. */
  predicate Shallow(tree: Tree) {
    tree.segments <= SEGMENT_LIMIT && ForestShallow(tree.branches)
  }

  predicate ForestShallow(branches: seq<Option<Tree>>) {
    branches == [] || (BranchShallow(branches[0]) && ForestShallow(branches[1..]))
  }

  predicate BranchShallow(branch: Option<Tree>) {
    match branch case None => true case Some(tree) => Shallow(tree)
  }

  /** The order in which the interpreter asks its questions does not matter for acceptance. */
  lemma InspectMeans(root: seq<Member>, s: Found, v: Value)
    ensures Inspect(root, s, v).Refer? <==> Refers(root, s)
    ensures Refers(root, s) ==> Inspect(root, s, v) == Refer(Target(root, s))
    ensures Inspect(root, s, v).Visit? <==> Allows(s, v)
    ensures Allows(s, v) ==> Inspect(root, s, v) == Visit(Parts(s.value.members, v))
  {
  }

  // ---------------------------------------------------------------------------
  // Acceptance is conformance within the limits
  // ---------------------------------------------------------------------------

  /** Every acceptance has a derivation with as many nodes as were counted, none of them too deep. */
  lemma {:induction false} AcceptedConforms(root: seq<Member>, s: Found, v: Value, segments: nat, nodes: nat)
    returns (tree: Tree)
    requires Check(root, s, v, segments, nodes).Accepted?
    ensures Conforms(root, s, v, segments, tree) && Shallow(tree)
    ensures Check(root, s, v, segments, nodes).nodes == nodes + Size(tree)
    decreases NODE_LIMIT + 1 - nodes, 0
  {
    InspectMeans(root, s, v);
    if Refers(root, s) {
      var sub := AcceptedConforms(root, Target(root, s), v, segments, nodes + 1);
      tree := Tree(segments, [Some(sub)]);
      OneBranch(tree.branches);
    } else {
      var branches := AcceptedPartsConform(root, Parts(s.value.members, v), segments, nodes + 1);
      tree := Tree(segments, branches);
    }
  }

  lemma {:induction false} AcceptedPartsConform(root: seq<Member>, parts: seq<Part>, segments: nat, nodes: nat)
    returns (branches: seq<Option<Tree>>)
    requires nodes <= NODE_LIMIT && CheckParts(root, parts, segments, nodes).Accepted?
    ensures PartsConform(root, parts, segments, branches) && ForestShallow(branches)
    ensures CheckParts(root, parts, segments, nodes).nodes == nodes + ForestSize(branches)
    decreases NODE_LIMIT + 1 - nodes, 1, |parts|
  {
    if parts == [] {
      branches := [];
    } else {
      var branch := AcceptedPartConforms(root, parts[0], segments, nodes);
      var after := CheckPart(root, parts[0], segments, nodes).nodes;
      var rest := AcceptedPartsConform(root, parts[1..], segments, after);
      branches := [branch] + rest;
      assert branches[1..] == rest;
      forall i | 0 <= i < |parts| ensures PartConforms(root, parts[i], segments, branches[i]) {
        if i > 0 {
          assert PartConforms(root, parts[1..][i - 1], segments, rest[i - 1]);
        }
      }
    }
  }

  lemma {:induction false} AcceptedPartConforms(root: seq<Member>, part: Part, segments: nat, nodes: nat)
    returns (branch: Option<Tree>)
    requires nodes <= NODE_LIMIT && CheckPart(root, part, segments, nodes).Accepted?
    ensures PartConforms(root, part, segments, branch) && BranchShallow(branch)
    ensures CheckPart(root, part, segments, nodes).nodes == nodes + BranchSize(branch)
    decreases NODE_LIMIT + 1 - nodes, 1, 0
  {
    match part.rule
    case Under(schema) =>
      var tree := AcceptedConforms(root, schema, part.value, segments + part.deeper, nodes);
      branch := Some(tree);
    case _ => branch := None;
  }

  lemma OneBranch(branches: seq<Option<Tree>>)
    requires |branches| == 1
    ensures ForestSize(branches) == BranchSize(branches[0])
    ensures ForestShallow(branches) <==> BranchShallow(branches[0])
  {
    assert ForestSize(branches[1..]) == 0;
  }

  /** A derivation that fits in what is left of the limits is found. */
  lemma {:induction false} ConformingIsAccepted(root: seq<Member>, s: Found, v: Value, segments: nat, nodes: nat,
                                                tree: Tree)
    requires Conforms(root, s, v, segments, tree) && Shallow(tree) && nodes + Size(tree) <= NODE_LIMIT
    ensures Check(root, s, v, segments, nodes) == Accepted(nodes + Size(tree))
    decreases tree, 0
  {
    InspectMeans(root, s, v);
    if Refers(root, s) {
      var sub := tree.branches[0].value;
      OneBranch(tree.branches);
      ConformingIsAccepted(root, Target(root, s), v, segments, nodes + 1, sub);
    } else {
      ConformingPartsAreAccepted(root, Parts(s.value.members, v), segments, nodes + 1, tree.branches);
    }
  }

  lemma {:induction false} ConformingPartsAreAccepted(root: seq<Member>, parts: seq<Part>, segments: nat, nodes: nat,
                                                      branches: seq<Option<Tree>>)
    requires PartsConform(root, parts, segments, branches) && ForestShallow(branches)
    requires nodes + ForestSize(branches) <= NODE_LIMIT
    ensures CheckParts(root, parts, segments, nodes) == Accepted(nodes + ForestSize(branches))
    decreases branches, 2
  {
    if parts != [] {
      assert PartConforms(root, parts[0], segments, branches[0]);
      ConformingPartIsAccepted(root, parts[0], segments, nodes, branches[0]);
      forall i | 0 <= i < |parts[1..]| ensures PartConforms(root, parts[1..][i], segments, branches[1..][i]) {
        assert PartConforms(root, parts[i + 1], segments, branches[i + 1]);
      }
      ConformingPartsAreAccepted(root, parts[1..], segments, nodes + BranchSize(branches[0]), branches[1..]);
    }
  }

  lemma {:induction false} ConformingPartIsAccepted(root: seq<Member>, part: Part, segments: nat, nodes: nat,
                                                    branch: Option<Tree>)
    requires PartConforms(root, part, segments, branch) && BranchShallow(branch)
    requires nodes + BranchSize(branch) <= NODE_LIMIT
    ensures CheckPart(root, part, segments, nodes) == Accepted(nodes + BranchSize(branch))
    decreases branch, 1
  {
    match part.rule
    case Under(schema) =>
      ConformingIsAccepted(root, schema, part.value, segments + part.deeper, nodes, branch.value);
    case _ =>
  }

  ghost predicate Derivable(root: seq<Member>, s: Found, v: Value, segments: nat, most: int) {
    exists tree :: Conforms(root, s, v, segments, tree) && Shallow(tree) && Size(tree) <= most
  }

  /**
   The interpreter accepts exactly the values with a derivation of at most as many nodes as are left,
   none at a path of more than 32 segments.
   */
  lemma AcceptsExactlyTheDerivable(root: seq<Member>, s: Found, v: Value, segments: nat, nodes: nat)
    ensures Check(root, s, v, segments, nodes).Accepted? <==> Derivable(root, s, v, segments, NODE_LIMIT - nodes)
  {
    if Check(root, s, v, segments, nodes).Accepted? {
      var tree := AcceptedConforms(root, s, v, segments, nodes);
    }
    if Derivable(root, s, v, segments, NODE_LIMIT - nodes) {
      var tree :| Conforms(root, s, v, segments, tree) && Shallow(tree) && Size(tree) <= NODE_LIMIT - nodes;
      ConformingIsAccepted(root, s, v, segments, nodes, tree);
    }
  }

  // ---------------------------------------------------------------------------
  // More budget never changes a verdict
  // ---------------------------------------------------------------------------

  /** The same verdict, reached with so many nodes less on the count. */
  predicate SameVerdict(r: Outcome, q: Outcome, less: nat) {
    match r
    case Accepted(n) => q.Accepted? && q.nodes + less == n
    case Rejected(code) => q == r
  }

  /** Any verdict but exhaustion stands when the count starts lower. */
  lemma {:induction false} VerdictStands(root: seq<Member>, s: Found, v: Value, segments: nat, nodes: nat, less: nat)
    requires less <= nodes && Check(root, s, v, segments, nodes) != Rejected(ComplexityExceeded)
    ensures SameVerdict(Check(root, s, v, segments, nodes), Check(root, s, v, segments, nodes - less), less)
    decreases NODE_LIMIT + 1 - nodes, 0
  {
    var step := Inspect(root, s, v);
    if step.Refer? {
      VerdictStands(root, step.target, v, segments, nodes + 1, less);
    } else if step.Visit? {
      PartsVerdictStands(root, step.parts, segments, nodes + 1, less);
    }
  }

  lemma {:induction false} PartsVerdictStands(root: seq<Member>, parts: seq<Part>, segments: nat, nodes: nat, less: nat)
    requires less <= nodes <= NODE_LIMIT && CheckParts(root, parts, segments, nodes) != Rejected(ComplexityExceeded)
    ensures SameVerdict(CheckParts(root, parts, segments, nodes), CheckParts(root, parts, segments, nodes - less), less)
    decreases NODE_LIMIT + 1 - nodes, 1, |parts|
  {
    if parts != [] {
      if parts[0].rule.Under? {
        VerdictStands(root, parts[0].rule.schema, parts[0].value, segments + parts[0].deeper, nodes, less);
      }
      var first := CheckPart(root, parts[0], segments, nodes);
      if first.Accepted? {
        PartsVerdictStands(root, parts[1..], segments, first.nodes, less);
      }
    }
  }

  // ---------------------------------------------------------------------------
  // Circular references
  // ---------------------------------------------------------------------------

  /** References that lead back to themselves derive nothing, so the interpreter rejects them. */
  lemma {:induction false} CircularDerivesNothing(root: seq<Member>, circle: set<Found>, s: Found, v: Value,
                                                  segments: nat, tree: Tree)
    requires s in circle && forall t :: t in circle ==> Refers(root, t) && Target(root, t) in circle
    ensures !Conforms(root, s, v, segments, tree)
    decreases tree
  {
    if Conforms(root, s, v, segments, tree) {
      CircularDerivesNothing(root, circle, Target(root, s), v, segments, tree.branches[0].value);
    }
  }

  lemma CircularIsRejected(root: seq<Member>, circle: set<Found>, s: Found, v: Value, segments: nat, nodes: nat)
    requires s in circle && forall t :: t in circle ==> Refers(root, t) && Target(root, t) in circle
    ensures Check(root, s, v, segments, nodes) == Rejected(ComplexityExceeded)
    decreases NODE_LIMIT + 1 - nodes
  {
    if nodes < NODE_LIMIT && segments <= SEGMENT_LIMIT {
      InspectMeans(root, s, v);
      CircularIsRejected(root, circle, Target(root, s), v, segments, nodes + 1);
    }
  }

  // ---------------------------------------------------------------------------
  // The interpreter with its running count
  // ---------------------------------------------------------------------------

  /** The count of visited nodes, shared by a whole validation. */
  class Budget {
    var nodes: nat

    constructor ()
      ensures nodes == 0
    {
      nodes := 0;
    }
  }

  /** A run that ends with `failure` (none when it accepts) and so many nodes counted did what `r` says. */
  predicate Reports(r: Outcome, failure: Option<Code>, nodes: nat) {
    match r
    case Accepted(n) => failure.None? && nodes == n
    case Rejected(code) => failure == Some(code)
  }

  method ValidateSchemaNode(root: seq<Member>, s: Found, v: Value, segments: nat, state: Budget)
    returns (failure: Option<Code>)
    requires state.nodes <= NODE_LIMIT
    modifies state
    ensures Reports(Check(root, s, v, segments, old(state.nodes)), failure, state.nodes)
    decreases NODE_LIMIT + 1 - state.nodes, 0
  {
    state.nodes := state.nodes + 1;
    if state.nodes > NODE_LIMIT || segments > SEGMENT_LIMIT {
      return Some(ComplexityExceeded);
    }
    failure := ValidateSchema(root, s, v, segments, state);
  }

  method ValidateSchema(root: seq<Member>, s: Found, v: Value, segments: nat, state: Budget)
    returns (failure: Option<Code>)
    requires state.nodes <= NODE_LIMIT
    modifies state
    ensures Reports(Proceed(root, Inspect(root, s, v), v, segments, old(state.nodes)), failure, state.nodes)
    decreases NODE_LIMIT + 1 - state.nodes, 4
  {
    if s.Inherited? && s.bareObject {
      return Some(SchemaUnsupported);
    }
    if !s.Own? || !s.value.Object? {
      assert Inspect(root, s, v) == Fail(SchemaInvalid);
      return Some(SchemaInvalid);
    }
    var schema := s.value.members;
    for i := 0 to |schema|
      invariant state.nodes == old(state.nodes)
      invariant forall j :: 0 <= j < i ==> schema[j].key in SUPPORTED
    {
      if schema[i].key !in SUPPORTED {
        assert Inspect(root, s, v) == Fail(SchemaUnsupported);
        return Some(SchemaUnsupported);
      }
    }
    var reference := Get(schema, "$ref");
    if reference.None? {
      failure := ValidateKeywords(root, schema, v, segments, state);
    } else {
      var target := Resolve(root, reference.value);
      if target.Failure? {
        return Some(target.error);
      }
      failure := ValidateSchemaNode(root, target.value, v, segments, state);
    }
  }

  /** The function's answer for a schema without reference. */
  function CheckKeywords(root: seq<Member>, schema: seq<Member>, v: Value, segments: nat, nodes: nat): Outcome
    requires nodes <= NODE_LIMIT
  {
    Proceed(root, InspectKeywords(schema, v), v, segments, nodes)
  }

  method ValidateKeywords(root: seq<Member>, schema: seq<Member>, v: Value, segments: nat, state: Budget)
    returns (failure: Option<Code>)
    requires state.nodes <= NODE_LIMIT
    modifies state
    ensures Reports(CheckKeywords(root, schema, v, segments, old(state.nodes)), failure, state.nodes)
    decreases NODE_LIMIT + 1 - state.nodes, 3
  {
    if !EnumAllows(schema, v) {
      return Some(ValidationFailed);
    }
    if !ConstAllows(schema, v) {
      return Some(ValidationFailed);
    }
    if !TypeExplicit(schema) {
      return Some(SchemaUnsupported);
    }
    if !TypeAllows(schema, v) || !BoundsAllow(schema, v) {
      return Some(ValidationFailed);
    }
    if v.Array? {
      if Get(schema, "items").None? {
        return Some(SchemaUnsupported);
      }
      failure := ValidateItems(root, schema, v, segments, state);
    } else if v.Object? {
      if !PropertiesFormed(schema) || !RequiredFormed(schema) {
        return Some(SchemaInvalid);
      }
      if !RequiredPresent(schema, v.members) {
        return Some(ValidationFailed);
      }
      failure := ValidateMembers(root, schema, v, segments, state);
    } else {
      assert Parts(schema, v) == [];
      assert CheckParts(root, [], segments, state.nodes) == Accepted(state.nodes);
      return None;
    }
  }

  lemma NextPart(root: seq<Member>, parts: seq<Part>, i: nat, segments: nat, nodes: nat)
    requires i < |parts| && nodes <= NODE_LIMIT
    ensures CheckParts(root, parts[i..], segments, nodes) ==
            match CheckPart(root, parts[i], segments, nodes)
            case Rejected(code) => Rejected(code)
            case Accepted(after) => CheckParts(root, parts[i + 1..], segments, after)
  {
    assert parts[i..][0] == parts[i] && parts[i..][1..] == parts[i + 1..];
  }

  method ValidateItems(root: seq<Member>, schema: seq<Member>, v: Value, segments: nat, state: Budget)
    returns (failure: Option<Code>)
    requires state.nodes <= NODE_LIMIT && v.Array? && ShapeFormed(schema, v)
    modifies state
    ensures Reports(CheckParts(root, Parts(schema, v), segments, old(state.nodes)), failure, state.nodes)
    decreases NODE_LIMIT + 1 - state.nodes, 2
  {
    var items := Own(Get(schema, "items").value);
    ghost var parts := Parts(schema, v);
    for i := 0 to |v.items|
      invariant old(state.nodes) <= state.nodes <= NODE_LIMIT
      invariant CheckParts(root, parts, segments, old(state.nodes)) ==
                CheckParts(root, parts[i..], segments, state.nodes)
    {
      NextPart(root, parts, i, segments, state.nodes);
      failure := ValidateSchemaNode(root, items, v.items[i], segments, state);
      if failure.Some? {
        return;
      }
    }
    return None;
  }

  method ValidateMembers(root: seq<Member>, schema: seq<Member>, v: Value, segments: nat, state: Budget)
    returns (failure: Option<Code>)
    requires state.nodes <= NODE_LIMIT && v.Object? && ShapeFormed(schema, v)
    modifies state
    ensures Reports(CheckParts(root, Parts(schema, v), segments, old(state.nodes)), failure, state.nodes)
    decreases NODE_LIMIT + 1 - state.nodes, 2
  {
    ghost var parts := Parts(schema, v);
    for i := 0 to |v.members|
      invariant old(state.nodes) <= state.nodes <= NODE_LIMIT
      invariant CheckParts(root, parts, segments, old(state.nodes)) ==
                CheckParts(root, parts[i..], segments, state.nodes)
    {
      NextPart(root, parts, i, segments, state.nodes);
      var m := v.members[i];
      failure := ValidatePart(root, Part(RuleFor(schema, m.key), m.value, 1 + Dots(m.key)), segments, state);
      if failure.Some? {
        return;
      }
    }
    return None;
  }

  method ValidatePart(root: seq<Member>, part: Part, segments: nat, state: Budget)
    returns (failure: Option<Code>)
    requires state.nodes <= NODE_LIMIT
    modifies state
    ensures Reports(CheckPart(root, part, segments, old(state.nodes)), failure, state.nodes)
    decreases NODE_LIMIT + 1 - state.nodes, 1
  {
    match part.rule {
      case Free => return None;
      case Forbidden => return Some(ValidationFailed);
      case Under(schema) =>
        failure := ValidateSchemaNode(root, schema, part.value, segments + part.deeper, state);
    }
  }

  /** A whole validation: it fails exactly when no derivation of 1000 shallow nodes exists. */
  method AssertPluginJsonSchema(root: seq<Member>, v: Value) returns (failure: Option<Code>)
    ensures failure.None? <==> Derivable(root, Own(Object(root)), v, 1, NODE_LIMIT)
    ensures failure.Some? ==> Check(root, Own(Object(root)), v, 1, 0) == Rejected(failure.value)
  {
    var state := new Budget();
    failure := ValidateSchemaNode(root, Own(Object(root)), v, 1, state);
    AcceptsExactlyTheDerivable(root, Own(Object(root)), v, 1, 0);
  }

  // ---------------------------------------------------------------------------
  // Names every host object answers to
  // ---------------------------------------------------------------------------

  predicate HasKey(members: seq<Member>, key: string) {
    exists i :: 0 <= i < |members| && members[i].key == key
  }

  lemma {:induction false} MemberIsHeld(members: seq<Member>, key: string)
    ensures Get(members, key).Some? <==> HasKey(members, key)
  {
    if members != [] {
      MemberIsHeld(members[1..], key);
      if HasKey(members, key) && members[0].key != key {
        var i :| 0 <= i < |members| && members[i].key == key;
        assert members[1..][i - 1].key == key;
      }
      if HasKey(members[1..], key) {
        var i :| 0 <= i < |members[1..]| && members[1..][i].key == key;
        assert members[i + 1].key == key;
      }
    }
  }

  /**
   Requiring keys means that the value holds them exactly when each required key is held or is not an
   inherited name: an inherited name counts as present though the value does not hold it.
   */
  lemma RequiredMeansHeld(schema: seq<Member>, members: seq<Member>, keys: seq<Value>)
    requires RequiredFormed(schema) && Get(schema, "required") == Some(Array(keys))
    requires RequiredPresent(schema, members)
    ensures (forall i :: 0 <= i < |keys| ==> HasKey(members, keys[i].text))
            <==> (forall i :: 0 <= i < |keys| && keys[i].text in INHERITED ==> HasKey(members, keys[i].text))
  {
    forall i | 0 <= i < |keys| ensures HasKey(members, keys[i].text) || keys[i].text in INHERITED {
      assert !Lookup(members, keys[i].text).Missing?;
      MemberIsHeld(members, keys[i].text);
    }
  }

  /** The empty object meets the requirement of a key named like an inherited one. */
  lemma InheritedNameCounts() returns (root: seq<Member>)
    ensures Get(root, "required") == Some(Array([String("toString")]))
    ensures Check(root, Own(Object(root)), Object([]), 1, 0).Accepted?
  {
    root := [Member("type", String("object")), Member("required", Array([String("toString")]))];
    var tree := Tree(1, []);
    assert Get(root[1..], "required") == Some(Array([String("toString")]));
    assert Get(root, "$ref") == Get(root[1..], "$ref") == Get(root[2..], "$ref") == None;
    assert Get(root, "enum") == Get(root[1..], "enum") == Get(root[2..], "enum") == None;
    assert Get(root, "const") == Get(root[1..], "const") == Get(root[2..], "const") == None;
    assert Get(root, "properties") == Get(root[1..], "properties") == Get(root[2..], "properties") == None;
    assert Conforms(root, Own(Object(root)), Object([]), 1, tree);
    ConformingIsAccepted(root, Own(Object(root)), Object([]), 1, 0, tree);
  }

  /** What such a name finds, where the schema does not declare it, is taken for a schema. */
  lemma InheritedGoverns(schema: seq<Member>, key: string)
    requires PropertiesFormed(schema) && key in INHERITED && !HasKey(Properties(schema), key)
    ensures RuleFor(schema, key).Under? && RuleFor(schema, key).schema.Inherited?
  {
    MemberIsHeld(Properties(schema), key);
  }

  lemma InheritedGovernsNothing(root: seq<Member>, part: Part, segments: nat, branch: Option<Tree>)
    requires part.rule.Under? && part.rule.schema.Inherited?
    ensures !PartConforms(root, part, segments, branch)
  {
  }

  /** An accepted object conforms member by member. */
  lemma AcceptedMember(root: seq<Member>, schema: seq<Member>, members: seq<Member>, i: nat, segments: nat, nodes: nat)
    returns (branch: Option<Tree>)
    requires i < |members| && Get(schema, "$ref").None?
    requires Check(root, Own(Object(schema)), Object(members), segments, nodes).Accepted?
    ensures PropertiesFormed(schema)
    ensures PartConforms(root, Part(RuleFor(schema, members[i].key), members[i].value, 1 + Dots(members[i].key)),
                         segments, branch)
  {
    var tree := AcceptedConforms(root, Own(Object(schema)), Object(members), segments, nodes);
    branch := tree.branches[i];
    assert PartConforms(root, Parts(schema, Object(members))[i], segments, branch);
  }

  /**
   An object with a member of such a name is rejected unless the schema declares that property: whatever
   it says of additional properties, what the name inherits is taken for the member's schema.
   */
  lemma InheritedNameIsRejected(root: seq<Member>, schema: seq<Member>, members: seq<Member>, i: nat,
                                segments: nat, nodes: nat)
    requires i < |members| && members[i].key in INHERITED && Get(schema, "$ref").None?
    requires PropertiesFormed(schema) ==> !HasKey(Properties(schema), members[i].key)
    ensures Check(root, Own(Object(schema)), Object(members), segments, nodes).Rejected?
  {
    var key := members[i].key;
    if Check(root, Own(Object(schema)), Object(members), segments, nodes).Accepted? {
      var branch := AcceptedMember(root, schema, members, i, segments, nodes);
      InheritedGoverns(schema, key);
      InheritedGovernsNothing(root, Part(RuleFor(schema, key), members[i].value, 1 + Dots(key)), segments, branch);
    }
  }
}
