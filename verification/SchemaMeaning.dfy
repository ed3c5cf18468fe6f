/**
 What the payload schemas mean, keyword by keyword and apart from the interpreter: bounds and types of a value,
 members governed by what the schema says of their key, references by what they name.
 */
module SchemaMeaning {
  import opened Prelude
  import opened Json
  import opened SchemaValidator

  // ---------------------------------------------------------------------------
  // Lengths
  // ---------------------------------------------------------------------------

  /** The code units of a character, for summing. */
  function Units(): char -> int {
    (c: char) => if c as int >= 0x10000 then 2 else 1
  }

  function Separators(): char -> int {
    (c: char) => if c == '.' then 1 else 0
  }

  lemma {:induction false} SumFromFront<T>(s: seq<T>, f: T -> int)
    requires s != []
    ensures Sum(s, f) == f(s[0]) + Sum(s[1..], f)
  {
    var n := |s| - 1;
    if n > 0 {
      SumFromFront(s[..n], f);
      assert s[..n][1..] == s[1..][..n - 1];
    }
  }

  lemma {:induction false} LengthCountsUnits(s: string)
    ensures Utf16Length(s) == Sum(s, Units())
  {
    if s != "" {
      LengthCountsUnits(s[1..]);
      SumFromFront(s, Units());
    }
  }

  lemma {:induction false} DotsCountSeparators(s: string)
    ensures Dots(s) == Sum(s, Separators())
  {
    if s != "" {
      DotsCountSeparators(s[1..]);
      SumFromFront(s, Separators());
    }
  }

  /** The two decimals are the same number. */
  predicate Ties(a: Decimal, b: Decimal) {
    !Less(a, b) && !Less(b, a)
  }

  lemma TiesAtScale(a: Decimal, b: Decimal, e: int)
    requires e <= a.exponent && e <= b.exponent
    ensures Ties(a, b) <==> Scaled(a, e) == Scaled(b, e)
  {
    LessAtAnyScale(a, b, e);
    LessAtAnyScale(b, a, e);
  }

  /** Numbers are decimal: one more zero and a smaller exponent are the same number. */
  lemma PointCanBeShifted(mantissa: int, exponent: int)
    ensures Ties(Decimal(10 * mantissa, exponent), Decimal(mantissa, exponent + 1))
  {
    assert Power10(0) == 1 && Power10(1) == 10;
  }

  lemma TiesChain(a: Decimal, b: Decimal, c: Decimal)
    requires Ties(a, b) && Ties(b, c)
    ensures Ties(a, c)
  {
    var e := Min(a.exponent, Min(b.exponent, c.exponent));
    TiesAtScale(a, b, e);
    TiesAtScale(b, c, e);
    TiesAtScale(a, c, e);
  }

  /** Every number has a normal form. */
  lemma {:induction false} NormalFormExists(n: Decimal) returns (m: Decimal)
    ensures Normal(m) && Ties(n, m)
    decreases if n.mantissa < 0 then -n.mantissa else n.mantissa
  {
    if n.mantissa == 0 {
      m := Decimal(0, 0);
      TiesAtScale(n, m, Min(n.exponent, 0));
    } else if n.mantissa % 10 != 0 {
      m := n;
    } else {
      var shorter := Decimal(n.mantissa / 10, n.exponent + 1);
      m := NormalFormExists(shorter);
      PointCanBeShifted(n.mantissa / 10, n.exponent);
      TiesChain(n, shorter, m);
    }
  }

  /** And only one, so numbers in normal form are equal exactly when they are the same number. */
  lemma NormalFormIsUnique(a: Decimal, b: Decimal)
    requires Normal(a) && Normal(b) && Ties(a, b)
    ensures a == b
  {
    if a.exponent <= b.exponent {
      SameNormal(a, b);
    } else {
      SameNormal(b, a);
    }
  }

  lemma SameNormal(a: Decimal, b: Decimal)
    requires Normal(a) && Normal(b) && Ties(a, b) && a.exponent <= b.exponent
    ensures a == b
  {
    TiesAtScale(a, b, a.exponent);
    var d := b.exponent - a.exponent;
    assert a.mantissa == b.mantissa * Power10(d);
    if d > 0 {
      TenDivides(b.mantissa, d);
    }
  }

  lemma TenDivides(m: int, d: nat)
    requires d > 0
    ensures (m * Power10(d)) % 10 == 0
    ensures m != 0 ==> m * Power10(d) != 0
  {
    var p := Power10(d - 1);
    assert Power10(d) == 10 * p;
    Associates(m, 10, p);
    MultiplesDivide(m * Power10(d), 10, m * p);
  }

  // ---------------------------------------------------------------------------
  // One value and its schema
  // ---------------------------------------------------------------------------

  /** The name of the schema's type is one of the value's. */
  predicate TypeNames(v: Value, name: string) {
    match v
    case Null => name == "null"
    case Bool(_) => name == "boolean"
    case String(_) => name == "string"
    case Array(_) => name == "array"
    case Object(_) => name == "object"
    case Number(n) => name == "number" || (name == "integer" && IsInteger(n))
  }

  /** A keyword whose value is a number bounds the measure from below. */
  predicate AtLeast(schema: seq<Member>, keyword: string, measure: Decimal) {
    match Get(schema, keyword) case Some(Number(n)) => !Less(measure, n) case _ => true
  }

  predicate AtMost(schema: seq<Member>, keyword: string, measure: Decimal) {
    match Get(schema, keyword) case Some(Number(n)) => !Less(n, measure) case _ => true
  }

  /** What the schema says of the value itself, whatever its items and members are. */
  predicate Meets(schema: seq<Member>, v: Value) {
    && (Get(schema, "enum").Some? ==> Get(schema, "enum").value.Array? && v in Get(schema, "enum").value.items)
    && (Get(schema, "const").Some? ==> v == Get(schema, "const").value)
    && (match Get(schema, "type") case Some(String(name)) => TypeNames(v, name) case _ => false)
    && match v
       case String(text) =>
         AtLeast(schema, "minLength", Decimal(Sum(text, Units()), 0))
         && AtMost(schema, "maxLength", Decimal(Sum(text, Units()), 0))
       case Number(n) => AtLeast(schema, "minimum", n) && AtMost(schema, "maximum", n)
       case Array(items) =>
         AtLeast(schema, "minItems", Decimal(|items|, 0)) && AtMost(schema, "maxItems", Decimal(|items|, 0))
         && Get(schema, "items").Some?
       case Object(members) => ObjectMeets(schema, members)
       case _ => true
  }

  /** Required keys are held, unless they are inherited ones. */
  predicate ObjectMeets(schema: seq<Member>, members: seq<Member>) {
    && (Get(schema, "properties").Some? ==> Get(schema, "properties").value.Object?)
    && (Get(schema, "required").Some? ==>
          && Get(schema, "required").value.Array?
          && forall k :: k in Get(schema, "required").value.items ==>
               k.String? && (HasKey(members, k.text) || InheritedName(k.text)))
  }

  predicate InheritedName(key: string) {
    key in {"constructor", "hasOwnProperty", "isPrototypeOf", "propertyIsEnumerable", "toLocaleString", "toString",
            "valueOf", "__proto__", "__defineGetter__", "__defineSetter__", "__lookupGetter__", "__lookupSetter__"}
  }

  predicate Supported(schema: seq<Member>) {
    forall m :: m in schema ==>
      m.key in {"$defs", "definitions", "$ref", "$schema", "title", "description", "type", "properties",
                "required", "additionalProperties", "items", "enum", "const", "minLength", "maxLength",
                "minimum", "maximum", "minItems", "maxItems"}
  }

  lemma {:induction false} BoundsMean(schema: seq<Member>, least: string, most: string, measure: Decimal)
    ensures Bounded(schema, least, most, measure) <==>
              AtLeast(schema, least, measure) && AtMost(schema, most, measure)
  {
  }

  lemma {:induction false} TypesMean(schema: seq<Member>, v: Value)
    ensures TypeAllows(schema, v) <==>
              match Get(schema, "type") case Some(String(name)) => TypeNames(v, name) case _ => false
  {
  }

  lemma {:induction false} ObjectKeywordsMean(schema: seq<Member>, members: seq<Member>)
    ensures ObjectMeets(schema, members) <==>
              PropertiesFormed(schema) && RequiredFormed(schema) && RequiredPresent(schema, members)
  {
    forall key ensures Lookup(members, key).Missing? <==> !HasKey(members, key) && !InheritedName(key) {
      MemberIsHeld(members, key);
    }
    if Get(schema, "required").Some? && Get(schema, "required").value.Array? {
      var keys := Get(schema, "required").value.items;
      assert forall i :: 0 <= i < |keys| ==> keys[i] in keys;
    }
  }

  /** The keywords of a schema allow a value exactly when the value meets what they say. */
  lemma {:induction false} KeywordsMean(schema: seq<Member>, v: Value)
    ensures KeywordsAllow(schema, v) <==> Meets(schema, v)
  {
    TypesMean(schema, v);
    match v
    case String(text) =>
      LengthCountsUnits(text);
      BoundsMean(schema, "minLength", "maxLength", Decimal(Utf16Length(text), 0));
    case Number(n) => BoundsMean(schema, "minimum", "maximum", n);
    case Array(items) =>
      BoundsMean(schema, "minItems", "maxItems", Decimal(|items|, 0));
    case Object(members) => ObjectKeywordsMean(schema, members);
    case _ =>
  }

  // ---------------------------------------------------------------------------
  // Items and members
  // ---------------------------------------------------------------------------

  /** The segments of a member's path: one more, and one more for every dot in its key. */
  function Below(segments: nat, key: string): int {
    segments + 1 + Sum(key, Separators())
  }

  /** The part has a derivation of its own under this schema. */
  predicate Derives(root: seq<Member>, schema: Value, v: Value, segments: int, branch: Option<Tree>) {
    segments >= 0 && branch.Some? && Conforms(root, Own(schema), v, segments, branch.value)
  }

  /**
   A declared member conforms to its property's schema. Of the other members an inherited name is never
   allowed; else it is as `additionalProperties` says: all when it is absent or true, none when it is false, and
   those that conform when it is a schema.
   */
  predicate MemberConforms(root: seq<Member>, schema: seq<Member>, m: Member, segments: nat, branch: Option<Tree>) {
    if Get(schema, "properties").Some? && Get(schema, "properties").value.Object?
       && HasKey(Get(schema, "properties").value.members, m.key)
    then
      var declared := Get(Get(schema, "properties").value.members, m.key);
      declared.Some? && Derives(root, declared.value, m.value, Below(segments, m.key), branch)
    else if InheritedName(m.key) then false
    else
      match Get(schema, "additionalProperties")
      case None => branch.None?
      case Some(Bool(true)) => branch.None?
      case Some(Bool(false)) => false
      case Some(additional) => Derives(root, additional, m.value, Below(segments, m.key), branch)
  }

  lemma {:induction false} RuleMeans(schema: seq<Member>, key: string)
    requires PropertiesFormed(schema)
    ensures HasKey(Properties(schema), key) <==> Get(Properties(schema), key).Some?
    ensures RuleFor(schema, key) ==
            if Get(Properties(schema), key).Some? then Under(Own(Get(Properties(schema), key).value))
            else if InheritedName(key) then Under(Inherited(key == "__proto__"))
            else match Get(schema, "additionalProperties")
                 case None => Free
                 case Some(Bool(true)) => Free
                 case Some(Bool(false)) => Forbidden
                 case Some(additional) => Under(Own(additional))
  {
    MemberIsHeld(Properties(schema), key);
  }

  lemma {:induction false} MemberMeans(root: seq<Member>, schema: seq<Member>, m: Member, segments: nat,
                                       branch: Option<Tree>)
    requires PropertiesFormed(schema)
    ensures PartConforms(root, Part(RuleFor(schema, m.key), m.value, 1 + Dots(m.key)), segments, branch) <==>
              MemberConforms(root, schema, m, segments, branch)
  {
    DotsCountSeparators(m.key);
    RuleMeans(schema, m.key);
    var part := Part(RuleFor(schema, m.key), m.value, 1 + Dots(m.key));
    if part.rule.Under? && part.rule.schema.Inherited? {
      InheritedGovernsNothing(root, part, segments, branch);
    }
  }

  // ---------------------------------------------------------------------------
  // Conformance, node by node
  // ---------------------------------------------------------------------------

  /** An object conforms when it meets its schema and every member conforms to what governs it. */
  lemma {:induction false} ObjectMeans(root: seq<Member>, schema: seq<Member>, members: seq<Member>, segments: nat,
                                       tree: Tree)
    requires Get(schema, "$ref").None?
    ensures Conforms(root, Own(Object(schema)), Object(members), segments, tree) <==>
              && tree.segments == segments && Supported(schema) && Meets(schema, Object(members))
              && |tree.branches| == |members|
              && forall i :: 0 <= i < |members| ==>
                   MemberConforms(root, schema, members[i], segments, tree.branches[i])
  {
    SupportedMeans(schema);
    KeywordsMean(schema, Object(members));
    NodeMeans(root, schema, Object(members), segments, tree);
    if KeywordsAllow(schema, Object(members)) {
      MembersMean(root, schema, members, segments, tree.branches);
    }
  }

  /** A node of a schema without reference: the keywords allow the value, and every part conforms. */
  lemma {:induction false} NodeMeans(root: seq<Member>, schema: seq<Member>, v: Value, segments: nat, tree: Tree)
    requires Get(schema, "$ref").None?
    ensures Conforms(root, Own(Object(schema)), v, segments, tree) <==>
              && tree.segments == segments && KeywordsSupported(schema) && KeywordsAllow(schema, v)
              && PartsConform(root, Parts(schema, v), segments, tree.branches)
  {
  }

  lemma {:induction false} MembersMean(root: seq<Member>, schema: seq<Member>, members: seq<Member>, segments: nat,
                                       branches: seq<Option<Tree>>)
    requires KeywordsAllow(schema, Object(members))
    ensures PartsConform(root, Parts(schema, Object(members)), segments, branches) <==>
              && |branches| == |members|
              && forall i :: 0 <= i < |members| ==> MemberConforms(root, schema, members[i], segments, branches[i])
  {
    if |branches| == |members| {
      var parts := Parts(schema, Object(members));
      forall i | 0 <= i < |members|
        ensures PartConforms(root, parts[i], segments, branches[i]) <==>
                  MemberConforms(root, schema, members[i], segments, branches[i])
      {
        MemberMeans(root, schema, members[i], segments, branches[i]);
      }
    }
  }

  lemma {:induction false} SupportedMeans(schema: seq<Member>)
    ensures KeywordsSupported(schema) <==> Supported(schema)
  {
    assert forall i :: 0 <= i < |schema| ==> schema[i] in schema;
  }

  /** An array conforms when it meets its schema and every item conforms to the schema of items. */
  lemma {:induction false} ArrayMeans(root: seq<Member>, schema: seq<Member>, items: seq<Value>, segments: nat,
                                      tree: Tree)
    requires Get(schema, "$ref").None?
    ensures Conforms(root, Own(Object(schema)), Array(items), segments, tree) <==>
              && tree.segments == segments && Supported(schema) && Meets(schema, Array(items))
              && |tree.branches| == |items|
              && forall i :: 0 <= i < |items| ==>
                   Derives(root, Get(schema, "items").value, items[i], segments, tree.branches[i])
  {
    SupportedMeans(schema);
    KeywordsMean(schema, Array(items));
    if Meets(schema, Array(items)) && |tree.branches| == |items| {
      var parts := Parts(schema, Array(items));
      forall i | 0 <= i < |items|
        ensures PartConforms(root, parts[i], segments, tree.branches[i]) <==>
                  Derives(root, Get(schema, "items").value, items[i], segments, tree.branches[i])
      {
      }
    }
  }

  /**
   The verdict on a value without parts, error by error: too many nodes or too deep, an unknown keyword, a value
   that `enum` or `const` excludes, a type that is not named, a wrong type or a bound that is passed.
   */
  lemma {:induction false} ScalarVerdict(root: seq<Member>, schema: seq<Member>, v: Value, segments: nat, nodes: nat)
    requires Get(schema, "$ref").None? && !v.Array? && !v.Object?
    ensures Check(root, Own(Object(schema)), v, segments, nodes) ==
            if nodes >= 1000 || segments > 32 then Rejected(ComplexityExceeded)
            else if !Supported(schema) then Rejected(SchemaUnsupported)
            else if Meets(schema, v) then Accepted(nodes + 1)
            else if !Listed(schema, v) then Rejected(ValidationFailed)
            else if !TypeNamed(schema) then Rejected(SchemaUnsupported)
            else Rejected(ValidationFailed)
  {
    SupportedMeans(schema);
    KeywordsMean(schema, v);
    if KeywordsAllow(schema, v) {
      assert Parts(schema, v) == [];
    }
    assert Listed(schema, v) <==> EnumAllows(schema, v) && ConstAllows(schema, v);
    assert TypeNamed(schema) <==> TypeExplicit(schema);
    if nodes < 1000 {
      assert CheckParts(root, [], segments, nodes + 1) == Accepted(nodes + 1);
    }
  }

  predicate Listed(schema: seq<Member>, v: Value) {
    && (Get(schema, "enum").Some? ==> Get(schema, "enum").value.Array? && v in Get(schema, "enum").value.items)
    && (Get(schema, "const").Some? ==> v == Get(schema, "const").value)
  }

  predicate TypeNamed(schema: seq<Member>) {
    Get(schema, "type").Some? && Get(schema, "type").value.String?
  }

  predicate TypeIs(schema: seq<Member>, name: string) {
    Get(schema, "type") == Some(String(name))
  }

  predicate WellShaped(schema: seq<Member>) {
    && (Get(schema, "properties").Some? ==> Get(schema, "properties").value.Object?)
    && (Get(schema, "required").Some? ==>
          && Get(schema, "required").value.Array?
          && forall k :: k in Get(schema, "required").value.items ==> k.String?)
  }

  /** Why an object is rejected before its members are looked at. */
  lemma {:induction false} ObjectRejection(root: seq<Member>, schema: seq<Member>, members: seq<Member>,
                                           segments: nat, nodes: nat)
    requires Get(schema, "$ref").None? && Supported(schema) && nodes < 1000 && segments <= 32
    requires !Meets(schema, Object(members))
    ensures Check(root, Own(Object(schema)), Object(members), segments, nodes) == Rejected(
              if !Listed(schema, Object(members)) then ValidationFailed
              else if !TypeNamed(schema) then SchemaUnsupported
              else if TypeIs(schema, "object") && !WellShaped(schema) then SchemaInvalid
              else ValidationFailed)
  {
    SupportedMeans(schema);
    KeywordsMean(schema, Object(members));
    ObjectKeywordsMean(schema, members);
    WellShapedMeans(schema);
    assert InspectKeywords(schema, Object(members)).Fail?;
    KeywordsVerdict(root, schema, Object(members), segments, nodes);
  }

  lemma {:induction false} WellShapedMeans(schema: seq<Member>)
    ensures WellShaped(schema) <==> PropertiesFormed(schema) && RequiredFormed(schema)
  {
    if Get(schema, "required").Some? && Get(schema, "required").value.Array? {
      var keys := Get(schema, "required").value.items;
      assert forall i :: 0 <= i < |keys| ==> keys[i] in keys;
    }
  }

  /** Why an array is rejected before its items are looked at. */
  lemma {:induction false} ArrayRejection(root: seq<Member>, schema: seq<Member>, items: seq<Value>,
                                          segments: nat, nodes: nat)
    requires Get(schema, "$ref").None? && Supported(schema) && nodes < 1000 && segments <= 32
    requires !Meets(schema, Array(items))
    ensures Check(root, Own(Object(schema)), Array(items), segments, nodes) == Rejected(
              if !Listed(schema, Array(items)) then ValidationFailed
              else if !TypeNamed(schema) then SchemaUnsupported
              else if !TypeIs(schema, "array") then ValidationFailed
              else if !AtLeast(schema, "minItems", Decimal(|items|, 0)) then ValidationFailed
              else if !AtMost(schema, "maxItems", Decimal(|items|, 0)) then ValidationFailed
              else SchemaUnsupported)
  {
    SupportedMeans(schema);
    KeywordsMean(schema, Array(items));
    BoundsMean(schema, "minItems", "maxItems", Decimal(|items|, 0));
    assert InspectKeywords(schema, Array(items)).Fail?;
    KeywordsVerdict(root, schema, Array(items), segments, nodes);
  }

  /** What is no object is no schema; the bare object that every object inherits is one without a type. */
  lemma {:induction false} NoSchemaVerdict(root: seq<Member>, s: Found, v: Value, segments: nat, nodes: nat)
    requires nodes < 1000 && segments <= 32 && (s.Own? ==> !s.value.Object?)
    ensures Check(root, s, v, segments, nodes) ==
            Rejected(if s == Inherited(true) then SchemaUnsupported else SchemaInvalid)
  {
  }

  predicate IsLocal(reference: string, container: string, name: string) {
    && container in {"$defs", "definitions"} && reference == "#/" + container + "/" + name
    && name != "" && (forall c :: c in name ==> NameCharacter(c))
  }

  /** A reference is unsupported unless it is local and simple, and invalid when it names nothing. */
  lemma {:induction false} BadReferenceVerdict(root: seq<Member>, schema: seq<Member>, v: Value, segments: nat,
                                               nodes: nat)
    requires Get(schema, "$ref").Some? && Supported(schema) && nodes < 1000 && segments <= 32
    ensures var r := Get(schema, "$ref").value;
            !r.String? || (forall container, name :: !IsLocal(r.text, container, name)) ==>
              Check(root, Own(Object(schema)), v, segments, nodes) == Rejected(SchemaUnsupported)
    ensures forall container, name, reference ::
              Get(schema, "$ref") == Some(String(reference)) && IsLocal(reference, container, name)
              && (forall target :: !Names(root, reference, container, name, target)) ==>
                Check(root, Own(Object(schema)), v, segments, nodes) == Rejected(SchemaInvalid)
  {
    SupportedMeans(schema);
    var r := Get(schema, "$ref").value;
    if r.String? {
      LocalParts(r.text);
      forall container, name | IsLocal(r.text, container, name)
        && (forall target :: !Names(root, r.text, container, name, target))
        ensures Resolve(root, r) == Failure(SchemaInvalid)
      {
        UnnamedFails(root, r.text, container, name);
      }
    }
  }

  lemma {:induction false} UnnamedFails(root: seq<Member>, reference: string, container: string, name: string)
    requires IsLocal(reference, container, name)
    requires forall target :: !Names(root, reference, container, name, target)
    ensures Resolve(root, String(reference)) == Failure(SchemaInvalid)
  {
    assert forall i :: 0 <= i < |name| ==> name[i] in name;
    PartsOfReference(reference, container, name);
    if Get(root, container).Some? && Get(root, container).value.Object? {
      var found := Lookup(Get(root, container).value.members, name);
      assert !Names(root, reference, container, name, found);
    }
  }

  lemma NamesHaveNameCharacters(name: string)
    ensures IsName(name) <==> name != "" && forall c :: c in name ==> NameCharacter(c)
  {
    assert forall i :: 0 <= i < |name| ==> name[i] in name;
  }

  lemma CutPrefix(prefix: string, s: string)
    requires prefix <= s
    ensures s == prefix + s[|prefix|..]
  {
  }

  lemma PartsAreLocal(reference: string)
    requires ReferenceParts(reference).Some?
    ensures var (container, name) := ReferenceParts(reference).value;
            IsLocal(reference, container, name)
  {
    var (container, name) := ReferenceParts(reference).value;
    NamesHaveNameCharacters(name);
    if container == "$defs" {
      assert "#/" + container + "/" == "#/$defs/";
      CutPrefix("#/$defs/", reference);
    } else {
      assert "#/" + container + "/" == "#/definitions/";
      CutPrefix("#/definitions/", reference);
    }
  }

  lemma LocalParts(reference: string)
    ensures match ReferenceParts(reference)
            case Some((container, name)) => IsLocal(reference, container, name)
            case None => forall container, name :: !IsLocal(reference, container, name)
  {
    if ReferenceParts(reference).Some? {
      PartsAreLocal(reference);
    } else {
      forall container, name ensures !IsLocal(reference, container, name) {
        if IsLocal(reference, container, name) {
          NamesHaveNameCharacters(name);
          PartsOfReference(reference, container, name);
        }
      }
    }
  }

  /** The reference is local and simple, and this is what it names. */
  predicate Names(root: seq<Member>, reference: string, container: string, name: string, target: Found) {
    && IsLocal(reference, container, name)
    && Get(root, container).Some? && Get(root, container).value.Object?
    && match target
       case Own(v) => Get(Get(root, container).value.members, name) == Some(v)
       case Inherited(bare) =>
         && Get(Get(root, container).value.members, name) == None && InheritedName(name)
         && (bare <==> name == "__proto__")
       case Missing => false
  }

  predicate NameCharacter(c: char) {
    'a' <= c <= 'z' || 'A' <= c <= 'Z' || '0' <= c <= '9' || c in "._-"
  }

  /** A reference that names something passes the value on to it and counts one node. */
  lemma {:induction false} ReferenceVerdict(root: seq<Member>, schema: seq<Member>, v: Value, segments: nat,
                                            nodes: nat, reference: string, container: string, name: string,
                                            target: Found)
    requires Get(schema, "$ref") == Some(String(reference)) && Names(root, reference, container, name, target)
    ensures Check(root, Own(Object(schema)), v, segments, nodes) ==
            if nodes >= 1000 || segments > 32 then Rejected(ComplexityExceeded)
            else if !Supported(schema) then Rejected(SchemaUnsupported)
            else Check(root, target, v, segments, nodes + 1)
  {
    SupportedMeans(schema);
    NamedResolves(root, reference, container, name, target);
  }

  lemma AfterPrefix(prefix: string, name: string)
    ensures prefix <= prefix + name && (prefix + name)[|prefix|..] == name
  {
  }

  lemma PartsOfReference(reference: string, container: string, name: string)
    requires container in {"$defs", "definitions"} && reference == "#/" + container + "/" + name && IsName(name)
    ensures ReferenceParts(reference) == Some((container, name))
  {
    if container == "$defs" {
      assert "#/" + container + "/" == "#/$defs/";
      AfterPrefix("#/$defs/", name);
    } else {
      assert "#/" + container + "/" == "#/definitions/";
      AfterPrefix("#/definitions/", name);
      assert reference[2] == 'd' && "#/$defs/"[2] == '$';
    }
  }

  lemma {:induction false} NamedResolves(root: seq<Member>, reference: string, container: string, name: string,
                                         target: Found)
    requires Names(root, reference, container, name, target)
    ensures Resolve(root, String(reference)) == Success(target)
  {
    assert forall i :: 0 <= i < |name| ==> name[i] in name;
    PartsOfReference(reference, container, name);
  }

  // ---------------------------------------------------------------------------
  // Members the schema does not declare
  // ---------------------------------------------------------------------------

  predicate DeclaredKey(schema: seq<Member>, key: string) {
    && Get(schema, "properties").Some? && Get(schema, "properties").value.Object?
    && HasKey(Get(schema, "properties").value.members, key)
  }

  /** An accepted object has, for each member, what governs it satisfied. */
  lemma {:induction false} AcceptedMembersConform(root: seq<Member>, schema: seq<Member>, members: seq<Member>,
                                                  i: nat, segments: nat, nodes: nat)
    returns (branch: Option<Tree>)
    requires Get(schema, "$ref").None? && i < |members|
    requires Check(root, Own(Object(schema)), Object(members), segments, nodes).Accepted?
    ensures MemberConforms(root, schema, members[i], segments, branch)
  {
    var tree := AcceptedConforms(root, Own(Object(schema)), Object(members), segments, nodes);
    ObjectMeans(root, schema, members, segments, tree);
    branch := tree.branches[i];
  }

  /** With `additionalProperties` false every member of an accepted object is a declared property. */
  lemma ClosedObjectsDeclareAll(root: seq<Member>, schema: seq<Member>, members: seq<Member>, segments: nat, nodes: nat)
    requires Get(schema, "$ref").None? && Get(schema, "additionalProperties") == Some(Bool(false))
    requires Check(root, Own(Object(schema)), Object(members), segments, nodes).Accepted?
    ensures forall m :: m in members ==> DeclaredKey(schema, m.key)
  {
    forall m | m in members ensures DeclaredKey(schema, m.key) {
      var i :| 0 <= i < |members| && members[i] == m;
      var branch := AcceptedMembersConform(root, schema, members, i, segments, nodes);
    }
  }

  lemma {:induction false} BranchFits(branches: seq<Option<Tree>>, i: nat)
    requires i < |branches| && ForestShallow(branches)
    ensures BranchShallow(branches[i]) && BranchSize(branches[i]) <= ForestSize(branches)
    decreases |branches|
  {
    if i > 0 {
      BranchFits(branches[1..], i - 1);
    }
  }

  lemma {:induction false} DerivingIsAccepted(root: seq<Member>, schema: Value, v: Value, segments: int,
                                              branch: Option<Tree>, nodes: nat)
    requires Derives(root, schema, v, segments, branch) && BranchShallow(branch)
    requires nodes + BranchSize(branch) <= NODE_LIMIT
    ensures segments >= 0 && Check(root, Own(schema), v, segments, nodes).Accepted?
  {
    ConformingIsAccepted(root, Own(schema), v, segments, nodes, branch.value);
  }

  /** The schema that governs a member, when there is one. */
  function Governing(schema: seq<Member>, key: string): Option<Value> {
    if DeclaredKey(schema, key) then Get(Get(schema, "properties").value.members, key)
    else
      match Get(schema, "additionalProperties")
      case Some(Bool(_)) => None
      case additional => additional
  }

  lemma {:induction false} ConformingMemberIsAccepted(root: seq<Member>, schema: seq<Member>, m: Member, segments: nat,
                                                      branch: Option<Tree>, nodes: nat)
    requires MemberConforms(root, schema, m, segments, branch) && Governing(schema, m.key).Some?
    requires BranchShallow(branch) && nodes + BranchSize(branch) <= NODE_LIMIT
    ensures var below := Below(segments, m.key);
            below >= 0 && Check(root, Own(Governing(schema, m.key).value), m.value, below, nodes).Accepted?
  {
    DerivingIsAccepted(root, Governing(schema, m.key).value, m.value, Below(segments, m.key), branch, nodes);
  }

  /**
   Every declared member of an accepted object is accepted by its property's schema, and every other member by the
   schema for additional properties if there is one, one segment and the dots of its key further down.
   */
  lemma {:induction false} GovernedMembersAreAccepted(root: seq<Member>, schema: seq<Member>, members: seq<Member>,
                                                      m: Member, segments: nat, nodes: nat)
    requires Get(schema, "$ref").None? && m in members && Governing(schema, m.key).Some?
    requires Check(root, Own(Object(schema)), Object(members), segments, nodes).Accepted?
    ensures var below := Below(segments, m.key);
            below >= 0 && Check(root, Own(Governing(schema, m.key).value), m.value, below, nodes).Accepted?
  {
    var tree := AcceptedConforms(root, Own(Object(schema)), Object(members), segments, nodes);
    GovernedBranch(root, schema, members, m, segments, tree, nodes);
  }

  lemma {:induction false} GovernedBranch(root: seq<Member>, schema: seq<Member>, members: seq<Member>, m: Member,
                                          segments: nat, tree: Tree, nodes: nat)
    requires Get(schema, "$ref").None? && m in members && Governing(schema, m.key).Some?
    requires Conforms(root, Own(Object(schema)), Object(members), segments, tree)
    requires Shallow(tree) && nodes + SchemaValidator.Size(tree) <= NODE_LIMIT
    ensures var below := Below(segments, m.key);
            below >= 0 && Check(root, Own(Governing(schema, m.key).value), m.value, below, nodes).Accepted?
  {
    var i :| 0 <= i < |members| && members[i] == m;
    ObjectMeans(root, schema, members, segments, tree);
    BranchFits(tree.branches, i);
    ConformingMemberIsAccepted(root, schema, m, segments, tree.branches[i], nodes);
  }

  /** A part that nothing governs makes no difference, wherever it stands. */
  lemma {:induction false} FreePartPasses(root: seq<Member>, before: seq<Part>, part: Part, after: seq<Part>,
                                          segments: nat, nodes: nat)
    requires nodes <= NODE_LIMIT && part.rule == Free
    ensures CheckParts(root, before + [part] + after, segments, nodes) ==
            CheckParts(root, before + after, segments, nodes)
    decreases |before|
  {
    if before == [] {
      assert ([part] + after)[1..] == after;
      assert before + [part] + after == [part] + after && before + after == after;
    } else {
      var first := CheckPart(root, before[0], segments, nodes);
      assert (before + [part] + after)[1..] == before[1..] + [part] + after;
      assert (before + after)[1..] == before[1..] + after;
      if first.Accepted? {
        FreePartPasses(root, before[1..], part, after, segments, first.nodes);
      }
    }
  }

  /** Nothing in the schema looks at members of this key. */
  predicate Indifferent(schema: seq<Member>, key: string) {
    && Get(schema, "enum").None? && Get(schema, "const").None?
    && !DeclaredKey(schema, key) && !InheritedName(key)
    && Get(schema, "additionalProperties") in {None, Some(Bool(true))}
    && match Get(schema, "required") case Some(Array(keys)) => String(key) !in keys case _ => true
  }

  /**
   With `additionalProperties` true or absent, a member that the schema does not mention changes nothing: the same
   verdict with it and without it, whatever its value, its key and its place.
   */
  lemma {:induction false} UndeclaredMembersPass(root: seq<Member>, schema: seq<Member>, before: seq<Member>,
                                                 m: Member, after: seq<Member>, segments: nat, nodes: nat)
    requires Get(schema, "$ref").None? && Indifferent(schema, m.key)
    ensures Check(root, Own(Object(schema)), Object(before + [m] + after), segments, nodes) ==
            Check(root, Own(Object(schema)), Object(before + after), segments, nodes)
  {
    var long, short := Object(before + [m] + after), Object(before + after);
    KeywordsVerdict(root, schema, long, segments, nodes);
    KeywordsVerdict(root, schema, short, segments, nodes);
    VerdictsAgree(root, schema, before, m, after, segments, nodes);
  }

  lemma {:induction false} VerdictsAgree(root: seq<Member>, schema: seq<Member>, before: seq<Member>, m: Member,
                                         after: seq<Member>, segments: nat, nodes: nat)
    requires Indifferent(schema, m.key)
    ensures Concluded(root, schema, InspectKeywords(schema, Object(before + [m] + after)), segments, nodes) ==
            Concluded(root, schema, InspectKeywords(schema, Object(before + after)), segments, nodes)
  {
    KeywordsIgnore(schema, before, m, after);
    if nodes < NODE_LIMIT && InspectKeywords(schema, Object(before + after)).Visit? {
      FreeMemberPasses(root, schema, before, m, after, segments, nodes + 1);
    }
  }

  /** The outcome at a schema without reference, from what its keywords ask for. */
  function Concluded(root: seq<Member>, schema: seq<Member>, step: Step, segments: nat, nodes: nat): Outcome {
    if nodes >= NODE_LIMIT || segments > SEGMENT_LIMIT then Rejected(ComplexityExceeded)
    else if !KeywordsSupported(schema) then Rejected(SchemaUnsupported)
    else
      match step
      case Fail(code) => Rejected(code)
      case Refer(_) => Rejected(SchemaInvalid)
      case Visit(parts) => CheckParts(root, parts, segments, nodes + 1)
  }

  lemma {:induction false} KeywordsVerdict(root: seq<Member>, schema: seq<Member>, v: Value, segments: nat, nodes: nat)
    requires Get(schema, "$ref").None?
    ensures Check(root, Own(Object(schema)), v, segments, nodes) ==
            Concluded(root, schema, InspectKeywords(schema, v), segments, nodes)
  {
  }

  lemma {:induction false} KeywordsIgnore(schema: seq<Member>, before: seq<Member>, m: Member, after: seq<Member>)
    requires Indifferent(schema, m.key)
    ensures var long := InspectKeywords(schema, Object(before + [m] + after));
            var short := InspectKeywords(schema, Object(before + after));
            || (long.Fail? && short == long)
            || (ShapeFormed(schema, Object(before + after))
                && long == Visit(Parts(schema, Object(before + [m] + after)))
                && short == Visit(Parts(schema, Object(before + after))))
  {
    if PropertiesFormed(schema) && RequiredFormed(schema) {
      RequirementsIgnore(schema, before, m, after);
    }
  }

  lemma {:induction false} FreeMemberPasses(root: seq<Member>, schema: seq<Member>, before: seq<Member>, m: Member,
                                            after: seq<Member>, segments: nat, nodes: nat)
    requires nodes <= NODE_LIMIT && PropertiesFormed(schema) && RequiredFormed(schema) && Indifferent(schema, m.key)
    ensures CheckParts(root, Parts(schema, Object(before + [m] + after)), segments, nodes) ==
            CheckParts(root, Parts(schema, Object(before + after)), segments, nodes)
  {
    var free, first, last := PartsSplit(schema, before, m, after);
    FreePartPasses(root, first, free, last, segments, nodes);
  }

  lemma {:induction false} PartsJoin(schema: seq<Member>, a: seq<Member>, b: seq<Member>)
    requires PropertiesFormed(schema) && RequiredFormed(schema)
    ensures Parts(schema, Object(a + b)) == Parts(schema, Object(a)) + Parts(schema, Object(b))
  {
    var joined, parts := Parts(schema, Object(a + b)), Parts(schema, Object(a)) + Parts(schema, Object(b));
    forall i | 0 <= i < |joined| ensures joined[i] == parts[i] {
      if i < |a| {
        assert (a + b)[i] == a[i];
      } else {
        assert (a + b)[i] == b[i - |a|];
      }
    }
  }

  lemma {:induction false} PartsSplit(schema: seq<Member>, before: seq<Member>, m: Member, after: seq<Member>)
    returns (free: Part, first: seq<Part>, last: seq<Part>)
    requires PropertiesFormed(schema) && RequiredFormed(schema) && Indifferent(schema, m.key)
    ensures free.rule == Free
    ensures Parts(schema, Object(before + [m] + after)) == first + [free] + last
    ensures Parts(schema, Object(before + after)) == first + last
  {
    first, last := Parts(schema, Object(before)), Parts(schema, Object(after));
    free := FreePart(schema, m);
    PartsJoin(schema, before, after);
    PartsJoin(schema, before + [m], after);
    PartsJoin(schema, before, [m]);
  }

  lemma {:induction false} FreePart(schema: seq<Member>, m: Member) returns (free: Part)
    requires PropertiesFormed(schema) && RequiredFormed(schema) && Indifferent(schema, m.key)
    ensures free.rule == Free && Parts(schema, Object([m])) == [free]
  {
    RuleMeans(schema, m.key);
    free := Parts(schema, Object([m]))[0];
  }

  lemma {:induction false} RequirementsIgnore(schema: seq<Member>, before: seq<Member>, m: Member, after: seq<Member>)
    requires RequiredFormed(schema) && Indifferent(schema, m.key)
    ensures RequiredPresent(schema, before + [m] + after) <==> RequiredPresent(schema, before + after)
  {
    match Get(schema, "required") {
      case Some(Array(keys)) =>
        forall i | 0 <= i < |keys|
          ensures Lookup(before + [m] + after, keys[i].text) == Lookup(before + after, keys[i].text)
        {
          assert keys[i] in keys;
          OthersStay(before, m, after, keys[i].text);
        }
      case _ =>
    }
  }

  lemma {:induction false} OthersStay(before: seq<Member>, m: Member, after: seq<Member>, key: string)
    requires key != m.key
    ensures Get(before + [m] + after, key) == Get(before + after, key)
  {
    if before == [] {
      assert ([m] + after)[1..] == after;
      assert before + [m] + after == [m] + after && before + after == after;
    } else {
      OthersStay(before[1..], m, after, key);
      assert (before + [m] + after)[1..] == before[1..] + [m] + after;
      assert (before + after)[1..] == before[1..] + after;
    }
  }
}
