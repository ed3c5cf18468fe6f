/**
 Assembling the context envelope from layers. The order of the layers is that of a fixed precedence of
 their sources; denials and mandatory protocols accumulate, permissions are intersected.
 */
module ContextAssembly {
  import opened Prelude
  import opened Sorting
  import opened Json
  import opened ContextMerge

  datatype Source = Core | PrivateProfile | BusinessDomain | Project | Agent | Request

  function Rank(s: Source): nat {
    match s
    case Core => 0
    case PrivateProfile => 1
    case BusinessDomain => 2
    case Project => 3
    case Agent => 4
    case Request => 5
  }

  datatype Classification = Public | Internal | Private | Restricted

  function Severity(c: Classification): nat {
    match c
    case Public => 0
    case Internal => 1
    case Private => 2
    case Restricted => 3
  }

  function DefaultClassification(s: Source): Classification {
    match s
    case Core => Public
    case PrivateProfile => Private
    case BusinessDomain => Internal
    case Project => Internal
    case Agent => Internal
    case Request => Private
  }

  function MostRestrictive(a: Classification, b: Classification): Classification {
    if Severity(b) > Severity(a) then b else a
  }

  /** A layer; a list of permissions that is not declared differs from an empty one. */
  datatype Layer = Layer(
    source: Source,
    values: seq<Member>,
    allow: Option<seq<string>>,
    deny: seq<string>,
    mandatoryProtocols: seq<string>,
    origin: string,
    details: string,
    classification: Option<Classification>)

  datatype Provenance = Provenance(
    source: Source, origin: string, details: string, classification: Classification, tokens: nat)

  datatype Envelope = Envelope(
    values: seq<Member>,
    allow: seq<string>,
    deny: seq<string>,
    mandatoryProtocols: seq<string>,
    provenance: seq<Provenance>,
    classification: Classification,
    estimatedTokens: nat)

  datatype Error = DuplicateSource | MissingProvenance

  /** What the host supplies: how strings compare, and how many bytes the text of an object takes. */
  datatype Host = Host(leq: (string, string) -> bool, bytes: seq<Member> -> nat)

  /** The white space that trimming removes. */
  predicate IsBlank(c: char) {
    c in "\t\n\r \U{0B}\U{0C}\U{A0}\U{1680}\U{2028}\U{2029}\U{202F}\U{205F}\U{3000}\U{FEFF}"
    || '\U{2000}' <= c <= '\U{200A}'
  }

  predicate Blank(s: string) {
    forall i :: 0 <= i < |s| ==> IsBlank(s[i])
  }

  // ---------------------------------------------------------------------------
  // Lists that keep each element once, in the order in which it came
  // ---------------------------------------------------------------------------

  function Add(s: seq<string>, x: string): seq<string> {
    if x in s then s else s + [x]
  }

  function AddAll(s: seq<string>, xs: seq<string>): (r: seq<string>)
    ensures forall x :: x in r <==> x in s || x in xs
    decreases xs
  {
    if xs == [] then s else AddAll(Add(s, xs[0]), xs[1..])
  }

  function Within(xs: seq<string>): string -> bool {
    x => x in xs
  }

  function Outside(xs: seq<string>): string -> bool {
    x => x !in xs
  }

  function Keep(s: seq<string>, p: string -> bool): (r: seq<string>)
    ensures forall x :: x in r <==> x in s && p(x)
  {
    if s == [] then [] else (if p(s[0]) then [s[0]] else []) + Keep(s[1..], p)
  }

  function StableUnique(h: Host, s: seq<string>): seq<string> {
    SortBy(AddAll([], s), h.leq)
  }

  // ---------------------------------------------------------------------------
  // Assembly
  // ---------------------------------------------------------------------------

  function BySource(): (Layer, Layer) -> bool {
    (a: Layer, b: Layer) => Rank(a.source) <= Rank(b.source)
  }

  /** What has been gathered from the layers so far. */
  datatype Gathered = Gathered(
    values: seq<Member>,
    allowed: Option<seq<string>>,
    denied: seq<string>,
    mandatoryProtocols: seq<string>,
    provenance: seq<Provenance>,
    classification: Classification,
    tokens: nat)

  const NOTHING := Gathered([], None, [], [], [], Public, 0)

  function Tokens(h: Host, values: seq<Member>): nat {
    Max(1, (h.bytes(values) + 3) / 4)
  }

  function ClassOf(l: Layer): Classification {
    if l.classification.Some? then l.classification.value else DefaultClassification(l.source)
  }

  function Narrow(allowed: Option<seq<string>>, declared: Option<seq<string>>): Option<seq<string>> {
    if declared.None? then allowed
    else if allowed.None? then Some(AddAll([], declared.value))
    else Some(Keep(allowed.value, Within(declared.value)))
  }

  function Gather(h: Host, g: Gathered, l: Layer): Gathered {
    Gathered(
      Merge(g.values, l.values),
      Narrow(g.allowed, l.allow),
      AddAll(g.denied, l.deny),
      AddAll(g.mandatoryProtocols, l.mandatoryProtocols),
      g.provenance + [Provenance(l.source, l.origin, l.details, ClassOf(l), Tokens(h, l.values))],
      MostRestrictive(g.classification, ClassOf(l)),
      g.tokens + Tokens(h, l.values))
  }

  function GatherAll(h: Host, layers: seq<Layer>): Gathered {
    if layers == [] then NOTHING else Gather(h, GatherAll(h, layers[..|layers| - 1]), layers[|layers| - 1])
  }

  function Seal(h: Host, g: Gathered): Envelope {
    var allowed := if g.allowed.Some? then Keep(g.allowed.value, Outside(g.denied)) else [];
    Envelope(g.values, StableUnique(h, allowed), StableUnique(h, g.denied), StableUnique(h, g.mandatoryProtocols),
             g.provenance, g.classification, g.tokens)
  }

  /** The first reason to refuse the layers, in the order in which they were given. */
  function Refusal(layers: seq<Layer>): Option<Error> {
    if layers == [] then None
    else
      var n := |layers| - 1;
      if Refusal(layers[..n]).Some? then Refusal(layers[..n])
      else if exists i :: 0 <= i < n && layers[i].source == layers[n].source then Some(DuplicateSource)
      else if Blank(layers[n].origin) then Some(MissingProvenance)
      else None
  }

  function Assemble(h: Host, layers: seq<Layer>): Result<Envelope, Error> {
    if Refusal(layers).Some? then Failure(Refusal(layers).value)
    else Success(Seal(h, GatherAll(h, SortBy(layers, BySource()))))
  }

  method AssembleContext(h: Host, layers: seq<Layer>) returns (result: Result<Envelope, Error>)
    ensures result == Assemble(h, layers)
  {
    var refusal := CheckLayers(layers);
    if refusal.Some? {
      return Failure(refusal.value);
    }
    var g := GatherLayers(h, SortBy(layers, BySource()));
    var allowed := if g.allowed.Some? then Keep(g.allowed.value, Outside(g.denied)) else [];
    return Success(Envelope(g.values, StableUnique(h, allowed), StableUnique(h, g.denied),
                            StableUnique(h, g.mandatoryProtocols), g.provenance, g.classification, g.tokens));
  }

  method CheckLayers(layers: seq<Layer>) returns (refusal: Option<Error>)
    ensures refusal == Refusal(layers)
  {
    var seen: set<Source> := {};
    for i := 0 to |layers|
      invariant Refusal(layers[..i]) == None
      invariant forall s :: s in seen <==> exists j :: 0 <= j < i && layers[j].source == s
    {
      assert layers[..i + 1][..i] == layers[..i];
      if layers[i].source in seen {
        RefusalStands(layers, i + 1);
        return Some(DuplicateSource);
      }
      if Blank(layers[i].origin) {
        RefusalStands(layers, i + 1);
        return Some(MissingProvenance);
      }
      seen := seen + {layers[i].source};
    }
    assert layers[..|layers|] == layers;
    return None;
  }

  /** The loop over the layers in their order of precedence. */
  method GatherLayers(h: Host, ordered: seq<Layer>) returns (g: Gathered)
    ensures g == GatherAll(h, ordered)
  {
    var values, denied, protocols, provenance := [], [], [], [];
    var allowed: Option<seq<string>>, classification, tokens: nat := None, Public, 0;
    for i := 0 to |ordered|
      invariant Gathered(values, allowed, denied, protocols, provenance, classification, tokens) ==
                GatherAll(h, ordered[..i])
    {
      var layer := ordered[i];
      assert ordered[..i + 1][..i] == ordered[..i];
      values := MergeValues(values, layer.values);
      if layer.allow.Some? {
        if allowed.None? {
          allowed := Some(AddAll([], layer.allow.value));
        } else {
          allowed := Some(Keep(allowed.value, Within(layer.allow.value)));
        }
      }
      denied := AddAll(denied, layer.deny);
      protocols := AddAll(protocols, layer.mandatoryProtocols);
      classification := MostRestrictive(classification, ClassOf(layer));
      tokens := tokens + Tokens(h, layer.values);
      provenance := provenance
        + [Provenance(layer.source, layer.origin, layer.details, ClassOf(layer), Tokens(h, layer.values))];
    }
    assert ordered[..|ordered|] == ordered;
    return Gathered(values, allowed, denied, protocols, provenance, classification, tokens);
  }

  lemma {:induction false} RefusalStands(layers: seq<Layer>, n: nat)
    requires n <= |layers| && Refusal(layers[..n]).Some?
    ensures Refusal(layers) == Refusal(layers[..n])
    decreases |layers|
  {
    if n == |layers| {
      assert layers[..n] == layers;
    } else {
      var before := layers[..|layers| - 1];
      assert before[..n] == layers[..n];
      RefusalStands(before, n);
    }
  }

  // ---------------------------------------------------------------------------
  // Order does not matter
  // ---------------------------------------------------------------------------

  predicate Admissible(layers: seq<Layer>) {
    && (forall i, j :: 0 <= i < j < |layers| ==> layers[i].source != layers[j].source)
    && forall l :: l in layers ==> !Blank(l.origin)
  }

  lemma {:induction false} RefusedUnlessAdmissible(layers: seq<Layer>)
    ensures Refusal(layers).None? <==> Admissible(layers)
  {
    if layers != [] {
      var n := |layers| - 1;
      RefusedUnlessAdmissible(layers[..n]);
      assert layers == layers[..n] + [layers[n]];
    }
  }

  /** The origin says something besides white space. */
  predicate Attributed(l: Layer) {
    exists k :: 0 <= k < |l.origin| && !IsBlank(l.origin[k])
  }

  /** A refusal names what is wrong with the first layer that cannot be added to the ones before it. */
  lemma {:induction false} RefusalIsFirst(h: Host, layers: seq<Layer>) returns (n: nat)
    requires Assemble(h, layers).Failure?
    ensures n < |layers|
    ensures forall i, j :: 0 <= i < j < n ==> layers[i].source != layers[j].source
    ensures forall i :: 0 <= i < n ==> Attributed(layers[i])
    ensures match Assemble(h, layers).error
            case DuplicateSource => exists i :: 0 <= i < n && layers[i].source == layers[n].source
            case MissingProvenance =>
              !Attributed(layers[n]) && forall i :: 0 <= i < n ==> layers[i].source != layers[n].source
  {
    var k := |layers| - 1;
    if Refusal(layers[..k]).Some? {
      n := RefusalIsFirst(h, layers[..k]);
    } else {
      n := k;
      RefusedUnlessAdmissible(layers[..k]);
      assert forall i :: 0 <= i < k ==> layers[..k][i] == layers[i];
    }
  }

  lemma SourceOrderIsTotal()
    ensures TotalPreorder(BySource())
  {
  }

  lemma AdmissiblePermutes(a: seq<Layer>, b: seq<Layer>)
    requires multiset(a) == multiset(b) && Admissible(a)
    ensures Admissible(b)
  {
    forall l | l in b ensures !Blank(l.origin) {
      assert l in multiset(a);
    }
    forall i, j | 0 <= i < j < |b| ensures b[i].source != b[j].source {
      if b[i] == b[j] {
        OccursTwice(b, i, j);
        var m, n := OccursAtTwo(a, b[i]);
      } else {
        assert b[i] in multiset(a) && b[j] in multiset(a);
        var m :| 0 <= m < |a| && a[m] == b[i];
        var n :| 0 <= n < |a| && a[n] == b[j];
        assert m < n || n < m;
      }
    }
  }

  lemma SameOrder(a: seq<Layer>, b: seq<Layer>)
    requires multiset(a) == multiset(b) && Admissible(a)
    ensures SortBy(a, BySource()) == SortBy(b, BySource())
  {
    SourceOrderIsTotal();
    SortIsSorted(a, BySource());
    SortIsSorted(b, BySource());
    forall x: Layer, y: Layer | x in multiset(a) && y in multiset(a) && BySource()(x, y) && BySource()(y, x)
      ensures x == y
    {
      RankIsInjective(x.source, y.source);
      var i :| 0 <= i < |a| && a[i] == x;
      var j :| 0 <= j < |a| && a[j] == y;
      assert i == j;
    }
    SortedIsUnique(SortBy(a, BySource()), SortBy(b, BySource()), BySource());
  }

  lemma RankIsInjective(s: Source, t: Source)
    ensures Rank(s) == Rank(t) ==> s == t
  {
  }

  /** Layers give the same envelope, or are refused, in whatever order they come. */
  lemma OrderIsIgnored(h: Host, a: seq<Layer>, b: seq<Layer>)
    requires multiset(a) == multiset(b)
    ensures Assemble(h, a).Success? <==> Admissible(a)
    ensures Assemble(h, a).Success? <==> Assemble(h, b).Success?
    ensures Assemble(h, a).Success? ==> Assemble(h, a) == Assemble(h, b)
  {
    RefusedUnlessAdmissible(a);
    RefusedUnlessAdmissible(b);
    if Admissible(a) {
      AdmissiblePermutes(a, b);
      SameOrder(a, b);
    } else if Admissible(b) {
      AdmissiblePermutes(b, a);
    }
  }

  // ---------------------------------------------------------------------------
  // Authority
  // ---------------------------------------------------------------------------

  predicate Declared(layers: seq<Layer>) {
    exists l :: l in layers && l.allow.Some?
  }

  predicate AllowedByAll(layers: seq<Layer>, x: string) {
    forall l :: l in layers && l.allow.Some? ==> x in l.allow.value
  }

  predicate Denied(layers: seq<Layer>, x: string) {
    exists l :: l in layers && x in l.deny
  }

  predicate Mandated(layers: seq<Layer>, x: string) {
    exists l :: l in layers && x in l.mandatoryProtocols
  }

  lemma LastLayer(layers: seq<Layer>)
    requires layers != []
    ensures forall l :: l in layers <==> l in layers[..|layers| - 1] || l == layers[|layers| - 1]
  {
    assert layers == layers[..|layers| - 1] + [layers[|layers| - 1]];
  }

  lemma {:induction false} GatheredAllowance(h: Host, layers: seq<Layer>, x: string)
    ensures GatherAll(h, layers).allowed.Some? <==> Declared(layers)
    ensures Declared(layers) ==> (x in GatherAll(h, layers).allowed.value <==> AllowedByAll(layers, x))
  {
    if layers != [] {
      LastLayer(layers);
      GatheredAllowance(h, layers[..|layers| - 1], x);
    }
  }

  lemma {:induction false} GatheredObligations(h: Host, layers: seq<Layer>, x: string)
    ensures x in GatherAll(h, layers).denied <==> Denied(layers, x)
    ensures x in GatherAll(h, layers).mandatoryProtocols <==> Mandated(layers, x)
  {
    if layers != [] {
      LastLayer(layers);
      GatheredObligations(h, layers[..|layers| - 1], x);
    }
  }

  lemma StableUniqueKeeps(h: Host, s: seq<string>, x: string)
    ensures x in StableUnique(h, s) <==> x in s
  {
    var all := AddAll([], s);
    SortPermutes(all, h.leq);
    assert x in SortBy(all, h.leq) <==> x in multiset(SortBy(all, h.leq));
    assert x in all <==> x in multiset(all);
  }

  lemma OrderedHolds(layers: seq<Layer>, l: Layer)
    ensures l in SortBy(layers, BySource()) <==> l in layers
  {
    SortPermutes(layers, BySource());
    assert l in SortBy(layers, BySource()) <==> l in multiset(SortBy(layers, BySource()));
    assert l in layers <==> l in multiset(layers);
  }

  /**
   A permission is granted exactly when some layer declares permissions, every layer that does
   declares this one, and no layer denies it; denials and protocols are those of any layer.
   */
  lemma AuthorityLaw(h: Host, layers: seq<Layer>, x: string)
    requires Assemble(h, layers).Success?
    ensures x in Assemble(h, layers).value.allow <==>
              Declared(layers) && AllowedByAll(layers, x) && !Denied(layers, x)
    ensures x in Assemble(h, layers).value.deny <==> Denied(layers, x)
    ensures x in Assemble(h, layers).value.mandatoryProtocols <==> Mandated(layers, x)
  {
    var ordered := SortBy(layers, BySource());
    var g := GatherAll(h, ordered);
    GatheredAllowance(h, ordered, x);
    GatheredObligations(h, ordered, x);
    forall l ensures l in ordered <==> l in layers {
      OrderedHolds(layers, l);
    }
    var allowed := if g.allowed.Some? then Keep(g.allowed.value, Outside(g.denied)) else [];
    StableUniqueKeeps(h, allowed, x);
    StableUniqueKeeps(h, g.denied, x);
    StableUniqueKeeps(h, g.mandatoryProtocols, x);
  }

  /** One more layer never lifts a denial or a protocol, and never widens declared permissions. */
  lemma LayersOnlyRestrict(h: Host, layers: seq<Layer>, extra: Layer, x: string)
    requires Assemble(h, layers).Success? && Assemble(h, layers + [extra]).Success?
    ensures x in Assemble(h, layers).value.deny ==> x in Assemble(h, layers + [extra]).value.deny
    ensures x in Assemble(h, layers).value.mandatoryProtocols ==>
              x in Assemble(h, layers + [extra]).value.mandatoryProtocols
    ensures Declared(layers) && x in Assemble(h, layers + [extra]).value.allow ==>
              x in Assemble(h, layers).value.allow
  {
    AuthorityLaw(h, layers, x);
    AuthorityLaw(h, layers + [extra], x);
    assert forall l :: l in layers ==> l in layers + [extra];
  }

  // ---------------------------------------------------------------------------
  // Values and classification
  // ---------------------------------------------------------------------------

  function ValuesOf(l: Layer): Option<Value> {
    Some(Object(l.values))
  }

  /** The layers from these sources, if any, say nothing about the path. */
  predicate Quiet(layers: seq<Layer>, sources: set<Source>, path: Path) {
    forall m :: m in layers && m.source in sources ==> Silent(ValuesOf(m), path)
  }

  /**
   The layer says something about the path, and no layer of higher precedence does: a request comes before an
   agent, then a project, a business domain, a private profile, and the core last.
   */
  predicate Decides(l: Layer, layers: seq<Layer>, path: Path) {
    && l in layers && !Silent(ValuesOf(l), path)
    && match l.source
       case Request => true
       case Agent => Quiet(layers, {Request}, path)
       case Project => Quiet(layers, {Request, Agent}, path)
       case BusinessDomain => Quiet(layers, {Request, Agent, Project}, path)
       case PrivateProfile => Quiet(layers, {Request, Agent, Project, BusinessDomain}, path)
       case Core => Quiet(layers, {Request, Agent, Project, BusinessDomain, PrivateProfile}, path)
  }

  /** What decides is highest in the order of the sort. */
  lemma DecidesByRank(l: Layer, layers: seq<Layer>, path: Path)
    ensures Decides(l, layers, path) <==>
              && l in layers && !Silent(ValuesOf(l), path)
              && forall m :: m in layers && Rank(m.source) > Rank(l.source) ==> Silent(ValuesOf(m), path)
  {
  }

  predicate Climbing(ordered: seq<Layer>) {
    forall i, j :: 0 <= i < j < |ordered| ==> Rank(ordered[i].source) < Rank(ordered[j].source)
  }

  lemma AdmissibleClimbs(layers: seq<Layer>)
    requires Admissible(layers)
    ensures Climbing(SortBy(layers, BySource()))
  {
    var ordered := SortBy(layers, BySource());
    SourceOrderIsTotal();
    SortIsSorted(layers, BySource());
    AdmissiblePermutes(layers, ordered);
    forall i, j | 0 <= i < j < |ordered| ensures Rank(ordered[i].source) < Rank(ordered[j].source) {
      assert BySource()(ordered[i], ordered[j]);
      RankIsInjective(ordered[i].source, ordered[j].source);
    }
  }

  lemma {:induction false} DeciderDecides(h: Host, ordered: seq<Layer>, path: Path, l: Layer)
    requires Climbing(ordered) && forall m :: m in ordered ==> DistinctKeys(Object(m.values))
    requires l in ordered && !Silent(ValuesOf(l), path)
    requires forall m :: m in ordered && Rank(m.source) > Rank(l.source) ==> Silent(ValuesOf(m), path)
    ensures FaceAt(Some(Object(GatherAll(h, ordered).values)), path) == FaceAt(ValuesOf(l), path)
  {
    var before, last := ordered[..|ordered| - 1], ordered[|ordered| - 1];
    LastLayer(ordered);
    HigherWins(Some(Object(GatherAll(h, before).values)), ValuesOf(last), path);
    if l != last {
      var i :| 0 <= i < |before| && before[i] == l;
      assert ordered[i] == l;
      DeciderDecides(h, before, path, l);
    }
  }

  lemma {:induction false} SilenceShowsNothing(h: Host, ordered: seq<Layer>, path: Path)
    requires path != [] && forall m :: m in ordered ==> DistinctKeys(Object(m.values)) && Silent(ValuesOf(m), path)
    ensures FaceAt(Some(Object(GatherAll(h, ordered).values)), path) == None
  {
    if ordered != [] {
      var before, last := ordered[..|ordered| - 1], ordered[|ordered| - 1];
      LastLayer(ordered);
      SilenceShowsNothing(h, before, path);
      HigherWins(Some(Object(GatherAll(h, before).values)), ValuesOf(last), path);
    }
  }

  /** What the envelope shows at a path is what the highest layer that is not silent there shows. */
  lemma HighestLayerWins(h: Host, layers: seq<Layer>, path: Path)
    requires Assemble(h, layers).Success? && forall m :: m in layers ==> DistinctKeys(Object(m.values))
    ensures forall l :: Decides(l, layers, path) ==>
              FaceAt(Some(Object(Assemble(h, layers).value.values)), path) == FaceAt(ValuesOf(l), path)
    ensures path != [] && (forall m :: m in layers ==> Silent(ValuesOf(m), path)) ==>
              FaceAt(Some(Object(Assemble(h, layers).value.values)), path) == None
  {
    var ordered := SortBy(layers, BySource());
    RefusedUnlessAdmissible(layers);
    AdmissibleClimbs(layers);
    forall l ensures l in ordered <==> l in layers {
      OrderedHolds(layers, l);
    }
    forall l | Decides(l, layers, path)
      ensures FaceAt(Some(Object(GatherAll(h, ordered).values)), path) == FaceAt(ValuesOf(l), path)
    {
      DecidesByRank(l, layers, path);
      DeciderDecides(h, ordered, path, l);
    }
    if path != [] && forall m :: m in layers ==> Silent(ValuesOf(m), path) {
      SilenceShowsNothing(h, ordered, path);
    }
  }

  /** Where some layer is not silent, one of them decides. */
  lemma {:induction false} SomeLayerDecides(layers: seq<Layer>, path: Path) returns (l: Layer)
    requires exists m :: m in layers && !Silent(ValuesOf(m), path)
    ensures Decides(l, layers, path)
  {
    l := HighestSpeaks(layers, path);
    DecidesByRank(l, layers, path);
  }

  lemma {:induction false} HighestSpeaks(layers: seq<Layer>, path: Path) returns (l: Layer)
    requires exists m :: m in layers && !Silent(ValuesOf(m), path)
    ensures l in layers && !Silent(ValuesOf(l), path)
    ensures forall m :: m in layers && Rank(m.source) > Rank(l.source) ==> Silent(ValuesOf(m), path)
  {
    var before, last := layers[..|layers| - 1], layers[|layers| - 1];
    LastLayer(layers);
    if exists m :: m in before && !Silent(ValuesOf(m), path) {
      l := HighestSpeaks(before, path);
      if !Silent(ValuesOf(last), path) && Rank(last.source) > Rank(l.source) {
        l := last;
      }
    } else {
      l := last;
    }
  }

  /** The sources that come after this one, towards the request. */
  function Above(s: Source): set<Source> {
    match s
    case Core => {PrivateProfile, BusinessDomain, Project, Agent, Request}
    case PrivateProfile => {BusinessDomain, Project, Agent, Request}
    case BusinessDomain => {Project, Agent, Request}
    case Project => {Agent, Request}
    case Agent => {Request}
    case Request => {}
  }

  lemma AboveByRank(s: Source, t: Source)
    ensures t in Above(s) <==> Rank(s) < Rank(t)
  {
  }

  /** What the envelope says of where a layer came from and what it weighs. */
  predicate Describes(h: Host, p: Provenance, l: Layer) {
    && p.source == l.source && p.origin == l.origin && p.details == l.details && IsClassed(l, p.classification)
    && p.tokens >= 1 && 4 * p.tokens >= h.bytes(l.values) && (p.tokens > 1 ==> 4 * (p.tokens - 1) < h.bytes(l.values))
  }

  /** The layer's own classification, or else the one its source has by default. */
  predicate IsClassed(l: Layer, c: Classification) {
    match l.classification
    case Some(own) => c == own
    case None =>
      match l.source
      case Core => c == Public
      case PrivateProfile => c == Private
      case BusinessDomain => c == Internal
      case Project => c == Internal
      case Agent => c == Internal
      case Request => c == Private
  }

  lemma EntryDescribes(h: Host, l: Layer)
    ensures Describes(h, Provenance(l.source, l.origin, l.details, ClassOf(l), Tokens(h, l.values)), l)
  {
  }

  lemma {:induction false} GatheredProvenance(h: Host, layers: seq<Layer>)
    ensures var p := GatherAll(h, layers).provenance;
            |p| == |layers| && forall i :: 0 <= i < |layers| ==> Describes(h, p[i], layers[i])
  {
    if layers != [] {
      var n := |layers| - 1;
      GatheredProvenance(h, layers[..n]);
      EntryDescribes(h, layers[n]);
      var p := GatherAll(h, layers).provenance;
      assert p[..n] == GatherAll(h, layers[..n]).provenance;
      forall i | 0 <= i < n ensures Describes(h, p[i], layers[i]) {
        assert p[i] == p[..n][i] && layers[i] == layers[..n][i];
      }
    }
  }

  lemma {:induction false} GatheredTokens(h: Host, layers: seq<Layer>)
    ensures GatherAll(h, layers).tokens == Sum(GatherAll(h, layers).provenance, TokensOf())
  {
    if layers != [] {
      var before, l := layers[..|layers| - 1], layers[|layers| - 1];
      GatheredTokens(h, before);
      SumAppend(GatherAll(h, before).provenance,
                Provenance(l.source, l.origin, l.details, ClassOf(l), Tokens(h, l.values)), TokensOf());
    }
  }

  function TokensOf(): Provenance -> int {
    (p: Provenance) => p.tokens
  }

  /**
   The provenance lists every layer once, from the core to the request, whatever order the layers came in, and the
   estimate is the sum of what the layers contribute: a quarter of their bytes each, rounded up, and at least one.
   */
  lemma ProvenanceFollowsSources(h: Host, layers: seq<Layer>) returns (ordered: seq<Layer>)
    requires Assemble(h, layers).Success?
    ensures multiset(ordered) == multiset(layers)
    ensures var p := Assemble(h, layers).value.provenance;
            && |p| == |ordered|
            && (forall i :: 0 <= i < |p| ==> Describes(h, p[i], ordered[i]))
            && (forall i, j :: 0 <= i < j < |p| ==> p[j].source in Above(p[i].source))
    ensures Assemble(h, layers).value.estimatedTokens == Sum(Assemble(h, layers).value.provenance, TokensOf())
  {
    ordered := SortBy(layers, BySource());
    RefusedUnlessAdmissible(layers);
    AdmissibleClimbs(layers);
    SortPermutes(layers, BySource());
    GatheredProvenance(h, ordered);
    GatheredTokens(h, ordered);
    var p := GatherAll(h, ordered).provenance;
    forall i, j | 0 <= i < j < |p| ensures p[j].source in Above(p[i].source) {
      AboveByRank(ordered[i].source, ordered[j].source);
    }
  }

  /** The lists of an envelope are sorted as the host compares strings, and hold nothing twice. */
  lemma ListsAreSortedOnce(h: Host, layers: seq<Layer>)
    requires Assemble(h, layers).Success? && TotalPreorder(h.leq)
    ensures var e := Assemble(h, layers).value;
            && SortedBy(e.allow, h.leq) && Distinct(e.allow)
            && SortedBy(e.deny, h.leq) && Distinct(e.deny)
            && SortedBy(e.mandatoryProtocols, h.leq) && Distinct(e.mandatoryProtocols)
  {
    var g := GatherAll(h, SortBy(layers, BySource()));
    var allowed := if g.allowed.Some? then Keep(g.allowed.value, Outside(g.denied)) else [];
    SortedOnce(h, allowed);
    SortedOnce(h, g.denied);
    SortedOnce(h, g.mandatoryProtocols);
  }

  lemma {:induction false} AddedOnce(s: seq<string>, xs: seq<string>)
    requires Distinct(s)
    ensures Distinct(AddAll(s, xs))
    decreases xs
  {
    if xs != [] {
      AddedOnce(Add(s, xs[0]), xs[1..]);
    }
  }

  lemma SortedOnce(h: Host, s: seq<string>)
    requires TotalPreorder(h.leq)
    ensures SortedBy(StableUnique(h, s), h.leq) && Distinct(StableUnique(h, s))
  {
    var all := AddAll([], s);
    AddedOnce([], s);
    SortIsSorted(all, h.leq);
    DistinctPermutes(all, SortBy(all, h.leq));
  }

  lemma DistinctPermutes(a: seq<string>, b: seq<string>)
    requires multiset(a) == multiset(b) && Distinct(a)
    ensures Distinct(b)
  {
    forall i, j | 0 <= i < j < |b| ensures b[i] != b[j] {
      if b[i] == b[j] {
        OccursTwice(b, i, j);
        var m, n := OccursAtTwo(a, b[i]);
      }
    }
  }

  lemma {:induction false} GatheredClassification(h: Host, layers: seq<Layer>)
    ensures forall l :: l in layers ==> Severity(ClassOf(l)) <= Severity(GatherAll(h, layers).classification)
    ensures GatherAll(h, layers).classification == Public
            || exists l :: l in layers && ClassOf(l) == GatherAll(h, layers).classification
  {
    if layers != [] {
      LastLayer(layers);
      GatheredClassification(h, layers[..|layers| - 1]);
    }
  }

  predicate SomeClassed(layers: seq<Layer>, c: Classification) {
    exists l :: l in layers && IsClassed(l, c)
  }

  /** The envelope is classified as its most restrictive layer: restricted before private, internal and public. */
  lemma ClassificationIsHighest(h: Host, layers: seq<Layer>)
    requires Assemble(h, layers).Success?
    ensures Assemble(h, layers).value.classification ==
            if SomeClassed(layers, Restricted) then Restricted
            else if SomeClassed(layers, Private) then Private
            else if SomeClassed(layers, Internal) then Internal
            else Public
  {
    var ordered := SortBy(layers, BySource());
    forall l ensures l in ordered <==> l in layers {
      OrderedHolds(layers, l);
    }
    GatheredClassification(h, ordered);
    MostSevere(layers, Assemble(h, layers).value.classification);
  }

  lemma ClassedAlone(l: Layer, c: Classification)
    ensures IsClassed(l, c) <==> c == ClassOf(l)
  {
  }

  /** A class that no layer exceeds, and that some layer has unless it is public, is the first in this order. */
  lemma MostSevere(layers: seq<Layer>, c: Classification)
    requires forall l :: l in layers ==> Severity(ClassOf(l)) <= Severity(c)
    requires c == Public || exists l :: l in layers && ClassOf(l) == c
    ensures c == if SomeClassed(layers, Restricted) then Restricted
                 else if SomeClassed(layers, Private) then Private
                 else if SomeClassed(layers, Internal) then Internal
                 else Public
  {
    forall l, d ensures IsClassed(l, d) <==> d == ClassOf(l) {
      ClassedAlone(l, d);
    }
  }
}
