/**
 Suggesting sets of skills that together cover a requested capability profile. From every eligible
 seed the composer adds the skill that covers most of what is still missing; the suggestions are
 ranked by coverage. A profile is the set of its normalised feature keys, and the percentage of a
 suggestion is its number of covered requested features out of all requested ones.
 */
module SkillComposition {
  import opened Prelude
  import opened Sorting

  type Feature = string
  type Id = nat

  datatype Publication = Publication(id: Id, isSkill: bool, retired: bool, features: set<Feature>)

  /** The skills of a suggestion in the order of their identifiers, and the features they cover. */
  datatype Suggestion = Suggestion(skills: seq<Publication>, covered: set<Feature>)

  // ---------------------------------------------------------------------------
  // Coverage
  // ---------------------------------------------------------------------------

  function Union(ps: seq<Publication>): set<Feature> {
    if ps == [] then {} else Union(ps[..|ps| - 1]) + ps[|ps| - 1].features
  }

  /** How many requested features the publications cover together. */
  function Coverage(requested: set<Feature>, ps: seq<Publication>): nat {
    |requested * Union(ps)|
  }

  /** How many requested features `p` adds to those already covered. */
  function Gain(requested: set<Feature>, covered: set<Feature>, p: Publication): nat {
    |requested * p.features - covered|
  }

  predicate Eligible(requested: set<Feature>, p: Publication) {
    p.isSkill && !p.retired && requested * p.features != {}
  }

  /** A choice of at most `k` eligible skills. */
  predicate Choice(pool: seq<Publication>, k: nat, team: seq<Publication>) {
    |team| <= k && forall t :: t in team ==> t in pool
  }

  lemma ChoiceAppend(pool: seq<Publication>, k: nat, team: seq<Publication>, p: Publication)
    requires Choice(pool, k, team) && |team| < k && p in pool
    ensures Choice(pool, k, team + [p])
  {
  }

  lemma SubsetSize<T>(a: set<T>, b: set<T>)
    requires a <= b
    ensures |a| <= |b|
  {
    assert b == a + (b - a);
  }

  /** What a team still adds to `covered` is at most its size times the best single gain. */
  lemma {:induction false} TeamGain(requested: set<Feature>, covered: set<Feature>, team: seq<Publication>, best: nat)
    requires forall t :: t in team ==> Gain(requested, covered, t) <= best
    ensures |requested * Union(team) - covered| <= |team| * best
  {
    if team == [] {
      assert requested * Union(team) - covered == {};
    } else {
      var n := |team| - 1;
      TeamGain(requested, covered, team[..n], best);
      var rest, last := requested * Union(team[..n]) - covered, requested * team[n].features - covered;
      assert requested * Union(team) - covered == rest + last;
      assert |rest + last| == |rest| + |last| - |rest * last|;
      assert Gain(requested, covered, team[n]) <= best;
      assert |team| * best == n * best + best;
    }
  }

  // ---------------------------------------------------------------------------
  // The greedy bound
  // ---------------------------------------------------------------------------

  function Power(b: nat, e: nat): nat {
    if e == 0 then 1 else b * Power(b, e - 1)
  }

  /**
   After `i` greedy picks the gap to any team of at most `k` skills has shrunk by the factor
   (1 - 1/k) that often: k^i * (best - covered) <= (k - 1)^i * best.
   */
  ghost predicate Within(k: nat, i: nat, best: nat, covered: nat)
    requires k > 0
  {
    Power(k, i) * (best - covered) <= Power(k - 1, i) * best
  }

  lemma MultiplyMonotone(a: nat, x: int, y: int)
    requires x <= y
    ensures a * x <= a * y
  {
  }

  /** One greedy pick: the gap to a team is at most `k` times the best gain. */
  lemma PickShrinksGap(k: nat, i: nat, best: nat, covered: nat, gain: nat)
    requires k > 0 && Within(k, i, best, covered) && best - covered <= k * gain
    ensures Within(k, i + 1, best, covered + gain)
  {
    var gap := best - covered;
    var p, q := Power(k, i), Power(k - 1, i);
    assert k * (gap - gain) <= (k - 1) * gap;
    MultiplyMonotone(p, k * (gap - gain), (k - 1) * gap);
    MultiplyMonotone(k - 1, p * gap, q * best);
    calc {
      Power(k, i + 1) * (gap - gain);
      (k * p) * (gap - gain);
      { Regroup(k, p, gap - gain); }
      p * (k * (gap - gain));
    <=
      p * ((k - 1) * gap);
      { Regroup(k - 1, p, gap); Regroup2(k - 1, p, gap); }
      (k - 1) * (p * gap);
    <=
      (k - 1) * (q * best);
      { Regroup2(k - 1, q, best); }
      Power(k - 1, i + 1) * best;
    }
  }

  lemma Regroup(a: int, b: int, c: int)
    ensures (a * b) * c == b * (a * c)
  {
  }

  lemma Regroup2(a: int, b: int, c: int)
    ensures a * (b * c) == (a * b) * c
  {
  }

  /** With nothing left to gain the bound holds for any number of picks. */
  lemma NoGapLeft(k: nat, i: nat, best: nat, covered: nat)
    requires k > 0 && best <= covered
    ensures Within(k, i, best, covered)
  {
    MultiplyMonotone(Power(k, i), best - covered, 0);
  }

  /** The gap of any team is closed by `k` best gains. */
  lemma GapOfTeam(requested: set<Feature>, covered: set<Feature>, team: seq<Publication>, k: nat, best: nat)
    requires covered <= requested && |team| <= k
    requires forall t :: t in team ==> Gain(requested, covered, t) <= best
    ensures Coverage(requested, team) - |covered| <= k * best
  {
    TeamGain(requested, covered, team, best);
    var all := requested * Union(team);
    assert all == (all - covered) + (all * covered);
    SubsetSize(all * covered, covered);
    assert |team| * best <= k * best by {
      MultiplyMonotone(best, |team|, k);
    }
  }

  // ---------------------------------------------------------------------------
  // Composing from one seed
  // ---------------------------------------------------------------------------

  /** The bound against every team of at most `k` skills of the pool. */
  ghost predicate GreedyBound(requested: set<Feature>, pool: seq<Publication>, k: nat, i: nat, covered: nat)
    requires k > 0
  {
    forall team {:trigger Coverage(requested, team)} ::
      Choice(pool, k, team) ==> Within(k, i, Coverage(requested, team), covered)
  }

  /** No skill of the pool covers more requested features than `p`. */
  predicate IsTop(requested: set<Feature>, pool: seq<Publication>, p: Publication) {
    forall q :: q in pool ==> |requested * q.features| <= |requested * p.features|
  }

  /** `p` alone covers everything the pool can cover. */
  predicate CoversAll(requested: set<Feature>, pool: seq<Publication>, p: Publication) {
    forall q :: q in pool ==> requested * q.features <= p.features
  }

  lemma UnionAppend(ps: seq<Publication>, p: Publication)
    ensures Union(ps + [p]) == Union(ps) + p.features
  {
    assert (ps + [p])[..|ps|] == ps;
  }

  lemma {:induction false} UnionContains(ps: seq<Publication>, p: Publication)
    requires p in ps
    ensures p.features <= Union(ps)
  {
    var n := |ps| - 1;
    if p != ps[n] {
      assert p in ps[..n];
      UnionContains(ps[..n], p);
    }
  }

  /** A pick of the best gain moves the bound one step on. */
  lemma PickKeepsBound(requested: set<Feature>, pool: seq<Publication>, k: nat, i: nat,
                       covered: set<Feature>, best: nat)
    requires k > 0 && covered <= requested
    requires forall q :: q in pool ==> Gain(requested, covered, q) <= best
    requires i == 0 ==> covered == {}
    requires i > 0 ==> GreedyBound(requested, pool, k, i, |covered|)
    ensures GreedyBound(requested, pool, k, i + 1, |covered| + best)
  {
    forall team | Choice(pool, k, team)
      ensures Within(k, i + 1, Coverage(requested, team), |covered| + best)
    {
      GapOfTeam(requested, covered, team, k, best);
      assert Within(k, i, Coverage(requested, team), |covered|);
      PickShrinksGap(k, i, Coverage(requested, team), |covered|, best);
    }
  }

  /** When no skill adds anything the bound holds for the full number of picks. */
  lemma NothingToGain(requested: set<Feature>, pool: seq<Publication>, k: nat, covered: set<Feature>)
    requires k > 0 && covered <= requested
    requires forall q :: q in pool ==> Gain(requested, covered, q) == 0
    ensures GreedyBound(requested, pool, k, k, |covered|)
  {
    forall team | Choice(pool, k, team) ensures Within(k, k, Coverage(requested, team), |covered|) {
      GapOfTeam(requested, covered, team, k, 0);
      NoGapLeft(k, k, Coverage(requested, team), |covered|);
    }
  }

  /** A best pick next to a skill that covers everything closes the whole gap. */
  lemma BestPickReachesAll(requested: set<Feature>, pool: seq<Publication>, covered: set<Feature>,
                           pick: Publication, all: Publication)
    requires pick in pool && all in pool && CoversAll(requested, pool, all)
    requires Gain(requested, covered, all) <= Gain(requested, covered, pick)
    ensures requested * all.features <= covered + requested * pick.features
  {
    var small, large := requested * pick.features - covered, requested * all.features - covered;
    assert small <= large;
    assert large == small + (large - small);
    assert large - small == {};
    forall x | x in requested * all.features ensures x in covered + requested * pick.features {
      assert x in covered || x in large;
    }
  }

  /** `p` is the skill the composer adds next: most gain, and the smaller identifier on a tie. */
  predicate IsPick(requested: set<Feature>, pool: seq<Publication>, selected: seq<Publication>,
                   covered: set<Feature>, p: Publication)
  {
    && p in pool && p !in selected && Gain(requested, covered, p) > 0
    && forall q :: q in pool ==>
         && Gain(requested, covered, q) <= Gain(requested, covered, p)
         && (q !in selected && Gain(requested, covered, q) == Gain(requested, covered, p) ==> p.id <= q.id)
  }

  predicate NoGain(requested: set<Feature>, pool: seq<Publication>, covered: set<Feature>) {
    forall q :: q in pool ==> Gain(requested, covered, q) == 0
  }

  /** The candidate with the largest gain, the smaller identifier first on a tie. */
  method BestCandidate(requested: set<Feature>, pool: seq<Publication>, selected: seq<Publication>,
                       covered: set<Feature>)
    returns (next: Option<Publication>)
    requires covered == requested * Union(selected)
    ensures next.None? ==> NoGain(requested, pool, covered)
    ensures next.Some? ==> IsPick(requested, pool, selected, covered, next.value)
  {
    next := None;
    for i := 0 to |pool|
      invariant next.None? ==> NoGain(requested, pool[..i], covered)
      invariant next.Some? ==> IsPick(requested, pool[..i], selected, covered, next.value)
    {
      var p := pool[i];
      var gain := |requested * p.features - covered|;
      assert pool[..i + 1] == pool[..i] + [p];
      if p in selected {
        UnionContains(selected, p);
        assert requested * p.features - covered == {};
      } else if gain > 0 {
        if next.None? || gain > Gain(requested, covered, next.value)
           || (gain == Gain(requested, covered, next.value) && p.id < next.value.id)
        {
          next := Some(p);
        }
      }
    }
    assert pool[..|pool|] == pool;
  }

  predicate PickedAt(requested: set<Feature>, pool: seq<Publication>, before: seq<Publication>, p: Publication) {
    IsPick(requested, pool, before, requested * Union(before), p)
  }

  /** Every skill after the seed was the composer's pick at the time it was added. */
  predicate Picked(requested: set<Feature>, pool: seq<Publication>, selected: seq<Publication>) {
    |selected| <= 1
    || (var n := |selected| - 1;
        Picked(requested, pool, selected[..n]) && PickedAt(requested, pool, selected[..n], selected[n]))
  }

  /** Some skill adds to the seed. */
  predicate Extensible(requested: set<Feature>, pool: seq<Publication>, seed: Publication) {
    exists q :: q in pool && Gain(requested, requested * seed.features, q) > 0
  }

  /** Everything a single skill of the pool could cover on behalf of all is covered. */
  predicate ReachesTop(requested: set<Feature>, pool: seq<Publication>, covered: set<Feature>) {
    forall t :: t in pool && CoversAll(requested, pool, t) ==> requested * t.features <= covered
  }

  /** The skills selected so far, seed first, and what they cover together. */
  predicate Built(requested: set<Feature>, pool: seq<Publication>, seed: Publication, k: nat,
                  selected: seq<Publication>, covered: set<Feature>)
  {
    |selected| >= 1 && selected[0] == seed && Choice(pool, k, selected) && covered == requested * Union(selected)
  }

  /** What holds after every greedy pick. */
  ghost predicate Composing(requested: set<Feature>, pool: seq<Publication>, seed: Publication, k: nat,
                            selected: seq<Publication>, covered: set<Feature>)
    requires k > 0
  {
    && Built(requested, pool, seed, k, selected, covered)
    && Picked(requested, pool, selected)
    && (|selected| >= 2 ==> Extensible(requested, pool, seed) && ReachesTop(requested, pool, covered))
    && (IsTop(requested, pool, seed) ==> GreedyBound(requested, pool, k, |selected|, |covered|))
  }

  lemma SeedComposes(requested: set<Feature>, pool: seq<Publication>, seed: Publication, k: nat)
    requires seed in pool && k > 0
    ensures Composing(requested, pool, seed, k, [seed], requested * seed.features)
  {
    UnionAppend([], seed);
    if IsTop(requested, pool, seed) {
      forall q | q in pool ensures Gain(requested, {}, q) <= |requested * seed.features| {
        assert requested * q.features - {} == requested * q.features;
      }
      PickKeepsBound(requested, pool, k, 0, {}, |requested * seed.features|);
    }
  }

  lemma PickIsPicked(requested: set<Feature>, pool: seq<Publication>, selected: seq<Publication>, p: Publication)
    requires Picked(requested, pool, selected) && PickedAt(requested, pool, selected, p)
    ensures Picked(requested, pool, selected + [p])
  {
    assert (selected + [p])[..|selected|] == selected;
  }

  lemma PickReachesTop(requested: set<Feature>, pool: seq<Publication>, selected: seq<Publication>,
                       covered: set<Feature>, p: Publication)
    requires IsPick(requested, pool, selected, covered, p)
    ensures ReachesTop(requested, pool, covered + requested * p.features)
  {
    forall t | t in pool && CoversAll(requested, pool, t)
      ensures requested * t.features <= covered + requested * p.features
    {
      BestPickReachesAll(requested, pool, covered, p, t);
    }
  }

  lemma PickKeepsGreedyBound(requested: set<Feature>, pool: seq<Publication>, k: nat, selected: seq<Publication>,
                             covered: set<Feature>, p: Publication)
    requires k > 0 && selected != [] && covered <= requested && IsPick(requested, pool, selected, covered, p)
    requires GreedyBound(requested, pool, k, |selected|, |covered|)
    ensures GreedyBound(requested, pool, k, |selected + [p]|, |covered + requested * p.features|)
  {
    assert |selected + [p]| == |selected| + 1;
    PickKeepsBound(requested, pool, k, |selected|, covered, Gain(requested, covered, p));
    assert covered + requested * p.features == covered + (requested * p.features - covered);
  }

  lemma FirstPickExtends(requested: set<Feature>, pool: seq<Publication>, seed: Publication,
                         selected: seq<Publication>, covered: set<Feature>, p: Publication)
    requires selected != [] && selected[0] == seed && IsPick(requested, pool, selected, covered, p)
    requires covered == requested * Union(selected)
    requires |selected| >= 2 ==> Extensible(requested, pool, seed)
    ensures Extensible(requested, pool, seed)
  {
    if |selected| == 1 {
      assert selected == [] + [seed];
      UnionAppend([], seed);
      assert Gain(requested, requested * seed.features, p) > 0;
    }
  }

  lemma PickBuilds(requested: set<Feature>, pool: seq<Publication>, seed: Publication, k: nat,
                   selected: seq<Publication>, covered: set<Feature>, p: Publication)
    requires Built(requested, pool, seed, k, selected, covered) && |selected| < k && p in pool
    ensures Built(requested, pool, seed, k, selected + [p], covered + requested * p.features)
  {
    UnionAppend(selected, p);
    ChoiceAppend(pool, k, selected, p);
  }

  lemma PickComposes(requested: set<Feature>, pool: seq<Publication>, seed: Publication, k: nat,
                     selected: seq<Publication>, covered: set<Feature>, p: Publication)
    requires k > 0 && Composing(requested, pool, seed, k, selected, covered) && |selected| < k
    requires IsPick(requested, pool, selected, covered, p)
    ensures Composing(requested, pool, seed, k, selected + [p], covered + requested * p.features)
  {
    PickBuilds(requested, pool, seed, k, selected, covered, p);
    PickIsPicked(requested, pool, selected, p);
    PickReachesTop(requested, pool, selected, covered, p);
    if IsTop(requested, pool, seed) {
      PickKeepsGreedyBound(requested, pool, k, selected, covered, p);
    }
    FirstPickExtends(requested, pool, seed, selected, covered, p);
  }

  /** Greedy composition from one seed, up to `maxSkills` skills or until nothing more is gained. */
  method Compose(requested: set<Feature>, pool: seq<Publication>, seed: Publication, maxSkills: nat)
    returns (selected: seq<Publication>, covered: set<Feature>)
    requires seed in pool && maxSkills >= 2
    ensures Composing(requested, pool, seed, maxSkills, selected, covered)
    ensures |selected| == maxSkills || NoGain(requested, pool, covered)
  {
    selected := [seed];
    covered := requested * seed.features;
    SeedComposes(requested, pool, seed, maxSkills);
    var exhausted := false;
    while |selected| < maxSkills && |covered| < |requested| && !exhausted
      invariant Composing(requested, pool, seed, maxSkills, selected, covered)
      invariant exhausted ==> NoGain(requested, pool, covered)
      decreases maxSkills - |selected|, !exhausted
    {
      var next := BestCandidate(requested, pool, selected, covered);
      if next.None? {
        exhausted := true;
      } else {
        PickComposes(requested, pool, seed, maxSkills, selected, covered, next.value);
        selected := selected + [next.value];
        covered := covered + requested * next.value.features;
      }
    }
    if |covered| >= |requested| {
      AllCovered(requested, pool, covered);
    }
  }

  lemma AllCovered(requested: set<Feature>, pool: seq<Publication>, covered: set<Feature>)
    requires covered <= requested && |covered| >= |requested|
    ensures NoGain(requested, pool, covered)
  {
    assert requested == covered + (requested - covered);
    forall q | q in pool ensures Gain(requested, covered, q) == 0 {
      assert requested * q.features - covered == {};
    }
  }

  lemma CoveredTopEndsGain(requested: set<Feature>, pool: seq<Publication>, covered: set<Feature>, t: Publication)
    requires t in pool && CoversAll(requested, pool, t) && ReachesTop(requested, pool, covered)
    ensures NoGain(requested, pool, covered)
  {
    forall q | q in pool ensures Gain(requested, covered, q) == 0 {
      assert requested * q.features <= requested * t.features <= covered;
      assert requested * q.features - covered == {};
    }
  }

  lemma LoneSeed(requested: set<Feature>, pool: seq<Publication>, seed: Publication, selected: seq<Publication>)
    requires selected == [seed]
    ensures NoGain(requested, pool, requested * Union(selected)) ==> !Extensible(requested, pool, seed)
  {
    UnionAppend([], seed);
  }

  /** A composition has two or more skills exactly when some skill adds to its seed. */
  lemma ComposedGrows(requested: set<Feature>, pool: seq<Publication>, seed: Publication, k: nat,
                      selected: seq<Publication>, covered: set<Feature>)
    requires k >= 2 && Composing(requested, pool, seed, k, selected, covered)
    requires |selected| == k || NoGain(requested, pool, covered)
    ensures |selected| >= 2 <==> Extensible(requested, pool, seed)
  {
    if |selected| == 1 {
      LoneSeed(requested, pool, seed, selected);
    }
  }

  /** Some skill covers all that the pool covers. */
  predicate OneCoversAll(requested: set<Feature>, pool: seq<Publication>) {
    exists t :: t in pool && CoversAll(requested, pool, t)
  }

  /**
   The guarantee of one composition: from a top seed, or from any seed beside a skill that covers
   all the pool covers, it reaches 1 - (1 - 1/k)^k of the best team.
   */
  lemma ComposedMeetsBound(requested: set<Feature>, pool: seq<Publication>, seed: Publication, k: nat,
                           selected: seq<Publication>, covered: set<Feature>)
    requires k >= 2 && Composing(requested, pool, seed, k, selected, covered)
    requires |selected| == k || NoGain(requested, pool, covered)
    requires IsTop(requested, pool, seed) || (|selected| >= 2 && OneCoversAll(requested, pool))
    ensures GreedyBound(requested, pool, k, k, |covered|)
  {
    if !IsTop(requested, pool, seed) {
      var t :| t in pool && CoversAll(requested, pool, t);
      CoveredTopEndsGain(requested, pool, covered, t);
    }
    if NoGain(requested, pool, covered) {
      NothingToGain(requested, pool, k, covered);
    }
  }

  // ---------------------------------------------------------------------------
  // Suggesting
  // ---------------------------------------------------------------------------

  const DEFAULT_SUGGESTIONS := 5
  const MOST_SUGGESTIONS := 5
  const DEFAULT_SKILLS := 4
  const FEWEST_SKILLS := 2
  const MOST_SKILLS := 5

  function Wanted(maxSuggestions: Option<int>): nat {
    Max(0, Min(MOST_SUGGESTIONS, if maxSuggestions.Some? then maxSuggestions.value else DEFAULT_SUGGESTIONS))
  }

  function TeamSize(maxSkills: Option<int>): (k: nat)
    ensures FEWEST_SKILLS <= k <= MOST_SKILLS
  {
    Max(FEWEST_SKILLS, Min(MOST_SKILLS, if maxSkills.Some? then maxSkills.value else DEFAULT_SKILLS))
  }

  predicate ById(a: Publication, b: Publication) {
    a.id <= b.id
  }

  function Key(skills: seq<Publication>): (ids: seq<Id>) {
    seq(|skills|, i requires 0 <= i < |skills| => skills[i].id)
  }

  /** Seeds in order of how much they match, and of their identifiers where they match as much. */
  function SeedOrder(requested: set<Feature>): (Publication, Publication) -> bool {
    (a: Publication, b: Publication) =>
      var (x, y) := (|requested * a.features|, |requested * b.features|);
      x > y || (x == y && a.id <= b.id)
  }

  /** Most covered first, then fewest skills, then the order of keys. */
  function Ranking(keyLeq: (seq<Id>, seq<Id>) -> bool): (Suggestion, Suggestion) -> bool {
    (a: Suggestion, b: Suggestion) =>
      |a.covered| > |b.covered|
      || (|a.covered| == |b.covered|
          && (|a.skills| < |b.skills|
              || (|a.skills| == |b.skills| && keyLeq(Key(a.skills), Key(b.skills)))))
  }

  function EligibleOf(requested: set<Feature>, publications: seq<Publication>): (pool: seq<Publication>)
    ensures forall p :: p in pool <==> p in publications && Eligible(requested, p)
  {
    if publications == [] then []
    else
      var rest := EligibleOf(requested, publications[1..]);
      if Eligible(requested, publications[0]) then [publications[0]] + rest else rest
  }

  /** The eligible skills in seed order. */
  function Pool(requested: set<Feature>, publications: seq<Publication>): seq<Publication> {
    SortBy(EligibleOf(requested, publications), SeedOrder(requested))
  }

  /** The first skill matches more of the request, or as much and comes first by identifier. */
  predicate Matches(requested: set<Feature>, a: Publication, b: Publication) {
    && |requested * b.features| <= |requested * a.features|
    && (|requested * b.features| == |requested * a.features| ==> a.id <= b.id)
  }

  lemma MatchingFeature(requested: set<Feature>, p: Publication)
    ensures requested * p.features != {} <==> exists f :: f in requested && f in p.features
  {
    if requested * p.features != {} {
      var f :| f in requested * p.features;
    }
    if f :| f in requested && f in p.features {
      assert f in requested * p.features;
    }
  }

  lemma PoolIsEligible(requested: set<Feature>, publications: seq<Publication>)
    ensures forall p :: p in Pool(requested, publications) <==>
              p in publications && p.isSkill && !p.retired && exists f :: f in requested && f in p.features
    ensures SortedBy(Pool(requested, publications), SeedOrder(requested))
    ensures var pool := Pool(requested, publications);
            forall i, j :: 0 <= i < j < |pool| ==> Matches(requested, pool[i], pool[j])
  {
    forall p ensures Eligible(requested, p) <==>
                       p.isSkill && !p.retired && exists f :: f in requested && f in p.features
    {
      MatchingFeature(requested, p);
    }
    var all := EligibleOf(requested, publications);
    var pool := Pool(requested, publications);
    SortIsSorted(all, SeedOrder(requested));
    assert forall p :: p in pool <==> p in multiset(pool);
    assert forall p :: p in all <==> p in multiset(all);
  }

  lemma FirstSeedIsTop(requested: set<Feature>, pool: seq<Publication>)
    requires pool != [] && SortedBy(pool, SeedOrder(requested))
    ensures IsTop(requested, pool, pool[0])
  {
    forall q | q in pool ensures |requested * q.features| <= |requested * pool[0].features| {
      var i :| 0 <= i < |pool| && pool[i] == q;
      if i > 0 {
        assert SeedOrder(requested)(pool[0], pool[i]);
      }
    }
  }

  /** `s` holds, in the order of identifiers, what the composer built from `seed`. */
  ghost predicate Composed(requested: set<Feature>, pool: seq<Publication>, k: nat, seed: Publication,
                           selected: seq<Publication>, s: Suggestion)
    requires k > 0
  {
    && Composing(requested, pool, seed, k, selected, s.covered)
    && (|selected| == k || NoGain(requested, pool, s.covered))
    && s.skills == SortBy(selected, ById)
  }

  ghost predicate ComposedFrom(requested: set<Feature>, pool: seq<Publication>, k: nat, seed: Publication,
                               s: Suggestion)
    requires k > 0
  {
    exists selected: seq<Publication> :: Composed(requested, pool, k, seed, selected, s)
  }

  /** A suggestion of two or more skills, built by the composer from some seed. */
  ghost predicate Suggests(requested: set<Feature>, pool: seq<Publication>, k: nat, s: Suggestion)
    requires k > 0
  {
    |s.skills| >= 2 && exists seed :: seed in pool && ComposedFrom(requested, pool, k, seed, s)
  }

  lemma SameSize<T(!new)>(s: seq<T>, leq: (T, T) -> bool)
    requires TotalPreorder(leq)
    ensures |SortBy(s, leq)| == |s|
    ensures forall x :: x in SortBy(s, leq) <==> x in s
  {
    SortIsSorted(s, leq);
    assert |multiset(SortBy(s, leq))| == |multiset(s)|;
    assert forall x :: x in SortBy(s, leq) <==> x in multiset(SortBy(s, leq));
  }

  lemma SuggestionExtends(requested: set<Feature>, pool: seq<Publication>, k: nat, s: Suggestion)
    requires k >= 2 && Suggests(requested, pool, k, s)
    ensures exists seed :: seed in pool && Extensible(requested, pool, seed)
    ensures Choice(pool, k, s.skills)
  {
    var seed :| seed in pool && ComposedFrom(requested, pool, k, seed, s);
    var selected :| Composed(requested, pool, k, seed, selected, s);
    SameSize(selected, ById);
    ComposedGrows(requested, pool, seed, k, selected, s.covered);
  }

  lemma AnySuggestionMeetsBound(requested: set<Feature>, pool: seq<Publication>, k: nat, s: Suggestion)
    requires k >= 2 && Suggests(requested, pool, k, s) && OneCoversAll(requested, pool)
    ensures GreedyBound(requested, pool, k, k, |s.covered|)
  {
    var seed :| seed in pool && ComposedFrom(requested, pool, k, seed, s);
    var selected :| Composed(requested, pool, k, seed, selected, s);
    SameSize(selected, ById);
    ComposedMeetsBound(requested, pool, seed, k, selected, s.covered);
  }

  predicate Listed(suggestions: seq<Suggestion>, skills: seq<Publication>) {
    exists i :: 0 <= i < |suggestions| && Key(suggestions[i].skills) == Key(skills)
  }

  predicate DistinctKeys(suggestions: seq<Suggestion>) {
    forall i, j :: 0 <= i < j < |suggestions| ==> Key(suggestions[i].skills) != Key(suggestions[j].skills)
  }

  /** What the composer builds from an extensible seed is in the list, up to its key. */
  ghost predicate Represented(requested: set<Feature>, pool: seq<Publication>, k: nat,
                              suggestions: seq<Suggestion>, seed: Publication)
    requires k > 0
  {
    Extensible(requested, pool, seed) ==>
      exists s: Suggestion :: ComposedFrom(requested, pool, k, seed, s) && Listed(suggestions, s.skills)
  }

  ghost predicate MeetsBound(requested: set<Feature>, pool: seq<Publication>, k: nat, s: Suggestion)
    requires k > 0
  {
    GreedyBound(requested, pool, k, k, |s.covered|)
  }

  /** The bound is within reach: some suggestion meets it, or every suggestion will. */
  ghost predicate Bounded(requested: set<Feature>, pool: seq<Publication>, k: nat, suggestions: seq<Suggestion>)
    requires k > 0
  {
    OneCoversAll(requested, pool) || exists s :: s in suggestions && MeetsBound(requested, pool, k, s)
  }

  ghost predicate AllSuggest(requested: set<Feature>, pool: seq<Publication>, k: nat, suggestions: seq<Suggestion>)
    requires k > 0
  {
    forall s :: s in suggestions ==> Suggests(requested, pool, k, s)
  }

  lemma KeepRepresented(requested: set<Feature>, pool: seq<Publication>, k: nat, suggestions: seq<Suggestion>,
                        s: Suggestion, seed: Publication)
    requires k > 0 && Represented(requested, pool, k, suggestions, seed)
    ensures Represented(requested, pool, k, suggestions + [s], seed)
  {
    if Extensible(requested, pool, seed) {
      var t: Suggestion :| ComposedFrom(requested, pool, k, seed, t) && Listed(suggestions, t.skills);
      var i :| 0 <= i < |suggestions| && Key(suggestions[i].skills) == Key(t.skills);
      assert (suggestions + [s])[i] == suggestions[i];
      assert Listed(suggestions + [s], t.skills);
    }
  }

  lemma ListAppend(suggestions: seq<Suggestion>, s: Suggestion)
    requires DistinctKeys(suggestions) && !Listed(suggestions, s.skills)
    ensures DistinctKeys(suggestions + [s]) && Listed(suggestions + [s], s.skills)
  {
    assert (suggestions + [s])[|suggestions|] == s;
  }

  /** Where nothing adds to the top seed, it covers all the pool covers. */
  lemma UnextendedTop(requested: set<Feature>, pool: seq<Publication>, top: Publication)
    requires top in pool && !Extensible(requested, pool, top)
    ensures OneCoversAll(requested, pool)
  {
    forall q | q in pool ensures requested * q.features <= top.features {
      assert Gain(requested, requested * top.features, q) == 0;
      var missing := requested * q.features - requested * top.features;
      assert missing == {};
      forall x | x in requested * q.features ensures x in top.features {
        assert x !in missing;
      }
    }
    assert CoversAll(requested, pool, top);
  }

  ghost predicate FirstRepresented(requested: set<Feature>, pool: seq<Publication>, k: nat,
                                   suggestions: seq<Suggestion>, n: nat)
    requires k > 0 && n <= |pool|
  {
    forall j :: 0 <= j < n ==> Represented(requested, pool, k, suggestions, pool[j])
  }

  /** What the list of suggestions amounts to after the first `n` seeds. */
  ghost predicate Collected(requested: set<Feature>, pool: seq<Publication>, k: nat,
                            suggestions: seq<Suggestion>, n: nat)
    requires k > 0 && n <= |pool|
  {
    && AllSuggest(requested, pool, k, suggestions)
    && DistinctKeys(suggestions)
    && FirstRepresented(requested, pool, k, suggestions, n)
    && (if n == 0 then suggestions == [] else Bounded(requested, pool, k, suggestions))
  }

  lemma AppendSuggests(requested: set<Feature>, pool: seq<Publication>, k: nat, suggestions: seq<Suggestion>,
                       s: Suggestion)
    requires k > 0 && AllSuggest(requested, pool, k, suggestions) && Suggests(requested, pool, k, s)
    ensures AllSuggest(requested, pool, k, suggestions + [s])
  {
  }

  lemma AppendRepresents(requested: set<Feature>, pool: seq<Publication>, k: nat, suggestions: seq<Suggestion>,
                         s: Suggestion, n: nat)
    requires k > 0 && n <= |pool| && FirstRepresented(requested, pool, k, suggestions, n)
    ensures FirstRepresented(requested, pool, k, suggestions + [s], n)
  {
    forall j | 0 <= j < n ensures Represented(requested, pool, k, suggestions + [s], pool[j]) {
      KeepRepresented(requested, pool, k, suggestions, s, pool[j]);
    }
  }

  lemma NextRepresented(requested: set<Feature>, pool: seq<Publication>, k: nat, suggestions: seq<Suggestion>, n: nat)
    requires k > 0 && n < |pool| && FirstRepresented(requested, pool, k, suggestions, n)
    requires Represented(requested, pool, k, suggestions, pool[n])
    ensures FirstRepresented(requested, pool, k, suggestions, n + 1)
  {
  }

  lemma AppendKeepsBounded(requested: set<Feature>, pool: seq<Publication>, k: nat, suggestions: seq<Suggestion>,
                           s: Suggestion)
    requires k > 0 && Bounded(requested, pool, k, suggestions)
    ensures Bounded(requested, pool, k, suggestions + [s])
  {
    if !OneCoversAll(requested, pool) {
      var t :| t in suggestions && MeetsBound(requested, pool, k, t);
      assert t in suggestions + [s];
    }
  }

  lemma SelectedSuggests(requested: set<Feature>, pool: seq<Publication>, k: nat, seed: Publication,
                         selected: seq<Publication>, s: Suggestion)
    requires k >= 2 && seed in pool && Composed(requested, pool, k, seed, selected, s)
    ensures |selected| >= 2 ==> Suggests(requested, pool, k, s)
    ensures |selected| >= 2 <==> Extensible(requested, pool, seed)
  {
    SameSize(selected, ById);
    ComposedGrows(requested, pool, seed, k, selected, s.covered);
    assert ComposedFrom(requested, pool, k, seed, s);
  }

  lemma ListedRepresents(requested: set<Feature>, pool: seq<Publication>, k: nat, suggestions: seq<Suggestion>,
                         seed: Publication, selected: seq<Publication>, s: Suggestion)
    requires k > 0 && Composed(requested, pool, k, seed, selected, s)
    requires Extensible(requested, pool, seed) ==> Listed(suggestions, s.skills)
    ensures Represented(requested, pool, k, suggestions, seed)
  {
    assert ComposedFrom(requested, pool, k, seed, s);
  }

  /** A seed whose composition is new to the list. */
  lemma AddCollects(requested: set<Feature>, pool: seq<Publication>, k: nat, suggestions: seq<Suggestion>, n: nat,
                    selected: seq<Publication>, s: Suggestion)
    requires k >= 2 && n < |pool| && SortedBy(pool, SeedOrder(requested))
    requires Collected(requested, pool, k, suggestions, n) && Composed(requested, pool, k, pool[n], selected, s)
    requires |selected| >= 2 && !Listed(suggestions, s.skills)
    ensures Collected(requested, pool, k, suggestions + [s], n + 1)
  {
    SelectedSuggests(requested, pool, k, pool[n], selected, s);
    AppendSuggests(requested, pool, k, suggestions, s);
    ListAppend(suggestions, s);
    AppendRepresents(requested, pool, k, suggestions, s, n);
    ListedRepresents(requested, pool, k, suggestions + [s], pool[n], selected, s);
    NextRepresented(requested, pool, k, suggestions + [s], n);
    if n == 0 {
      FirstSeedBounds(requested, pool, k, suggestions + [s], selected, s);
    } else {
      AppendKeepsBounded(requested, pool, k, suggestions, s);
    }
  }

  /** A seed that cannot be extended, or whose composition is already listed. */
  lemma SkipCollects(requested: set<Feature>, pool: seq<Publication>, k: nat, suggestions: seq<Suggestion>, n: nat,
                     selected: seq<Publication>, s: Suggestion)
    requires k >= 2 && n < |pool| && SortedBy(pool, SeedOrder(requested))
    requires Collected(requested, pool, k, suggestions, n) && Composed(requested, pool, k, pool[n], selected, s)
    requires |selected| < 2 || Listed(suggestions, s.skills)
    ensures Collected(requested, pool, k, suggestions, n + 1)
  {
    SelectedSuggests(requested, pool, k, pool[n], selected, s);
    ListedRepresents(requested, pool, k, suggestions, pool[n], selected, s);
    NextRepresented(requested, pool, k, suggestions, n);
    if n == 0 {
      FirstSeedBounds(requested, pool, k, suggestions, selected, s);
    }
  }

  /** The suggestions of every seed in turn, without repeated keys. */
  method Collect(requested: set<Feature>, pool: seq<Publication>, k: nat) returns (suggestions: seq<Suggestion>)
    requires k >= 2 && SortedBy(pool, SeedOrder(requested))
    ensures Collected(requested, pool, k, suggestions, |pool|)
  {
    suggestions := [];
    for n := 0 to |pool|
      invariant Collected(requested, pool, k, suggestions, n)
    {
      var selected, covered := Compose(requested, pool, pool[n], k);
      var s := Suggestion(SortBy(selected, ById), covered);
      if |selected| >= 2 && !Listed(suggestions, s.skills) {
        AddCollects(requested, pool, k, suggestions, n, selected, s);
        suggestions := suggestions + [s];
      } else {
        SkipCollects(requested, pool, k, suggestions, n, selected, s);
      }
    }
  }

  lemma FirstSeedBounds(requested: set<Feature>, pool: seq<Publication>, k: nat, after: seq<Suggestion>,
                        selected: seq<Publication>, s: Suggestion)
    requires k >= 2 && pool != [] && SortedBy(pool, SeedOrder(requested))
    requires Composed(requested, pool, k, pool[0], selected, s)
    requires |selected| >= 2 ==> s in after
    ensures Bounded(requested, pool, k, after)
  {
    ComposedGrows(requested, pool, pool[0], k, selected, s.covered);
    if |selected| >= 2 {
      FirstSeedIsTop(requested, pool);
      ComposedMeetsBound(requested, pool, pool[0], k, selected, s.covered);
      assert MeetsBound(requested, pool, k, s);
    } else {
      UnextendedTop(requested, pool, pool[0]);
    }
  }

  // ---------------------------------------------------------------------------
  // Ranking
  // ---------------------------------------------------------------------------

  lemma RankingIsTotal(keyLeq: (seq<Id>, seq<Id>) -> bool)
    requires TotalPreorder(keyLeq)
    ensures TotalPreorder(Ranking(keyLeq))
  {
    var leq := Ranking(keyLeq);
    forall a, b ensures leq(a, b) || leq(b, a) {
      assert keyLeq(Key(a.skills), Key(b.skills)) || keyLeq(Key(b.skills), Key(a.skills));
    }
    forall a, b, c | leq(a, b) && leq(b, c) ensures leq(a, c) {
      assert keyLeq(Key(a.skills), Key(b.skills)) && keyLeq(Key(b.skills), Key(c.skills)) ==>
          keyLeq(Key(a.skills), Key(c.skills));
    }
  }

  lemma DistinctKeysPermute(a: seq<Suggestion>, b: seq<Suggestion>)
    requires DistinctKeys(a) && multiset(a) == multiset(b)
    ensures DistinctKeys(b)
  {
    forall i, j | 0 <= i < j < |b| ensures Key(b[i].skills) != Key(b[j].skills) {
      if b[i] == b[j] {
        OccursTwice(b, i, j);
        var m, n := OccursAtTwo(a, b[i]);
      } else {
        assert b[i] in multiset(a) && b[j] in multiset(a);
        var m :| 0 <= m < |a| && a[m] == b[i];
        var n :| 0 <= n < |a| && a[n] == b[j];
        assert m < n || n < m;
      }
    }
  }

  lemma RepresentedPermute(requested: set<Feature>, pool: seq<Publication>, k: nat, a: seq<Suggestion>,
                           b: seq<Suggestion>)
    requires k > 0 && FirstRepresented(requested, pool, k, a, |pool|)
    requires forall s :: s in a ==> s in b
    ensures FirstRepresented(requested, pool, k, b, |pool|)
  {
    forall p | Represented(requested, pool, k, a, p) && Extensible(requested, pool, p)
      ensures Represented(requested, pool, k, b, p)
    {
      var t: Suggestion :| ComposedFrom(requested, pool, k, p, t) && Listed(a, t.skills);
      var i :| 0 <= i < |a| && Key(a[i].skills) == Key(t.skills);
      assert a[i] in b;
      assert Listed(b, t.skills);
    }
  }

  /** Covering more keeps the bound. */
  lemma BoundGrows(requested: set<Feature>, pool: seq<Publication>, k: nat, covered: nat, more: nat)
    requires k > 0 && covered <= more && GreedyBound(requested, pool, k, k, covered)
    ensures GreedyBound(requested, pool, k, k, more)
  {
    forall team | Choice(pool, k, team) ensures Within(k, k, Coverage(requested, team), more) {
      var best := Coverage(requested, team);
      assert Within(k, k, best, covered);
      MultiplyMonotone(Power(k, k), best - more, best - covered);
    }
  }

  lemma FirstRankedCoversMost(ranked: seq<Suggestion>, s: Suggestion, keyLeq: (seq<Id>, seq<Id>) -> bool)
    requires s in ranked && SortedBy(ranked, Ranking(keyLeq))
    ensures |s.covered| <= |ranked[0].covered|
  {
    var i :| 0 <= i < |ranked| && ranked[i] == s;
    assert i == 0 || Ranking(keyLeq)(ranked[0], ranked[i]);
  }

  lemma FirstRankedMeetsBound(requested: set<Feature>, pool: seq<Publication>, k: nat,
                              suggestions: seq<Suggestion>, ranked: seq<Suggestion>,
                              keyLeq: (seq<Id>, seq<Id>) -> bool)
    requires k >= 2 && ranked != [] && SortedBy(ranked, Ranking(keyLeq))
    requires forall s :: s in suggestions <==> s in ranked
    requires AllSuggest(requested, pool, k, suggestions) && Bounded(requested, pool, k, suggestions)
    ensures MeetsBound(requested, pool, k, ranked[0])
  {
    if OneCoversAll(requested, pool) {
      assert ranked[0] in suggestions;
      AnySuggestionMeetsBound(requested, pool, k, ranked[0]);
    } else {
      var s :| s in suggestions && MeetsBound(requested, pool, k, s);
      FirstRankedCoversMost(ranked, s, keyLeq);
      BoundGrows(requested, pool, k, |s.covered|, |ranked[0].covered|);
    }
  }

  lemma NothingSuggested(requested: set<Feature>, pool: seq<Publication>, k: nat, suggestions: seq<Suggestion>)
    requires k >= 2 && Collected(requested, pool, k, suggestions, |pool|)
    ensures suggestions == [] <==> forall seed :: seed in pool ==> !Extensible(requested, pool, seed)
  {
    if suggestions != [] {
      SuggestionExtends(requested, pool, k, suggestions[0]);
    } else {
      forall seed | seed in pool ensures !Extensible(requested, pool, seed) {
        var j :| 0 <= j < |pool| && pool[j] == seed;
        assert Represented(requested, pool, k, suggestions, pool[j]);
      }
    }
  }

  /** What ranking makes of the collected suggestions. */
  lemma RankedSuggestions(requested: set<Feature>, pool: seq<Publication>, k: nat,
                          suggestions: seq<Suggestion>, keyLeq: (seq<Id>, seq<Id>) -> bool)
    requires k >= 2 && TotalPreorder(keyLeq) && Collected(requested, pool, k, suggestions, |pool|)
    ensures
      var all := SortBy(suggestions, Ranking(keyLeq));
      && SortedBy(all, Ranking(keyLeq)) && DistinctKeys(all)
      && AllSuggest(requested, pool, k, all)
      && FirstRepresented(requested, pool, k, all, |pool|)
      && (all == [] <==> forall seed :: seed in pool ==> !Extensible(requested, pool, seed))
      && (all != [] ==> MeetsBound(requested, pool, k, all[0]))
  {
    var all := SortBy(suggestions, Ranking(keyLeq));
    RankingIsTotal(keyLeq);
    SortIsSorted(suggestions, Ranking(keyLeq));
    SameSize(suggestions, Ranking(keyLeq));
    DistinctKeysPermute(suggestions, all);
    RepresentedPermute(requested, pool, k, suggestions, all);
    NothingSuggested(requested, pool, k, suggestions);
    if all != [] {
      assert suggestions[0] in suggestions;
      SuggestionExtends(requested, pool, k, suggestions[0]);
      FirstRankedMeetsBound(requested, pool, k, suggestions, all, keyLeq);
    }
  }

  lemma FirstOf(requested: set<Feature>, pool: seq<Publication>, k: nat, ranked: seq<Suggestion>, n: nat,
                keyLeq: (seq<Id>, seq<Id>) -> bool)
    requires k > 0 && 0 < n <= |ranked| && DistinctKeys(ranked) && SortedBy(ranked, Ranking(keyLeq))
    requires AllSuggest(requested, pool, k, ranked)
    ensures |ranked[..n]| == n && ranked[..n][0] == ranked[0]
    ensures DistinctKeys(ranked[..n]) && SortedBy(ranked[..n], Ranking(keyLeq))
    ensures AllSuggest(requested, pool, k, ranked[..n])
  {
  }

  /** The suggestion is among the `n` ranked ones, or these are complete and each ranks before it. */
  predicate Placed(ranked: seq<Suggestion>, n: nat, keyLeq: (seq<Id>, seq<Id>) -> bool, t: Suggestion) {
    t in ranked || (|ranked| == n && forall r :: r in ranked ==> InOrder(r, t, keyLeq))
  }

  /** The first suggestion covers more; or as much with fewer skills; or with as many, and its key comes first. */
  predicate InOrder(a: Suggestion, b: Suggestion, keyLeq: (seq<Id>, seq<Id>) -> bool) {
    && |b.covered| <= |a.covered|
    && (|b.covered| == |a.covered| ==>
          && |a.skills| <= |b.skills|
          && (|a.skills| == |b.skills| ==> keyLeq(Key(a.skills), Key(b.skills))))
  }

  lemma RankedInOrder(ranked: seq<Suggestion>, keyLeq: (seq<Id>, seq<Id>) -> bool)
    requires SortedBy(ranked, Ranking(keyLeq))
    ensures forall i, j :: 0 <= i < j < |ranked| ==> InOrder(ranked[i], ranked[j], keyLeq)
  {
    forall i, j | 0 <= i < j < |ranked| ensures InOrder(ranked[i], ranked[j], keyLeq) {
      assert Ranking(keyLeq)(ranked[i], ranked[j]);
    }
  }

  /** The number of suggestions wanted is cut to 5, and the size of a team to between 2 and 5; 4 when not given. */
  lemma OptionsAreCut(n: int)
    ensures Wanted(None) == 5 && Wanted(Some(n)) == (if n < 0 then 0 else if n > 5 then 5 else n)
    ensures TeamSize(None) == 4 && TeamSize(Some(n)) == (if n < 2 then 2 else if n > 5 then 5 else n)
  {
  }

  /**
   Two to `k` published skills that are not retired and match the request, by rising identifier, with exactly the
   requested features that they hold together.
   */
  ghost predicate WellMade(requested: set<Feature>, publications: seq<Publication>, k: nat, s: Suggestion) {
    && 2 <= |s.skills| <= k
    && (forall p :: p in s.skills ==>
          p in publications && p.isSkill && !p.retired && exists f :: f in requested && f in p.features)
    && (forall i, j :: 0 <= i < j < |s.skills| ==> s.skills[i].id <= s.skills[j].id)
    && forall f :: f in s.covered <==> f in requested && exists p :: p in s.skills && f in p.features
  }

  lemma {:induction false} UnionHolds(ps: seq<Publication>, f: Feature)
    ensures f in Union(ps) <==> exists p :: p in ps && f in p.features
  {
    if ps != [] {
      var n := |ps| - 1;
      UnionHolds(ps[..n], f);
      assert ps == ps[..n] + [ps[n]];
    }
  }

  lemma SkillsCover(requested: set<Feature>, skills: seq<Publication>, selected: seq<Publication>, f: Feature)
    requires skills == SortBy(selected, ById)
    ensures f in requested * Union(selected) <==> f in requested && exists p :: p in skills && f in p.features
  {
    SameSize(selected, ById);
    UnionHolds(selected, f);
  }

  lemma SkillsRise(skills: seq<Publication>, selected: seq<Publication>)
    requires skills == SortBy(selected, ById)
    ensures forall i, j :: 0 <= i < j < |skills| ==> skills[i].id <= skills[j].id
  {
    SortIsSorted(selected, ById);
    forall i, j | 0 <= i < j < |skills| ensures skills[i].id <= skills[j].id {
      assert ById(skills[i], skills[j]);
    }
  }

  lemma MadeOf(requested: set<Feature>, pool: seq<Publication>, k: nat, s: Suggestion)
    returns (selected: seq<Publication>)
    requires k > 0 && Suggests(requested, pool, k, s)
    ensures s.skills == SortBy(selected, ById) && s.covered == requested * Union(selected)
  {
    var seed :| seed in pool && ComposedFrom(requested, pool, k, seed, s);
    selected :| Composed(requested, pool, k, seed, selected, s);
  }

  lemma SuggestionIsWellMade(requested: set<Feature>, publications: seq<Publication>, k: nat, s: Suggestion)
    requires k >= 2 && Suggests(requested, Pool(requested, publications), k, s)
    ensures WellMade(requested, publications, k, s)
  {
    var pool := Pool(requested, publications);
    SuggestionExtends(requested, pool, k, s);
    var selected := MadeOf(requested, pool, k, s);
    SkillsRise(s.skills, selected);
    forall f ensures f in s.covered <==> f in requested && exists p :: p in s.skills && f in p.features {
      SkillsCover(requested, s.skills, selected, f);
    }
    SkillsArePublished(requested, publications, s.skills);
  }

  lemma SkillsArePublished(requested: set<Feature>, publications: seq<Publication>, skills: seq<Publication>)
    requires forall p :: p in skills ==> p in Pool(requested, publications)
    ensures forall p :: p in skills ==>
              p in publications && p.isSkill && !p.retired && exists f :: f in requested && f in p.features
  {
    PoolIsEligible(requested, publications);
  }

  /** What the composer builds from an extensible seed has its place, up to its key. */
  ghost predicate SeedPlaced(requested: set<Feature>, pool: seq<Publication>, k: nat, ranked: seq<Suggestion>, n: nat,
                             keyLeq: (seq<Id>, seq<Id>) -> bool, seed: Publication)
    requires k > 0
  {
    Extensible(requested, pool, seed) ==>
      exists s: Suggestion, t: Suggestion ::
        && ComposedFrom(requested, pool, k, seed, s) && Suggests(requested, pool, k, t)
        && Key(t.skills) == Key(s.skills) && Placed(ranked, n, keyLeq, t)
  }

  /** No composition is left out for one that ranks after it. */
  ghost predicate BestKept(requested: set<Feature>, pool: seq<Publication>, k: nat, ranked: seq<Suggestion>, n: nat,
                           keyLeq: (seq<Id>, seq<Id>) -> bool)
    requires k > 0
  {
    forall seed :: seed in pool ==> SeedPlaced(requested, pool, k, ranked, n, keyLeq, seed)
  }

  lemma CutPlaces(all: seq<Suggestion>, ranked: seq<Suggestion>, n: nat, keyLeq: (seq<Id>, seq<Id>) -> bool, i: nat)
    requires i < |all| && SortedBy(all, Ranking(keyLeq))
    requires ranked == if |all| > n then all[..n] else all
    ensures Placed(ranked, n, keyLeq, all[i])
  {
    if i < |ranked| {
      assert ranked[i] == all[i];
    } else {
      forall r | r in ranked ensures InOrder(r, all[i], keyLeq) {
        var j :| 0 <= j < |ranked| && ranked[j] == r;
        assert all[j] == r;
      }
    }
  }

  lemma CutKeepsBest(requested: set<Feature>, pool: seq<Publication>, k: nat, all: seq<Suggestion>,
                     ranked: seq<Suggestion>, n: nat, keyLeq: (seq<Id>, seq<Id>) -> bool)
    requires k > 0 && SortedBy(all, Ranking(keyLeq)) && AllSuggest(requested, pool, k, all)
    requires FirstRepresented(requested, pool, k, all, |pool|)
    requires ranked == if |all| > n then all[..n] else all
    ensures BestKept(requested, pool, k, ranked, n, keyLeq)
  {
    forall seed | seed in pool && Extensible(requested, pool, seed)
      ensures SeedPlaced(requested, pool, k, ranked, n, keyLeq, seed)
    {
      var p :| 0 <= p < |pool| && pool[p] == seed;
      assert Represented(requested, pool, k, all, pool[p]);
      var s: Suggestion :| ComposedFrom(requested, pool, k, seed, s) && Listed(all, s.skills);
      var i :| 0 <= i < |all| && Key(all[i].skills) == Key(s.skills);
      CutPlaces(all, ranked, n, keyLeq, i);
      assert all[i] in all;
    }
  }

  /**
   The ranked suggestions. Each is a greedy composition of two or more eligible skills, no key occurs
   twice, and the first one reaches 1 - (1 - 1/k)^k of the best coverage any `k` eligible skills
   reach. There are none exactly when none are wanted or no skill adds to another, and every seed's
   composition is among them unless as many as wanted rank before it.
   */
  method Suggest(requested: set<Feature>, publications: seq<Publication>, maxSuggestions: Option<int>,
                 maxSkills: Option<int>, keyLeq: (seq<Id>, seq<Id>) -> bool)
    returns (ranked: seq<Suggestion>)
    requires TotalPreorder(keyLeq)
    ensures |ranked| <= Wanted(maxSuggestions)
    ensures DistinctKeys(ranked)
    ensures forall i, j :: 0 <= i < j < |ranked| ==> InOrder(ranked[i], ranked[j], keyLeq)
    ensures AllSuggest(requested, Pool(requested, publications), TeamSize(maxSkills), ranked)
    ensures forall s :: s in ranked ==> WellMade(requested, publications, TeamSize(maxSkills), s)
    ensures ranked != [] ==> MeetsBound(requested, Pool(requested, publications), TeamSize(maxSkills), ranked[0])
    ensures ranked == [] <==>
              || Wanted(maxSuggestions) == 0
              || forall seed :: seed in Pool(requested, publications) ==>
                   !Extensible(requested, Pool(requested, publications), seed)
    ensures Wanted(maxSuggestions) > 0 ==>
              BestKept(requested, Pool(requested, publications), TeamSize(maxSkills), ranked,
                       Wanted(maxSuggestions), keyLeq)
  {
    if Wanted(maxSuggestions) == 0 {
      return [];
    }
    var pool := Pool(requested, publications);
    PoolIsEligible(requested, publications);
    var suggestions := Collect(requested, pool, TeamSize(maxSkills));
    RankedSuggestions(requested, pool, TeamSize(maxSkills), suggestions, keyLeq);
    ranked := SortBy(suggestions, Ranking(keyLeq));
    ghost var all := ranked;
    if |ranked| > Wanted(maxSuggestions) {
      FirstOf(requested, pool, TeamSize(maxSkills), ranked, Wanted(maxSuggestions), keyLeq);
      ranked := ranked[..Wanted(maxSuggestions)];
    }
    CutKeepsBest(requested, pool, TeamSize(maxSkills), all, ranked, Wanted(maxSuggestions), keyLeq);
    RankedInOrder(ranked, keyLeq);
    forall s | s in ranked ensures WellMade(requested, publications, TeamSize(maxSkills), s) {
      SuggestionIsWellMade(requested, publications, TeamSize(maxSkills), s);
    }
  }
}
