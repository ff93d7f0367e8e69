/** View resolution (ViewResolver.cs): every registered mapping gets a variant
    score and a type score; mappings whose type score is zero are discarded, the
    rest are ordered by variant score and then type score, both descending, with
    a stable sort, and the first one wins. */
module ViewResolution {
  import opened Types
  import OptionsExtensions

  const DefaultCategory: string := "Default"
  const ZeroScore: int := 0
  const MediumScore: int := 50
  const HighScore: int := 100

  /** A registry entry: the view model type and view type it maps, the asset
      locator and the declared variants. */
  datatype ViewMapping = ViewMapping(viewModelType: ClrType, viewType: ClrType, uri: string, variants: seq<string>)

  /** Which type of a mapping a resolution compares against. */
  datatype TypeSelector = ByViewModelType | ByViewType

  function SelectedType(m: ViewMapping, selector: TypeSelector): ClrType
  {
    match selector
    case ByViewModelType => m.viewModelType
    case ByViewType => m.viewType
  }

  // ---------------------------------------------------------------------------
  // Variant score

  /** The positions of requested variants that the candidate declares. */
  ghost function MatchedPositions(requested: seq<string>, candidate: seq<string>): set<nat>
  {
    set i: nat | i < |requested| && requested[i] in candidate
  }

  /** How many requested variants, counted with multiplicity, the candidate
      declares (Enumerable.Count with Contains as the predicate). */
  function CountContained(requested: seq<string>, candidate: seq<string>): (n: nat)
    ensures n <= |requested|
    ensures n == |MatchedPositions(requested, candidate)|
  {
    if requested == [] then 0
    else
      var front := requested[..|requested| - 1];
      var last := requested[|requested| - 1];
      assert requested == front + [last];
      MatchedPositionsSnoc(front, last, candidate);
      CountContained(front, candidate) + (if last in candidate then 1 else 0)
  }

  lemma MatchedPositionsSnoc(front: seq<string>, last: string, candidate: seq<string>)
    ensures MatchedPositions(front + [last], candidate) ==
      MatchedPositions(front, candidate) + (if last in candidate then {|front|} else {})
    ensures |front| !in MatchedPositions(front, candidate)
  {
    var r := front + [last];
    forall i: nat | i < |front| ensures r[i] == front[i] { }
  }

  /** 100 points per requested variant that the candidate declares, plus 50 if
      the candidate declares the "Default" variant. */
  function VariantScore(requested: seq<string>, candidate: seq<string>): (score: int)
    ensures score == HighScore * |MatchedPositions(requested, candidate)| +
                     (if DefaultCategory in candidate then MediumScore else ZeroScore)
    ensures 0 <= score <= HighScore * |requested| + MediumScore
  {
    CountContained(requested, candidate) * HighScore +
    (if DefaultCategory in candidate then MediumScore else ZeroScore)
  }

  lemma {:induction false} CountContainedAppend(a: seq<string>, b: seq<string>, candidate: seq<string>)
    ensures CountContained(a + b, candidate) == CountContained(a, candidate) + CountContained(b, candidate)
    decreases |b|
  {
    if b == [] {
      assert a + b == a;
    } else {
      var b' := b[..|b| - 1];
      assert a + b == (a + b') + [b[|b| - 1]];
      assert (a + b)[..|a + b| - 1] == a + b';
      CountContainedAppend(a, b', candidate);
    }
  }

  /** Requesting more variants never lowers a candidate's variant score, and
      raises it by at most 100 per extra variant. */
  lemma VariantScoreMonotonic(requested: seq<string>, extra: seq<string>, candidate: seq<string>)
    ensures VariantScore(requested, candidate) <= VariantScore(requested + extra, candidate)
    ensures VariantScore(requested + extra, candidate) <= VariantScore(requested, candidate) + HighScore * |extra|
  {
    CountContainedAppend(requested, extra, candidate);
  }

  // ---------------------------------------------------------------------------
  // Type score

  /** The position of the first occurrence of `x` in `s`. */
  function IndexOf<T(==)>(s: seq<T>, x: T): (i: nat)
    requires x in s
    ensures i < |s| && s[i] == x && x !in s[..i]
  {
    if s[0] == x then 0 else 1 + IndexOf(s[1..], x)
  }

  /** 100 if the candidate type is the requested type, one less per base-type
      step between them, and 0 if the requested type is not among the
      candidate's self-and-ancestors. As in the code, an ancestor exactly 100
      steps up also scores 0, and one further up scores below 0. */
  function TypeScore(requested: TypeId, candidate: ClrType): int
  {
    var chain := candidate.SelfAndAncestors();
    if requested in chain then HighScore - IndexOf(chain, requested) else ZeroScore
  }

  /** GetTypeScore: walks from the candidate type up its base types, lowering
      the score by one per step, until it meets the requested type. */
  method GetTypeScore(requested: TypeId, candidate: ClrType) returns (score: int)
    ensures score == TypeScore(requested, candidate)
  {
    var chain := candidate.SelfAndAncestors();
    score := HighScore;
    var i := 0;
    while i < |chain|
      invariant 0 <= i <= |chain|
      invariant score == HighScore - i
      invariant requested !in chain[..i]
    {
      if chain[i] == requested {
        assert chain[..i + 1] == chain[..i] + [requested];
        IndexOfIsFirst(chain, requested, i);
        return;
      }
      assert chain[..i + 1] == chain[..i] + [chain[i]];
      score := score - 1;
      i := i + 1;
    }
    assert chain[..i] == chain;
    score := ZeroScore;
  }

  lemma IndexOfIsFirst<T>(s: seq<T>, x: T, i: nat)
    requires i < |s| && s[i] == x && x !in s[..i]
    ensures IndexOf(s, x) == i
  {
    var k := IndexOf(s, x);
    forall j | 0 <= j < i ensures s[j] != x {
      assert s[..i][j] == s[j];
    }
    forall j | 0 <= j < k ensures s[j] != x {
      assert s[..k][j] == s[j];
    }
  }

  lemma ExactTypeScoresHighest(requested: TypeId, candidate: ClrType)
    requires candidate.id == requested
    ensures TypeScore(requested, candidate) == HighScore
  {
    assert candidate.SelfAndAncestors()[0] == requested;
  }

  /** A requested type found d base-type steps above the candidate type scores
      100 - d, which is below the exact-match score when d > 0. */
  lemma AncestorTypeScore(requested: TypeId, candidate: ClrType, d: nat)
    requires d < |candidate.SelfAndAncestors()| && candidate.SelfAndAncestors()[d] == requested
    requires requested !in candidate.SelfAndAncestors()[..d]
    ensures TypeScore(requested, candidate) == HighScore - d
  {
    IndexOfIsFirst(candidate.SelfAndAncestors(), requested, d);
  }

  lemma UnrelatedTypeScoresZero(requested: TypeId, candidate: ClrType)
    requires requested !in candidate.SelfAndAncestors()
    ensures TypeScore(requested, candidate) == ZeroScore
  {
  }

  // ---------------------------------------------------------------------------
  // Candidate selection

  /** A mapping's (variant score, type score) pair. */
  datatype Score = Score(variant: int, typeScore: int)

  /** a sorts strictly before b in the descending (variant, type) order. */
  predicate Beats(a: Score, b: Score)
  {
    a.variant > b.variant || (a.variant == b.variant && a.typeScore > b.typeScore)
  }

  predicate Eligible(s: Score)
  {
    s.typeScore != ZeroScore
  }

  /** The head of the stable descending sort of the eligible scores: an
      eligible entry that strictly beats every eligible entry before it and is
      beaten by no eligible entry after it. */
  predicate IsFirstBest(scores: seq<Score>, k: nat)
  {
    && k < |scores|
    && Eligible(scores[k])
    && (forall j :: 0 <= j < k && Eligible(scores[j]) ==> Beats(scores[k], scores[j]))
    && (forall j :: k < j < |scores| && Eligible(scores[j]) ==> !Beats(scores[j], scores[k]))
  }

  /** The index `orderby variantScore descending, typeScore descending` puts
      first among the eligible entries, or None when none is eligible. */
  function FirstBest(scores: seq<Score>): (r: Option<nat>)
    ensures r.None? <==> (forall j :: 0 <= j < |scores| ==> !Eligible(scores[j]))
    ensures r.Some? ==> IsFirstBest(scores, r.value)
    decreases |scores|
  {
    if scores == [] then None
    else
      var rest := FirstBest(scores[1..]);
      if !Eligible(scores[0]) then
        (if rest.None? then None else Some(rest.value + 1))
      else if rest.Some? && Beats(scores[1..][rest.value], scores[0]) then
        Some(rest.value + 1)
      else
        Some(0)
  }

  /** Stable ordering makes the winner unique: it is the only index with the
      first-best property. */
  lemma FirstBestIsUnique(scores: seq<Score>, k1: nat, k2: nat)
    requires IsFirstBest(scores, k1) && IsFirstBest(scores, k2)
    ensures k1 == k2
  {
  }

  function ScoreOf(m: ViewMapping, variants: seq<string>, requested: TypeId, selector: TypeSelector): Score
  {
    Score(VariantScore(variants, m.variants), TypeScore(requested, SelectedType(m, selector)))
  }

  function Scores(mappings: seq<ViewMapping>, variants: seq<string>, requested: TypeId, selector: TypeSelector): (s: seq<Score>)
    ensures |s| == |mappings|
    ensures forall i :: 0 <= i < |mappings| ==> s[i] == ScoreOf(mappings[i], variants, requested, selector)
  {
    seq(|mappings|, i requires 0 <= i < |mappings| => ScoreOf(mappings[i], variants, requested, selector))
  }

  /** ResolveInternal on an explicit variant list: the first-best mapping, or
      None (the source's null) when every mapping has type score zero. */
  function ResolveWithVariants(mappings: seq<ViewMapping>, variants: seq<string>, requested: TypeId, selector: TypeSelector): (r: Option<ViewMapping>)
    ensures r.None? <==> forall m :: m in mappings ==> TypeScore(requested, SelectedType(m, selector)) == ZeroScore
    ensures r.Some? ==> exists k :: 0 <= k < |mappings| && mappings[k] == r.value &&
                                    IsFirstBest(Scores(mappings, variants, requested, selector), k)
    ensures r.Some? ==> TypeScore(requested, SelectedType(r.value, selector)) != ZeroScore
  {
    var scores := Scores(mappings, variants, requested, selector);
    match FirstBest(scores)
    case None =>
      assert forall m :: m in mappings ==> TypeScore(requested, SelectedType(m, selector)) == ZeroScore by {
        forall m | m in mappings ensures TypeScore(requested, SelectedType(m, selector)) == ZeroScore {
          var j :| 0 <= j < |mappings| && mappings[j] == m;
          assert !Eligible(scores[j]);
        }
      }
      None
    case Some(k) =>
      assert Eligible(scores[k]);
      Some(mappings[k])
  }

  /** The requested variants: the options' variants followed by the global
      provider's, where an absent provider (or provider list) adds nothing. */
  function EffectiveVariants(options: Options?, globalVariants: Option<seq<string>>): (vs: seq<string>)
    reads options
    ensures OptionsExtensions.GetVariants(options) <= vs
    ensures vs[|OptionsExtensions.GetVariants(options)|..] == if globalVariants.Some? then globalVariants.value else []
  {
    OptionsExtensions.GetVariants(options) + (if globalVariants.Some? then globalVariants.value else [])
  }

  /** The resolver's registry: the mapping list, filled by Initialize, and the
      optional global variant provider given at construction. */
  class ViewResolver {
    var mappings: seq<ViewMapping>
    const globalVariants: Option<seq<string>>

    constructor (provider: Option<seq<string>>)
      ensures mappings == [] && globalVariants == provider
    {
      mappings := [];
      globalVariants := provider;
    }

    /** Initialize: AddRange of the mappings discovered for every view type. */
    method Initialize(discovered: seq<ViewMapping>)
      modifies this
      ensures mappings == old(mappings) + discovered
    {
      mappings := mappings + discovered;
    }

    function ResolveFromViewModelType(viewModelType: TypeId, options: Options?): (r: Option<ViewMapping>)
      reads this, options
      ensures r.None? <==> forall m :: m in mappings ==> TypeScore(viewModelType, m.viewModelType) == ZeroScore
      ensures r.Some? ==>
        exists k :: 0 <= k < |mappings| && mappings[k] == r.value &&
                    IsFirstBest(Scores(mappings, EffectiveVariants(options, globalVariants), viewModelType, ByViewModelType), k)
    {
      ResolveWithVariants(mappings, EffectiveVariants(options, globalVariants), viewModelType, ByViewModelType)
    }

    function ResolveFromViewType(viewType: TypeId, options: Options?): (r: Option<ViewMapping>)
      reads this, options
      ensures r.None? <==> forall m :: m in mappings ==> TypeScore(viewType, m.viewType) == ZeroScore
      ensures r.Some? ==>
        exists k :: 0 <= k < |mappings| && mappings[k] == r.value &&
                    IsFirstBest(Scores(mappings, EffectiveVariants(options, globalVariants), viewType, ByViewType), k)
    {
      ResolveWithVariants(mappings, EffectiveVariants(options, globalVariants), viewType, ByViewType)
    }
  }

  /** The winner has the highest variant score among mappings with a non-zero
      type score, and the highest type score among those tied with it. */
  lemma ResolvedIsMaximal(mappings: seq<ViewMapping>, variants: seq<string>, requested: TypeId, selector: TypeSelector, k: nat, j: nat)
    requires IsFirstBest(Scores(mappings, variants, requested, selector), k)
    requires j < |mappings| && TypeScore(requested, SelectedType(mappings[j], selector)) != ZeroScore
    ensures VariantScore(variants, mappings[j].variants) <= VariantScore(variants, mappings[k].variants)
    ensures VariantScore(variants, mappings[j].variants) == VariantScore(variants, mappings[k].variants) ==>
      TypeScore(requested, SelectedType(mappings[j], selector)) <= TypeScore(requested, SelectedType(mappings[k], selector))
    ensures j < k ==> Beats(ScoreOf(mappings[k], variants, requested, selector), ScoreOf(mappings[j], variants, requested, selector))
  {
    var s := Scores(mappings, variants, requested, selector);
    assert s[j] == ScoreOf(mappings[j], variants, requested, selector);
    assert s[k] == ScoreOf(mappings[k], variants, requested, selector);
    assert Eligible(s[j]);
  }
}
