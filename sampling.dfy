/** One iteration's random draw. MERlin's `Optimize.run_analysis` calls `random.sample` on
    the list of fields of view and `np.random.choice` on the z-position indexes; here the
    outcome of those calls is an input, and the predicates say which outcomes they can
    produce. */
module Sampling {

  /** What one iteration draws: `fovPositions` are the distinct positions that
      `random.sample` picks in the list of fields of view, `zIndexes` the indexes that
      `np.random.choice` picks (repeats allowed). */
  datatype IterationSample = IterationSample(fovPositions: seq<nat>, zIndexes: seq<nat>)

  predicate Distinct<T(==)>(s: seq<T>) {
    forall j, k :: 0 <= j < k < |s| ==> s[j] != s[k]
  }

  /** s is a draw of `size` fields of view, without repeats, out of a list of
      `populationSize`, together with `size` z-indexes in [0, zCount). */
  predicate ValidSample(s: IterationSample, size: int, populationSize: nat, zCount: nat) {
    && |s.fovPositions| == size
    && |s.zIndexes| == size
    && Distinct(s.fovPositions)
    && (forall j :: 0 <= j < |s.fovPositions| ==> s.fovPositions[j] < populationSize)
    && (forall j :: 0 <= j < |s.zIndexes| ==> s.zIndexes[j] < zCount)
  }

  /** The field-of-view identifiers the draw selects from `fovs`. */
  function SampledFovs(s: IterationSample, fovs: seq<int>): (r: seq<int>)
    requires forall j :: 0 <= j < |s.fovPositions| ==> s.fovPositions[j] < |fovs|
    ensures |r| == |s.fovPositions|
    ensures forall j :: 0 <= j < |r| ==> r[j] == fovs[s.fovPositions[j]]
  {
    seq(|s.fovPositions|, j requires 0 <= j < |s.fovPositions| => fovs[s.fovPositions[j]])
  }

  /** `zip(fovIndexes, zIndexes)`: the (field of view, z-index) pairs handed to the decoder. */
  function Pairs(s: IterationSample, fovs: seq<int>): (r: seq<(int, nat)>)
    requires forall j :: 0 <= j < |s.fovPositions| ==> s.fovPositions[j] < |fovs|
    requires |s.zIndexes| == |s.fovPositions|
    ensures |r| == |s.fovPositions|
    ensures forall j :: 0 <= j < |r| ==> r[j] == (fovs[s.fovPositions[j]], s.zIndexes[j])
  {
    seq(|s.fovPositions|, j requires 0 <= j < |s.fovPositions| => (fovs[s.fovPositions[j]], s.zIndexes[j]))
  }

  /** The set of positions a draw picks. */
  function Members(p: seq<nat>): set<nat> {
    set x | x in p
  }

  /** A sequence of distinct values has as many elements as its set. */
  lemma {:induction false} DistinctCardinality(p: seq<nat>)
    requires Distinct(p)
    ensures |Members(p)| == |p|
  {
    if p != [] {
      var whole, tail := Members(p), Members(p[1..]);
      DistinctCardinality(p[1..]);
      assert whole == tail + {p[0]};
      assert p[0] !in tail;
      assert |whole| == |tail| + 1;
    }
  }

  /** A set of naturals below n has at most n elements. */
  lemma {:induction false} BoundedCardinality(xs: set<nat>, n: nat)
    requires forall x :: x in xs ==> x < n
    ensures |xs| <= n
  {
    if n > 0 {
      BoundedCardinality(xs - {n - 1}, n - 1);
    } else {
      assert xs == {};
    }
  }

  /** `random.sample` cannot return a draw larger than its population, and
      `np.random.choice` cannot produce an index from an empty range: any valid draw
      has 0 <= size <= populationSize, and a non-empty one needs zCount > 0. */
  lemma SampleFitsPopulation(s: IterationSample, size: int, populationSize: nat, zCount: nat)
    requires ValidSample(s, size, populationSize, zCount)
    ensures 0 <= size <= populationSize
    ensures size > 0 ==> zCount > 0
  {
    var chosen := Members(s.fovPositions);
    DistinctCardinality(s.fovPositions);
    BoundedCardinality(chosen, populationSize);
    if size > 0 {
      assert s.zIndexes[0] < zCount;
    }
  }

  /** The draw of the first `size` positions, all at z-index 0. */
  function FirstPositions(size: nat): IterationSample {
    IterationSample(seq(size, j => j), seq(size, _ => 0))
  }

  /** Conversely, every size in [0, populationSize] can be drawn; in particular
      drawing the whole population (size == populationSize) is allowed. */
  lemma FirstPositionsValid(size: nat, populationSize: nat, zCount: nat)
    requires size <= populationSize && (size > 0 ==> zCount > 0)
    ensures ValidSample(FirstPositions(size), size, populationSize, zCount)
  {
  }

  /** When the fields of view are distinct, so are the sampled ones, and each is a field
      of view of the dataset. */
  lemma SampledFovsDistinct(s: IterationSample, size: int, fovs: seq<int>, zCount: nat)
    requires Distinct(fovs) && ValidSample(s, size, |fovs|, zCount)
    ensures Distinct(SampledFovs(s, fovs))
    ensures forall j :: 0 <= j < |s.fovPositions| ==> SampledFovs(s, fovs)[j] in fovs
  {
  }
}
