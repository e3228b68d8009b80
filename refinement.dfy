/** The scale-factor refinement performed by `Optimize.run_analysis`, as a function of the
    configuration, the random draws and the decoder. Row 0 of both histories is a baseline
    of ones; row i (1 <= i < iterationCount) is computed from iteration i's decoder results,
    which are obtained with row i-1 of the scale factors. */
module Refinement {

  import opened Wrappers
  import opened Sequences
  import opened Vectors
  import opened Sampling

  /** What `extract_refactors` returns for one (field of view, z-plane): a refactor
      multiplier per bit and an observed count per barcode. */
  datatype RefactorResult = RefactorResult(multipliers: seq<real>, counts: seq<real>)

  /** `get_processed_image_set(fov, zIndex)` followed by `extract_refactors(images)` with the
      decoder's current scale factors: (field of view, z-index, scale factors) to result. */
  type Decoder = (int, nat, seq<real>) -> RefactorResult

  /** The task's parameters and what it reads from the dataset: `iteration_count`,
      `fov_per_iteration`, the number of bits and of barcodes, the list of fields of view
      and the number of z-positions. */
  datatype Config = Config(
    iterationCount: int,
    fovPerIteration: int,
    bitCount: nat,
    barcodeCount: nat,
    fovs: seq<int>,
    zPositionCount: nat)

  /** The exceptions `run_analysis` can raise on its own account. */
  datatype Error =
    | NegativeDimensions    // np.ones with a negative iteration count
    | SampleSizeOutOfRange  // random.sample: sample larger than population or negative
    | EmptyZPositions       // np.random.choice on an empty range of z-indexes

  /** The two matrices saved under 'scale_factors' and 'barcode_counts'. */
  datatype Histories = Histories(scaleFactors: seq<seq<real>>, barcodeCounts: seq<seq<real>>)

  /** The decoder returns B multipliers and K counts, whatever it is given. */
  ghost predicate DecoderShaped(decode: Decoder, bitCount: nat, barcodeCount: nat) {
    forall fov: int, z: nat, sf: seq<real> ::
      |decode(fov, z, sf).multipliers| == bitCount && |decode(fov, z, sf).counts| == barcodeCount
  }

  /** The decoder returns strictly positive multipliers whenever it is given strictly
      positive scale factors. */
  ghost predicate DecoderPositive(decode: Decoder) {
    forall fov: int, z: nat, sf: seq<real> ::
      AllPositive(sf) ==> AllPositive(decode(fov, z, sf).multipliers)
  }

  /** The exception a run raises, if any: np.ones fails on a negative row count before the
      loop; inside the loop (entered only when iterationCount >= 2) random.sample fails
      first, then np.random.choice. */
  function RunError(c: Config): Option<Error> {
    if c.iterationCount < 0 then Some(NegativeDimensions)
    else if c.iterationCount < 2 then None
    else if c.fovPerIteration < 0 || c.fovPerIteration > |c.fovs| then Some(SampleSizeOutOfRange)
    else if c.zPositionCount == 0 then Some(EmptyZPositions)
    else None
  }

  predicate Succeeds(c: Config) {
    RunError(c).None?
  }

  /** Every iteration 1 <= i < iterationCount draws a valid sample. */
  predicate DrawsValid(c: Config, draw: nat -> IterationSample) {
    forall i: nat :: 1 <= i < c.iterationCount ==>
      ValidSample(draw(i), c.fovPerIteration, |c.fovs|, c.zPositionCount)
  }

  /** What the model assumes of its inputs: a non-empty sample size whenever the loop runs
      (an empty one makes numpy's mean nan), a decoder of the right shape, and draws that
      are valid whenever sampling does not raise. */
  ghost predicate WellFormed(c: Config, draw: nat -> IterationSample, decode: Decoder) {
    && (c.iterationCount >= 2 ==> c.fovPerIteration != 0)
    && DecoderShaped(decode, c.bitCount, c.barcodeCount)
    && (Succeeds(c) ==> DrawsValid(c, draw))
  }

  function MultipliersOf(r: RefactorResult): seq<real> {
    r.multipliers
  }

  function CountsOf(r: RefactorResult): seq<real> {
    r.counts
  }

  /** `[x[0] for x in r]`: the multiplier vectors, one per result, in result order. */
  function Multipliers(results: seq<RefactorResult>): (rows: seq<seq<real>>)
    ensures |rows| == |results|
    ensures forall k :: 0 <= k < |rows| ==> rows[k] == results[k].multipliers
  {
    Map(results, MultipliersOf)
  }

  /** `[x[1] for x in r]`: the count vectors, one per result, in result order. */
  function Counts(results: seq<RefactorResult>): (rows: seq<seq<real>>)
    ensures |rows| == |results|
    ensures forall k :: 0 <= k < |rows| ==> rows[k] == results[k].counts
  {
    Map(results, CountsOf)
  }

  function DecodeWith(decode: Decoder, scaleFactors: seq<real>): ((int, nat)) -> RefactorResult {
    (pair: (int, nat)) => decode(pair.0, pair.1, scaleFactors)
  }

  /** Every result has B multipliers and K counts. */
  predicate ResultsShaped(results: seq<RefactorResult>, bitCount: nat, barcodeCount: nat) {
    forall k :: 0 <= k < |results| ==>
      |results[k].multipliers| == bitCount && |results[k].counts| == barcodeCount
  }

  /** The results `pool.starmap` collects: the decoder applied to each sampled
      (field of view, z-index) pair with the given scale factors. */
  function Evaluate(c: Config, s: IterationSample, scaleFactors: seq<real>, decode: Decoder): (results: seq<RefactorResult>)
    requires ValidSample(s, c.fovPerIteration, |c.fovs|, c.zPositionCount)
    ensures |results| == |s.fovPositions|
    ensures forall j :: 0 <= j < |results| ==>
      results[j] == decode(c.fovs[s.fovPositions[j]], s.zIndexes[j], scaleFactors)
  {
    Map(Pairs(s, c.fovs), DecodeWith(decode, scaleFactors))
  }

  /** A shaped decoder gives B multipliers and K counts for every sampled pair. */
  lemma EvaluateShaped(c: Config, s: IterationSample, scaleFactors: seq<real>, decode: Decoder)
    requires ValidSample(s, c.fovPerIteration, |c.fovs|, c.zPositionCount)
    requires DecoderShaped(decode, c.bitCount, c.barcodeCount)
    ensures forall k :: 0 <= k < |Evaluate(c, s, scaleFactors, decode)| ==>
      && |Evaluate(c, s, scaleFactors, decode)[k].multipliers| == c.bitCount
      && |Evaluate(c, s, scaleFactors, decode)[k].counts| == c.barcodeCount
  {
    var results := Evaluate(c, s, scaleFactors, decode);
    forall k | 0 <= k < |results|
      ensures |results[k].multipliers| == c.bitCount && |results[k].counts| == c.barcodeCount
    {
      var fov, z := c.fovs[s.fovPositions[k]], s.zIndexes[k];
      assert results[k] == decode(fov, z, scaleFactors);
      assert |decode(fov, z, scaleFactors).multipliers| == c.bitCount;
    }
  }

  /** `scaleFactors[i-1,:] * np.mean([x[0] for x in r], axis=0)`: each bit's previous scale
      factor times the mean of that bit's multipliers. */
  function NextScaleFactors(previous: seq<real>, results: seq<RefactorResult>): (next: seq<real>)
    requires |results| > 0
    requires forall k :: 0 <= k < |results| ==> |results[k].multipliers| == |previous|
    ensures |next| == |previous|
    ensures forall b :: 0 <= b < |next| ==>
      next[b] == previous[b] * (ColumnSum(Multipliers(results), b) / (|results| as real))
  {
    Product(previous, Mean(Multipliers(results), |previous|))
  }

  /** `np.mean([x[1] for x in r], axis=0)`: the mean count of each barcode. */
  function CountSnapshot(results: seq<RefactorResult>, barcodeCount: nat): (counts: seq<real>)
    requires |results| > 0
    requires forall k :: 0 <= k < |results| ==> |results[k].counts| == barcodeCount
    ensures |counts| == barcodeCount
    ensures forall j :: 0 <= j < barcodeCount ==>
      counts[j] == ColumnSum(Counts(results), j) / (|results| as real)
  {
    Mean(Counts(results), barcodeCount)
  }

  /** Row i of the scale-factor history. */
  function ScaleFactorRow(c: Config, draw: nat -> IterationSample, decode: Decoder, i: nat): (row: seq<real>)
    requires WellFormed(c, draw, decode) && Succeeds(c) && i < c.iterationCount
    ensures |row| == c.bitCount
    decreases i
  {
    if i == 0 then Ones(c.bitCount)
    else
      var previous := ScaleFactorRow(c, draw, decode, i - 1);
      EvaluateShaped(c, draw(i), previous, decode);
      NextScaleFactors(previous, Evaluate(c, draw(i), previous, decode))
  }

  /** Row i of the barcode-count history. */
  function BarcodeCountRow(c: Config, draw: nat -> IterationSample, decode: Decoder, i: nat): (row: seq<real>)
    requires WellFormed(c, draw, decode) && Succeeds(c) && i < c.iterationCount
    ensures |row| == c.barcodeCount
  {
    if i == 0 then Ones(c.barcodeCount)
    else
      var previous := ScaleFactorRow(c, draw, decode, i - 1);
      EvaluateShaped(c, draw(i), previous, decode);
      CountSnapshot(Evaluate(c, draw(i), previous, decode), c.barcodeCount)
  }

  /** The outcome of `run_analysis`: the histories it saves, or the exception it raises. */
  function Run(c: Config, draw: nat -> IterationSample, decode: Decoder): (r: Result<Histories, Error>)
    requires WellFormed(c, draw, decode)
    ensures r.Success? ==>
      && |r.value.scaleFactors| == c.iterationCount
      && Rectangular(r.value.scaleFactors, c.bitCount)
      && |r.value.barcodeCounts| == c.iterationCount
      && Rectangular(r.value.barcodeCounts, c.barcodeCount)
  {
    match RunError(c)
    case Some(e) => Failure(e)
    case None =>
      Success(Histories(
        seq(c.iterationCount, i requires 0 <= i < c.iterationCount => ScaleFactorRow(c, draw, decode, i)),
        seq(c.iterationCount, i requires 0 <= i < c.iterationCount => BarcodeCountRow(c, draw, decode, i))))
  }

  /** Which exception a run raises, case by case; with fewer than two iterations the
      loop body never runs, so nothing is sampled and nothing can fail. */
  lemma RunOutcome(c: Config, draw: nat -> IterationSample, decode: Decoder)
    requires WellFormed(c, draw, decode)
    ensures c.iterationCount < 0 ==> Run(c, draw, decode) == Failure(NegativeDimensions)
    ensures 0 <= c.iterationCount < 2 ==> Run(c, draw, decode).Success?
    ensures c.iterationCount >= 2 && (c.fovPerIteration < 0 || c.fovPerIteration > |c.fovs|) ==>
      Run(c, draw, decode) == Failure(SampleSizeOutOfRange)
    ensures c.iterationCount >= 2 && 0 < c.fovPerIteration <= |c.fovs| && c.zPositionCount == 0 ==>
      Run(c, draw, decode) == Failure(EmptyZPositions)
    ensures c.iterationCount >= 2 && 0 < c.fovPerIteration <= |c.fovs| && c.zPositionCount > 0 ==>
      Run(c, draw, decode).Success?
  {
  }

  /** Sampling raises exactly when no valid draw exists: a run with a non-negative
      iteration count succeeds whenever some valid draw exists, and a successful run with
      at least two iterations admits a valid draw (drawing all fields of view included). */
  lemma RunSucceedsIffDrawExists(c: Config, draw: nat -> IterationSample, decode: Decoder)
    requires WellFormed(c, draw, decode)
    ensures forall s :: c.iterationCount >= 0 && ValidSample(s, c.fovPerIteration, |c.fovs|, c.zPositionCount) ==>
      Run(c, draw, decode).Success?
    ensures Run(c, draw, decode).Success? && c.iterationCount >= 2 ==>
      && c.fovPerIteration >= 0
      && ValidSample(FirstPositions(c.fovPerIteration), c.fovPerIteration, |c.fovs|, c.zPositionCount)
  {
    forall s | c.iterationCount >= 0 && ValidSample(s, c.fovPerIteration, |c.fovs|, c.zPositionCount)
      ensures Run(c, draw, decode).Success?
    {
      SampleFitsPopulation(s, c.fovPerIteration, |c.fovs|, c.zPositionCount);
    }
    if Run(c, draw, decode).Success? && c.iterationCount >= 2 {
      FirstPositionsValid(c.fovPerIteration, |c.fovs|, c.zPositionCount);
    }
  }

  /** Row 0 of both histories is the all-ones baseline; with a single iteration that row
      is all there is. */
  lemma RunBaseline(c: Config, draw: nat -> IterationSample, decode: Decoder)
    requires WellFormed(c, draw, decode) && Run(c, draw, decode).Success? && c.iterationCount >= 1
    ensures Run(c, draw, decode).value.scaleFactors[0] == Ones(c.bitCount)
    ensures Run(c, draw, decode).value.barcodeCounts[0] == Ones(c.barcodeCount)
    ensures c.iterationCount == 1 ==>
      Run(c, draw, decode).value == Histories([Ones(c.bitCount)], [Ones(c.barcodeCount)])
  {
  }

  /** Iteration i decodes every sampled pair with row i-1 of the scale factors; row i of the
      scale factors is row i-1 times the mean multiplier, bit by bit (the contract of
      NextScaleFactors); row i of the barcode counts is the mean count of iteration i's
      results alone (the contract of CountSnapshot). */
  lemma RunRecurrence(c: Config, draw: nat -> IterationSample, decode: Decoder, i: nat)
    requires WellFormed(c, draw, decode) && Run(c, draw, decode).Success?
    requires 1 <= i < c.iterationCount
    ensures
      var h := Run(c, draw, decode).value;
      var results := Evaluate(c, draw(i), h.scaleFactors[i - 1], decode);
      && |results| == c.fovPerIteration
      && (forall j :: 0 <= j < |results| ==>
            results[j] == decode(c.fovs[draw(i).fovPositions[j]], draw(i).zIndexes[j], h.scaleFactors[i - 1]))
      && ResultsShaped(results, c.bitCount, c.barcodeCount)
      && h.scaleFactors[i] == NextScaleFactors(h.scaleFactors[i - 1], results)
      && h.barcodeCounts[i] == CountSnapshot(results, c.barcodeCount)
  {
    var h := Run(c, draw, decode).value;
    var previous := ScaleFactorRow(c, draw, decode, i - 1);
    assert h.scaleFactors[i - 1] == previous;
    EvaluateShaped(c, draw(i), previous, decode);
    assert h.scaleFactors[i] == ScaleFactorRow(c, draw, decode, i);
    assert h.barcodeCounts[i] == BarcodeCountRow(c, draw, decode, i);
  }

  lemma EvaluatePositive(c: Config, s: IterationSample, scaleFactors: seq<real>, decode: Decoder)
    requires ValidSample(s, c.fovPerIteration, |c.fovs|, c.zPositionCount)
    requires DecoderPositive(decode) && AllPositive(scaleFactors)
    ensures forall k :: 0 <= k < |s.fovPositions| ==> AllPositive(Multipliers(Evaluate(c, s, scaleFactors, decode))[k])
  {
    var results := Evaluate(c, s, scaleFactors, decode);
    forall k | 0 <= k < |results| ensures AllPositive(Multipliers(results)[k]) {
      var fov, z := c.fovs[s.fovPositions[k]], s.zIndexes[k];
      assert Multipliers(results)[k] == decode(fov, z, scaleFactors).multipliers;
    }
  }

  lemma {:induction false} ScaleFactorRowPositive(c: Config, draw: nat -> IterationSample, decode: Decoder, i: nat)
    requires WellFormed(c, draw, decode) && Succeeds(c) && i < c.iterationCount
    requires DecoderPositive(decode)
    ensures AllPositive(ScaleFactorRow(c, draw, decode, i))
    decreases i
  {
    if i > 0 {
      var previous := ScaleFactorRow(c, draw, decode, i - 1);
      ScaleFactorRowPositive(c, draw, decode, i - 1);
      var results := Evaluate(c, draw(i), previous, decode);
      EvaluateShaped(c, draw(i), previous, decode);
      EvaluatePositive(c, draw(i), previous, decode);
      MeanPositive(Multipliers(results), c.bitCount);
      ProductPositive(previous, Mean(Multipliers(results), c.bitCount));
      assert ScaleFactorRow(c, draw, decode, i) == Product(previous, Mean(Multipliers(results), c.bitCount));
    }
  }

  /** With a decoder that keeps multipliers strictly positive, every scale factor of every
      iteration is strictly positive. */
  lemma RunPositive(c: Config, draw: nat -> IterationSample, decode: Decoder)
    requires WellFormed(c, draw, decode) && DecoderPositive(decode) && Run(c, draw, decode).Success?
    ensures forall i :: 0 <= i < c.iterationCount ==> AllPositive(Run(c, draw, decode).value.scaleFactors[i])
  {
    forall i | 0 <= i < c.iterationCount ensures AllPositive(Run(c, draw, decode).value.scaleFactors[i]) {
      ScaleFactorRowPositive(c, draw, decode, i);
    }
  }

  /** One iteration's update does not depend on the order in which the worker pool
      returns its results. */
  lemma StepOrderIndependent(previous: seq<real>, results: seq<RefactorResult>, results': seq<RefactorResult>, barcodeCount: nat)
    requires |results| > 0 && ResultsShaped(results, |previous|, barcodeCount)
    requires multiset(results) == multiset(results')
    ensures |results'| == |results| && ResultsShaped(results', |previous|, barcodeCount)
    ensures NextScaleFactors(previous, results) == NextScaleFactors(previous, results')
    ensures CountSnapshot(results, barcodeCount) == CountSnapshot(results', barcodeCount)
  {
    assert |results'| == |multiset(results')| == |multiset(results)| == |results|;
    forall k | 0 <= k < |results'|
      ensures |results'[k].multipliers| == |previous| && |results'[k].counts| == barcodeCount
    {
      assert results'[k] in multiset(results);
    }
    MapPermutation(results, results', MultipliersOf);
    MapPermutation(results, results', CountsOf);
    MeanPermutation(Multipliers(results), Multipliers(results'), |previous|);
    MeanPermutation(Counts(results), Counts(results'), barcodeCount);
  }

  /** Reordering a draw's pairs reorders the decoder results. */
  lemma EvaluatePermutation(c: Config, s: IterationSample, s': IterationSample, scaleFactors: seq<real>, decode: Decoder)
    requires ValidSample(s, c.fovPerIteration, |c.fovs|, c.zPositionCount)
    requires ValidSample(s', c.fovPerIteration, |c.fovs|, c.zPositionCount)
    requires multiset(Pairs(s, c.fovs)) == multiset(Pairs(s', c.fovs))
    ensures multiset(Evaluate(c, s, scaleFactors, decode)) == multiset(Evaluate(c, s', scaleFactors, decode))
  {
    MapPermutation(Pairs(s, c.fovs), Pairs(s', c.fovs), DecodeWith(decode, scaleFactors));
  }

  /** Every iteration of draw' draws the same (field of view, z-index) pairs as draw, in
      some order. */
  ghost predicate ReorderedDraws(c: Config, draw: nat -> IterationSample, draw': nat -> IterationSample)
    requires DrawsValid(c, draw) && DrawsValid(c, draw')
  {
    forall k: nat :: 1 <= k < c.iterationCount ==>
      multiset(Pairs(draw(k), c.fovs)) == multiset(Pairs(draw'(k), c.fovs))
  }

  /** One iteration of two runs whose draws agree up to order: when they start from the same
      row i-1 they produce the same row i. */
  lemma RowOrderIndependent(c: Config, draw: nat -> IterationSample, draw': nat -> IterationSample, decode: Decoder, i: nat)
    requires WellFormed(c, draw, decode) && WellFormed(c, draw', decode) && Succeeds(c)
    requires 1 <= i < c.iterationCount
    requires ReorderedDraws(c, draw, draw')
    requires ScaleFactorRow(c, draw, decode, i - 1) == ScaleFactorRow(c, draw', decode, i - 1)
    ensures ScaleFactorRow(c, draw, decode, i) == ScaleFactorRow(c, draw', decode, i)
    ensures BarcodeCountRow(c, draw, decode, i) == BarcodeCountRow(c, draw', decode, i)
  {
    var previous := ScaleFactorRow(c, draw, decode, i - 1);
    var results := Evaluate(c, draw(i), previous, decode);
    var results' := Evaluate(c, draw'(i), previous, decode);
    EvaluatePermutation(c, draw(i), draw'(i), previous, decode);
    EvaluateShaped(c, draw(i), previous, decode);
    StepOrderIndependent(previous, results, results', c.barcodeCount);
  }

  lemma {:induction false} RowsOrderIndependent(c: Config, draw: nat -> IterationSample, draw': nat -> IterationSample, decode: Decoder, i: nat)
    requires WellFormed(c, draw, decode) && WellFormed(c, draw', decode) && Succeeds(c)
    requires ReorderedDraws(c, draw, draw')
    requires i < c.iterationCount
    ensures ScaleFactorRow(c, draw, decode, i) == ScaleFactorRow(c, draw', decode, i)
    ensures BarcodeCountRow(c, draw, decode, i) == BarcodeCountRow(c, draw', decode, i)
    decreases i
  {
    if i > 0 {
      RowsOrderIndependent(c, draw, draw', decode, i - 1);
      RowOrderIndependent(c, draw, draw', decode, i);
    }
  }

  /** Reordering the (field of view, z-index) pairs of any iteration's draw leaves both
      histories unchanged. */
  lemma RunOrderIndependent(c: Config, draw: nat -> IterationSample, draw': nat -> IterationSample, decode: Decoder)
    requires WellFormed(c, draw, decode) && WellFormed(c, draw', decode)
    requires Succeeds(c) ==> ReorderedDraws(c, draw, draw')
    ensures Run(c, draw, decode) == Run(c, draw', decode)
  {
    if Succeeds(c) {
      forall i | 0 <= i < c.iterationCount
        ensures ScaleFactorRow(c, draw, decode, i) == ScaleFactorRow(c, draw', decode, i)
        ensures BarcodeCountRow(c, draw, decode, i) == BarcodeCountRow(c, draw', decode, i)
      {
        RowsOrderIndependent(c, draw, draw', decode, i);
      }
      var h, h' := Run(c, draw, decode).value, Run(c, draw', decode).value;
      assert h.scaleFactors == h'.scaleFactors;
      assert h.barcodeCounts == h'.barcodeCounts;
    }
  }

  /** Two iterations with B = 2 bits and K = 1 barcode and two results each: multipliers
      [2, 1] and [4, 1] average to [3, 1] and counts [10] and [20] to [15]; from [3, 1],
      multipliers [0.5, 1] and [1.5, 1] average to [1, 1] and leave [3, 1] unchanged. */
  lemma TwoIterationScenario()
    ensures NextScaleFactors([1.0, 1.0], [RefactorResult([2.0, 1.0], [10.0]), RefactorResult([4.0, 1.0], [20.0])]) == [3.0, 1.0]
    ensures CountSnapshot([RefactorResult([2.0, 1.0], [10.0]), RefactorResult([4.0, 1.0], [20.0])], 1) == [15.0]
    ensures NextScaleFactors([3.0, 1.0], [RefactorResult([0.5, 1.0], [10.0]), RefactorResult([1.5, 1.0], [20.0])]) == [3.0, 1.0]
  {
    var first := [RefactorResult([2.0, 1.0], [10.0]), RefactorResult([4.0, 1.0], [20.0])];
    var second := [RefactorResult([0.5, 1.0], [10.0]), RefactorResult([1.5, 1.0], [20.0])];
    assert Multipliers(first) == [[2.0, 1.0], [4.0, 1.0]];
    assert Counts(first) == [[10.0], [20.0]];
    assert Multipliers(second) == [[0.5, 1.0], [1.5, 1.0]];
    assert ColumnSum([[2.0, 1.0], [4.0, 1.0]], 0) == 6.0;
    assert ColumnSum([[2.0, 1.0], [4.0, 1.0]], 1) == 2.0;
    assert ColumnSum([[10.0], [20.0]], 0) == 30.0;
    assert ColumnSum([[0.5, 1.0], [1.5, 1.0]], 0) == 2.0;
    assert ColumnSum([[0.5, 1.0], [1.5, 1.0]], 1) == 2.0;
  }
}
