/** The `Optimize` analysis task: its parameters, the decoder's scale factors it overwrites
    on every iteration, and the two results it saves to the dataset. `RunAnalysis` fills the
    two history matrices in place, row by row, and is proved to compute `Refinement.Run`. */
module OptimizeTask {

  import opened Wrappers
  import opened Vectors
  import opened Sampling
  import opened Refinement

  const DefaultIterationCount: int := 20
  const DefaultFovPerIteration: int := 10

  /** Why reading a saved result back fails. */
  datatype LoadError =
    | NotSaved      // load_analysis_result before any result was saved
    | EmptyHistory  // `[-1,:]` on a history with no rows

  /** The rows of a matrix, as a sequence of rows. */
  function Rows(a: array2<real>): (rows: seq<seq<real>>)
    reads a
    ensures |rows| == a.Length0 && Rectangular(rows, a.Length1)
    ensures forall r, b :: 0 <= r < a.Length0 && 0 <= b < a.Length1 ==> rows[r][b] == a[r, b]
  {
    seq(a.Length0, r requires 0 <= r < a.Length0 reads a =>
      seq(a.Length1, b requires 0 <= b < a.Length1 reads a => a[r, b]))
  }

  /** `a[r,:] = row`. */
  method AssignRow(a: array2<real>, r: nat, row: seq<real>)
    requires r < a.Length0 && |row| == a.Length1
    modifies a
    ensures forall r', b :: 0 <= r' < a.Length0 && 0 <= b < a.Length1 ==>
      a[r', b] == if r' == r then row[b] else old(a[r', b])
  {
    for b := 0 to a.Length1
      invariant forall r', b' :: 0 <= r' < a.Length0 && 0 <= b' < a.Length1 ==>
        a[r', b'] == if r' == r && b' < b then row[b'] else old(a[r', b'])
    {
      a[r, b] := row[b];
    }
  }

  /** Rows 1..i-1 of `a` hold those rows of `history`, and every other row is still ones. */
  ghost predicate Filled(a: array2<real>, history: seq<seq<real>>, i: nat)
    requires i > 1 ==> |history| == a.Length0 && Rectangular(history, a.Length1)
    reads a
  {
    forall r, b :: 0 <= r < a.Length0 && 0 <= b < a.Length1 ==>
      a[r, b] == if 0 < r < i then history[r][b] else 1.0
  }

  /** Once every row is filled, the matrix is the history whose row 0 is all ones. */
  lemma FilledRows(a: array2<real>, history: seq<seq<real>>, i: nat)
    requires |history| == a.Length0 && Rectangular(history, a.Length1)
    requires a.Length0 > 0 ==> history[0] == Ones(a.Length1)
    requires Filled(a, history, i) && i >= a.Length0 && (a.Length0 > 0 ==> i == a.Length0)
    ensures Rows(a) == history
  {
    forall r | 0 <= r < a.Length0
      ensures Rows(a)[r] == history[r]
    {
    }
  }

  /** `row` is row j of `history`. */
  predicate HoldsRow(row: seq<real>, history: seq<seq<real>>, j: int) {
    0 <= j < |history| && row == history[j]
  }

  class Optimize {
    const iterationCount: int
    const fovPerIteration: int
    const bitCount: nat
    const barcodeCount: nat
    /** `dataSet.get_fovs()`. */
    const fovs: seq<int>
    /** `len(dataSet.get_z_positions())`. */
    const zPositionCount: nat
    /** `self.decoder.scaleFactors`. */
    var decoderScaleFactors: seq<real>
    /** The dataset's saved 'scale_factors' result for this analysis. */
    var savedScaleFactors: Option<seq<seq<real>>>
    /** The dataset's saved 'barcode_counts' result for this analysis. */
    var savedBarcodeCounts: Option<seq<seq<real>>>

    /** Reads `iteration_count` and `fov_per_iteration` from the parameters, with defaults
        20 and 10, and takes the bit count, barcode count, fields of view and z-position
        count from the dataset. */
    constructor (parameters: map<string, int>, bitCount: nat, barcodeCount: nat, fovs: seq<int>,
                 zPositionCount: nat, decoderScaleFactors: seq<real>)
      ensures iterationCount ==
        if "iteration_count" in parameters then parameters["iteration_count"] else DefaultIterationCount
      ensures fovPerIteration ==
        if "fov_per_iteration" in parameters then parameters["fov_per_iteration"] else DefaultFovPerIteration
      ensures this.bitCount == bitCount && this.barcodeCount == barcodeCount
      ensures this.fovs == fovs && this.zPositionCount == zPositionCount
      ensures this.decoderScaleFactors == decoderScaleFactors
      ensures savedScaleFactors == None && savedBarcodeCounts == None
    {
      iterationCount :=
        if "iteration_count" in parameters then parameters["iteration_count"] else DefaultIterationCount;
      fovPerIteration :=
        if "fov_per_iteration" in parameters then parameters["fov_per_iteration"] else DefaultFovPerIteration;
      this.bitCount := bitCount;
      this.barcodeCount := barcodeCount;
      this.fovs := fovs;
      this.zPositionCount := zPositionCount;
      this.decoderScaleFactors := decoderScaleFactors;
      savedScaleFactors := None;
      savedBarcodeCounts := None;
    }

    /** The task's configuration, as the specification functions take it. */
    function Settings(): Config {
      Config(iterationCount, fovPerIteration, bitCount, barcodeCount, fovs, zPositionCount)
    }

    /** `run_analysis`: on success both histories are saved and are those of
        `Refinement.Run`; the decoder is left holding the scale factors of the
        second-to-last row, the last ones it decoded with. When it raises, nothing has
        changed. */
    method RunAnalysis(draw: nat -> IterationSample, decode: Decoder) returns (error: Option<Error>)
      requires WellFormed(Settings(), draw, decode)
      modifies this
      ensures error.Some? <==> Run(Settings(), draw, decode).Failure?
      ensures error.Some? ==> error.value == Run(Settings(), draw, decode).error
      ensures error.Some? ==>
        && decoderScaleFactors == old(decoderScaleFactors)
        && savedScaleFactors == old(savedScaleFactors) && savedBarcodeCounts == old(savedBarcodeCounts)
      ensures error.None? ==>
        && savedScaleFactors == Some(Run(Settings(), draw, decode).value.scaleFactors)
        && savedBarcodeCounts == Some(Run(Settings(), draw, decode).value.barcodeCounts)
      ensures error.None? && iterationCount >= 2 ==>
        decoderScaleFactors == savedScaleFactors.value[iterationCount - 2]
      ensures error.None? && iterationCount < 2 ==> decoderScaleFactors == old(decoderScaleFactors)
    {
      var c := Settings();
      var n := iterationCount;
      if n < 0 {
        return Some(NegativeDimensions);
      }
      var scaleFactors := new real[n, bitCount]((_, _) => 1.0);
      var barcodeCounts := new real[n, barcodeCount]((_, _) => 1.0);
      ghost var h := if Succeeds(c) then Run(c, draw, decode).value else Histories([], []);
      var i := 1;
      ghost var decodedRow := -1;
      while i < n
        invariant 1 <= i <= n || (n == 0 && i == 1)
        invariant i > 1 ==> Succeeds(c)
        invariant i == 1 ==> decoderScaleFactors == old(decoderScaleFactors)
        invariant decodedRow == i - 2
        invariant i > 1 ==> HoldsRow(decoderScaleFactors, h.scaleFactors, decodedRow)
        invariant unchanged(this`savedScaleFactors, this`savedBarcodeCounts)
        invariant Filled(scaleFactors, h.scaleFactors, i) && Filled(barcodeCounts, h.barcodeCounts, i)
      {
        if fovPerIteration < 0 || fovPerIteration > |fovs| {
          assert i == 1;
          return Some(SampleSizeOutOfRange);
        }
        if zPositionCount == 0 {
          assert i == 1;
          return Some(EmptyZPositions);
        }
        assert Succeeds(c);
        RefineRow(draw, decode, h, i, scaleFactors, barcodeCounts);
        assert HoldsRow(decoderScaleFactors, h.scaleFactors, i - 1);
        decodedRow := i - 1;
        i := i + 1;
      }
      assert Succeeds(c);
      if n > 0 {
        RunBaseline(c, draw, decode);
      }
      FilledRows(scaleFactors, h.scaleFactors, i);
      FilledRows(barcodeCounts, h.barcodeCounts, i);
      savedScaleFactors := Some(Rows(scaleFactors));
      savedBarcodeCounts := Some(Rows(barcodeCounts));
      assert n >= 2 ==> decodedRow == iterationCount - 2;
      return None;
    }

    /** One pass of the refinement loop: hand the decoder row i-1 of the scale factors,
        decode the sampled fields of view with it, then write row i of both matrices. */
    method RefineRow(draw: nat -> IterationSample, decode: Decoder, ghost h: Histories, i: nat,
                     scaleFactors: array2<real>, barcodeCounts: array2<real>)
      requires WellFormed(Settings(), draw, decode) && Run(Settings(), draw, decode) == Success(h)
      requires 1 <= i < iterationCount
      requires scaleFactors.Length0 == iterationCount && scaleFactors.Length1 == bitCount
      requires barcodeCounts.Length0 == iterationCount && barcodeCounts.Length1 == barcodeCount
      requires scaleFactors != barcodeCounts
      requires Filled(scaleFactors, h.scaleFactors, i) && Filled(barcodeCounts, h.barcodeCounts, i)
      modifies this, scaleFactors, barcodeCounts
      ensures HoldsRow(decoderScaleFactors, h.scaleFactors, i - 1)
      ensures unchanged(this`savedScaleFactors, this`savedBarcodeCounts)
      ensures Filled(scaleFactors, h.scaleFactors, i + 1) && Filled(barcodeCounts, h.barcodeCounts, i + 1)
    {
      var c := Settings();
      RunBaseline(c, draw, decode);
      RunRecurrence(c, draw, decode, i);
      decoderScaleFactors := Rows(scaleFactors)[i - 1];
      assert decoderScaleFactors == h.scaleFactors[i - 1];
      var results := Evaluate(c, draw(i), decoderScaleFactors, decode);
      var next := NextScaleFactors(decoderScaleFactors, results);
      var counts := CountSnapshot(results, barcodeCount);
      AssignRow(scaleFactors, i, next);
      AssignRow(barcodeCounts, i, counts);
    }

    /** `get_scale_factor_history`: the saved scale-factor matrix. */
    function GetScaleFactorHistory(): (r: Result<seq<seq<real>>, LoadError>)
      reads this
      ensures r.Success? <==> savedScaleFactors.Some?
      ensures r.Success? ==> r.value == savedScaleFactors.value
      ensures r.Failure? ==> r.error == NotSaved
    {
      match savedScaleFactors
      case None => Failure(NotSaved)
      case Some(history) => Success(history)
    }

    /** `get_barcode_count_history`: the saved barcode-count matrix. */
    function GetBarcodeCountHistory(): (r: Result<seq<seq<real>>, LoadError>)
      reads this
      ensures r.Success? <==> savedBarcodeCounts.Some?
      ensures r.Success? ==> r.value == savedBarcodeCounts.value
      ensures r.Failure? ==> r.error == NotSaved
    {
      match savedBarcodeCounts
      case None => Failure(NotSaved)
      case Some(history) => Success(history)
    }

    /** `get_scale_factors`: the last row of the matrix `get_scale_factor_history` returns. */
    function GetScaleFactors(): (r: Result<seq<real>, LoadError>)
      reads this
      ensures r.Success? <==> GetScaleFactorHistory().Success? && |GetScaleFactorHistory().value| > 0
      ensures r.Success? ==> r.value == GetScaleFactorHistory().value[|GetScaleFactorHistory().value| - 1]
      ensures GetScaleFactorHistory().Failure? ==> r == Failure(NotSaved)
      ensures GetScaleFactorHistory().Success? && |GetScaleFactorHistory().value| == 0 ==> r == Failure(EmptyHistory)
    {
      match savedScaleFactors
      case None => Failure(NotSaved)
      case Some(history) =>
        if |history| == 0 then Failure(EmptyHistory) else Success(history[|history| - 1])
    }

    /** After a successful run, `get_scale_factors` gives the last row of the history: all
        ones for a single iteration, and an index error for zero iterations. */
    lemma FinalScaleFactors(draw: nat -> IterationSample, decode: Decoder)
      requires WellFormed(Settings(), draw, decode) && Run(Settings(), draw, decode).Success?
      requires savedScaleFactors == Some(Run(Settings(), draw, decode).value.scaleFactors)
      ensures iterationCount == 0 ==> GetScaleFactors() == Failure(EmptyHistory)
      ensures iterationCount >= 1 ==>
        GetScaleFactors() == Success(ScaleFactorRow(Settings(), draw, decode, iterationCount - 1))
      ensures iterationCount == 1 ==> GetScaleFactors() == Success(Ones(bitCount))
    {
    }
  }
}
