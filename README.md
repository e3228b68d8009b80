# MERlin `Optimize`: scale-factor refinement

This project models MERlin's `Optimize` analysis task (`merlin/analysis/optimize.py`). The task tunes
the per-bit scale factors of the pixel-based barcode decoder.

How a run works:

- Row 0 of the scale-factor matrix is all ones.
- Each later iteration `i` samples `fov_per_iteration` distinct fields of view, and a z-index for each.
- It hands the decoder row `i-1` of the scale factors.
- It decodes every sampled (field of view, z-index) pair. Each decode gives a vector of per-bit
  multipliers and a vector of per-barcode counts.
- Row `i` of the scale factors is row `i-1` times the mean multiplier, bit by bit.
- Row `i` of the barcode-count matrix is the mean of iteration `i`'s counts.
- Both matrices are saved to the dataset. Three accessors read them back: the final scale factors,
  the scale-factor history and the barcode-count history.

The project has these modules:

- `Wrappers`: `Option` and `Result`.
- `Sequences`: mapping a function over a sequence, and the fact that a map commutes with permutation.
- `Vectors`: the numpy operations the task uses, on `real` vectors. These are `np.ones`, elementwise
  product and the column mean (`np.mean(..., axis=0)`).
- `Sampling`: a draw for one iteration, as positions into the field-of-view list plus z-indexes, and
  what makes a draw valid. This is everything `random.sample` and `np.random.choice` guarantee.
- `Refinement`: the specification of a whole run.
  - `Run` gives both histories, or the exception the run raises.
  - Beside it are lemmas on baseline, recurrence, positivity, order independence and error cases.
- `OptimizeTask`: the task as a class.
  - `RunAnalysis` fills two `array2<real>` matrices in place with a `while` loop and is proved to
    save exactly what `Refinement.Run` describes.
  - It leaves the decoder holding the scale factors it last decoded with.
  - The accessors read the saved results back.

The run's random draws and the decoder are inputs of the model. `draw(i)` is iteration `i`'s sample.
`decode(fov, z, scaleFactors)` is the decoder's `extract_refactors` applied to the processed image of
that field of view and z-index.

The code does not check `iteration_count`:

- 0 iterations saves two empty matrices;
- a negative count makes `np.ones` raise;
- with 1 iteration nothing is sampled, so even an impossible sample size raises nothing.

Where the documented behaviour and the code differ, the model follows the code. The docstring of
`get_scale_factor_history` (`merlin/analysis/optimize.py:84-86`) calls entry i,j the scale factor
of bit i in iteration j. The matrix the code builds (lines 48 and 61) is indexed by iteration
first and bit second, and so is the model's history: `scaleFactors[i][b]` is bit b in iteration i.

## Model

| member | source | states |
|---|---|---|
| Refinement.Run | merlin/analysis/optimize.py:46-68 | When a run succeeds, it returns iteration_count rows of bit_count scale factors and iteration_count rows of barcode_count counts. |
| Refinement.RunOutcome | merlin/analysis/optimize.py:47-56 | A negative iteration count raises in `np.ones`. With 0 or 1 iterations the run always succeeds. With 2 or more, a sample size outside [0, number of fields of view] makes `random.sample` raise. Otherwise no z positions makes `np.random.choice` raise, and all else succeeds. |
| Refinement.RunSucceedsIffDrawExists | merlin/analysis/optimize.py:52-56 | A run with a non-negative iteration count succeeds whenever a valid draw exists. A successful run of two or more iterations always admits a valid draw. |
| Refinement.RunBaseline | merlin/analysis/optimize.py:47-51 | Row 0 of both histories is all ones. With iteration_count = 1 the histories are exactly one row of ones each. |
| Refinement.RunError | merlin/analysis/optimize.py:48-56 | The exception a run raises, if any: `np.ones` on a negative count first; the loop body runs only with two or more iterations, where `random.sample` is checked before `np.random.choice`. RunOutcome states each case. |
| Refinement.ScaleFactorRow | merlin/analysis/optimize.py:48-62 | Row i of the scale-factor history always has bit_count entries. Its recursive definition relies on that length for row i-1, where the multipliers are combined with it. |
| Refinement.BarcodeCountRow | merlin/analysis/optimize.py:49-63 | Row i of the barcode-count history always has barcode_count entries: ones at row 0, iteration i's mean counts after that. |
| Sampling.ValidSample | merlin/analysis/optimize.py:52-56 | The draws `random.sample` and `np.random.choice` can return: fov_per_iteration distinct positions in the field-of-view list, and as many z-indexes below the number of z positions. |
| Sampling.Pairs | merlin/analysis/optimize.py:58-60 | `zip(fovIndexes, zIndexes)`: one pair per sampled field of view, in draw order, pairing the j-th sampled field of view with the j-th z-index. |
| Refinement.Multipliers | merlin/analysis/optimize.py:62 | `[x[0] for x in r]`: one multiplier vector per result, in result order, the k-th being result k's multipliers. |
| Refinement.Counts | merlin/analysis/optimize.py:63 | `[x[1] for x in r]`: one count vector per result, in result order, the k-th being result k's counts. |
| Vectors.Product | merlin/analysis/optimize.py:61-62 | The elementwise `*` of two equal-length vectors: same length, entry j the product of the two entries j. |
| Refinement.Evaluate | merlin/analysis/optimize.py:57-60 | The results are one per sampled pair, in draw order. Result j is the decoder applied to field of view `fovs[positions[j]]` at z-index `z[j]` with the given scale factors. |
| Refinement.NextScaleFactors | merlin/analysis/optimize.py:61-62 | For each bit b, the next scale factor is the previous one times the mean over the iteration's results of multiplier b. |
| Refinement.CountSnapshot | merlin/analysis/optimize.py:63 | For each barcode j, the snapshot is the mean over the iteration's results of count j. No earlier iteration contributes. |
| Refinement.RunRecurrence | merlin/analysis/optimize.py:56-63 | Iteration i decodes exactly its sampled pairs with row i-1 of the scale factors, giving fov_per_iteration well-shaped results. Row i of the scale factors is the NextScaleFactors of row i-1 and those results. Row i of the counts is their CountSnapshot. |
| Refinement.ScaleFactorRowPositive | merlin/analysis/optimize.py:47-62 | If the decoder returns positive multipliers whenever its scale factors are positive, then every row of the scale-factor history is positive. |
| Refinement.RunPositive | merlin/analysis/optimize.py:47-62 | Under that decoder condition, every row of a successful run's scale-factor history is positive. |
| Refinement.EvaluatePermutation | merlin/analysis/optimize.py:57-60 | Two draws with the same multiset of (field of view, z-index) pairs give the same multiset of decoder results. |
| Refinement.StepOrderIndependent | merlin/analysis/optimize.py:61-63 | Reordering an iteration's results changes neither the next scale factors nor the count snapshot. |
| Refinement.RowOrderIndependent | merlin/analysis/optimize.py:56-63 | Two runs whose iteration-i draws agree up to order, and which start from the same row i-1, produce the same row i of both histories. |
| Refinement.RowsOrderIndependent | merlin/analysis/optimize.py:51-63 | If every iteration's draws agree up to order, every row of both histories is the same. |
| Refinement.RunOrderIndependent | merlin/analysis/optimize.py:51-68 | Reordering the pairs drawn in any iteration leaves the whole outcome of the run unchanged. |
| Refinement.TwoIterationScenario | merlin/analysis/optimize.py:61-63 | A worked case with two bits and one barcode. Multipliers [2,1] and [4,1] turn [1,1] into [3,1], and counts 10 and 20 give 15. Multipliers [0.5,1] and [1.5,1] then leave [3,1] unchanged. |
| Sampling.SampleFitsPopulation | merlin/analysis/optimize.py:52-56 | A valid draw of size k from N fields of view with Z z-positions can exist only if 0 <= k <= N and, when k > 0, Z > 0. |
| Sampling.FirstPositionsValid | merlin/analysis/optimize.py:52-56 | When 0 <= k <= N and, for k > 0, Z > 0, a valid draw of size k exists. |
| Sampling.DistinctCardinality | merlin/analysis/optimize.py:52-53 | k distinct positions form a set of k elements. |
| Sampling.BoundedCardinality | merlin/analysis/optimize.py:52-53 | A set of naturals below N has at most N elements. |
| Sampling.SampledFovsDistinct | merlin/analysis/optimize.py:52-53 | Drawing from a list of distinct fields of view yields distinct fields of view, each one from the list. |
| Vectors.Ones | merlin/analysis/optimize.py:47-49 | `np.ones(n)` has n entries, all equal to 1 and hence positive. |
| Vectors.Mean | merlin/analysis/optimize.py:61-63 | The column mean of a non-empty rectangular matrix has width entries; entry j is the column-j sum divided by the number of rows. |
| Vectors.ColumnSumPermutation | merlin/analysis/optimize.py:61-63 | Permuting the rows of a matrix leaves every column sum unchanged. |
| Vectors.MeanPermutation | merlin/analysis/optimize.py:61-63 | Permuting the rows of a matrix leaves its column mean unchanged. |
| Vectors.ColumnSumPositive | merlin/analysis/optimize.py:61-62 | A non-empty matrix of positive entries has positive column sums. |
| Vectors.MeanPositive | merlin/analysis/optimize.py:61-62 | A non-empty matrix of positive entries has a positive column mean. |
| Vectors.ProductPositive | merlin/analysis/optimize.py:61-62 | The product of two positive vectors is positive. |
| Sequences.MapPermutation | merlin/analysis/optimize.py:57-60 | Mapping a function over two permutations of one sequence gives permutations of one another. |
| OptimizeTask.Optimize.constructor | merlin/analysis/optimize.py:23-30 | iteration_count and fov_per_iteration come from the parameters, with defaults 20 and 10. Nothing is saved yet. |
| OptimizeTask.Optimize.RunAnalysis | merlin/analysis/optimize.py:46-68 | It raises exactly when `Run` fails, and with the same exception, changing nothing. On success it saves exactly `Run`'s two histories. With two or more iterations it leaves the decoder holding row iteration_count-2 of the saved scale factors; otherwise the decoder is untouched. |
| OptimizeTask.Optimize.RefineRow | merlin/analysis/optimize.py:56-63 | One pass of the loop hands the decoder row i-1 of the scale-factor history. It writes row i of both matrices as the history defines it, leaves every other row as it was, and leaves the saved results alone. |
| OptimizeTask.AssignRow | merlin/analysis/optimize.py:61-63 | `a[r,:] = row`: row r becomes `row` and every other entry keeps its value. |
| OptimizeTask.Rows | merlin/analysis/optimize.py:65-68 | A matrix as the rectangular sequence of its rows, entry by entry. |
| OptimizeTask.FilledRows | merlin/analysis/optimize.py:48-65 | Once the loop has filled every row after row 0, and row 0 of the history is all ones, the matrix is exactly the history. |
| OptimizeTask.Optimize.GetScaleFactorHistory | merlin/analysis/optimize.py:80-89 | Returns the saved scale-factor matrix, and fails when nothing was saved. |
| OptimizeTask.Optimize.GetBarcodeCountHistory | merlin/analysis/optimize.py:91-96 | Returns the saved barcode-count matrix, and fails when nothing was saved. |
| OptimizeTask.Optimize.GetScaleFactors | merlin/analysis/optimize.py:70-78 | It succeeds exactly when the scale-factor history loads and has a row, and then returns the history's last row. Otherwise it fails as the load fails, or with an index error on an empty history. |
| OptimizeTask.Optimize.FinalScaleFactors | merlin/analysis/optimize.py:70-78 | After a successful run, `get_scale_factors` returns the final row of the history: all ones with one iteration, and an index error with zero. |

## Left out

- `merlin/analysis/plotperformance.py`, which only plots these results, is not part of this model.
- The multiprocessing pool: results are taken in draw order, and `Refinement.RunOrderIndependent` shows that the order is irrelevant.
- Randomness: the draws of `random.sample` and `np.random.choice` are the input `draw`. A valid draw is required only when the run does not raise.
- The decoder's image processing (`extract_refactors` on the preprocessed image) is the input function `decode`. It must return bit_count multipliers and barcode_count counts, so numpy broadcasting of other shapes is not modelled.
- Floating point is modelled as exact `real` arithmetic, with no rounding, overflow or nan.
- fov_per_iteration = 0 is excluded when iteration_count is 2 or more, because the mean of no results is nan. With fewer iterations nothing is sampled or averaged, so any fov_per_iteration is allowed.
- Persistence: `save_analysis_result` and `load_analysis_result` are modelled as two optional fields of the task.
- OptimizeTask.Optimize.constructor: the dataset lookups are taken as parameters rather than read from a dataset. These are the bit names, the codebook size, the fields of view and the z positions. So are the decoder's initial scale factors, because `merlin/util/decoding.py` is not part of this model.
- OptimizeTask.Optimize.constructor: loading the preprocessing task, and a missing `parameters` argument (`None`), are not modelled.
- `get_estimated_memory`, `get_estimated_time` and `get_dependencies` are resource bookkeeping, not refinement logic.
- The unused `np.ones(self.bitCount)` at line 47 has no counterpart.
- OptimizeTask.Optimize.RunAnalysis: the decoder is given a copy of row i-1, where the source gives it a numpy view into the matrix. Only row i is written afterwards, so the values the decoder ends up holding are the same.
- OptimizeTask.Optimize.RunAnalysis: an exception raised by the decoder's `extract_refactors` or by `get_processed_image_set` (lines 58-60) is not modelled, because `decode` is a total function. In the source such an exception leaves `run_analysis` after the decoder has been handed row i-1 and before anything is saved.
