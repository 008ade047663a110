# A verified model of the `.npy` array viewer

`utils/view_npy.py` is a one-shot command-line inspector for a NumPy `.npy`
array file. `view_npy_file` loads the array and prints a report about it.
The report has four parts:

- basic facts: dtype, shape, number of dimensions, element count and memory usage;
- for numeric arrays, statistics: min, max, mean, standard deviation, and a
  sorted list of the unique values when there are few of them;
- a bounded sample of the elements, whose shape depends on the number of
  dimensions;
- for structured (record) dtypes, a list of the fields.

Any exception makes the function print an error message and return `False`.
`main` turns a missing path or a `False` result into exit status 1. It warns
about a suffix other than `.npy`, but does not stop for it.

This project models that logic in Dafny.

- The loaded array (`NpyArray.NdArray`) is a value. It has an element kind
  (`Numeric`, `Structured` with ordered `(name, dtype)` fields, or `Other` for
  every type that is neither numeric nor structured: booleans, strings, bytes,
  dates), a
  shape (`seq<nat>`), the elements as one flat row-major sequence of integers,
  and the byte width of one element.
- The output is a sequence of report items (`ViewNpy.Item`), one per fact,
  label-and-values block or message, in printing order; separator and blank
  lines are not items. Each item is tagged with the part of the report it
  belongs to. Items carry the values a line shows, not the text NumPy would
  render.
- The pure rules are functions with contracts: Python's clamping and
  negative-index slicing, the 1-D head/tail window, the 2-D corner block, the
  flattened prefix, the reductions and the unique-value threshold. They live in
  `Preview` and `Stats`.
- `view_npy_file` itself is the method `ViewNpyFile`. It builds the report step
  by step, stops at the first exception, and loops over the field names. It is
  proved equal to the specification function `ViewNpy.Report`. Lemmas state
  what that report promises.
- `main` is the method `Cli.RunViewer`.

Modules: `NpyArray` (npy_array.dfy), `Stats` (stats.dfy), `Preview`
(preview.dfy), `ViewNpy` (view_npy.dfy), `Cli` (cli.dfy).

Statistics are not skipped for an empty numeric array: with statistics on,
`np.min` raises (utils/view_npy.py:42). The generic handler then prints the
error and returns `False` before any sample is printed.
`ViewNpy.EmptyArrayReported` states that behaviour.

An `.npz` archive, the database format the sample files come from, is not an
error for `np.load`: it returns an archive object. The file header is printed
(utils/view_npy.py:28), and then reading `data.dtype` (utils/view_npy.py:32)
raises, so the generic handler prints the error and returns `False`. The load
outcome `Archive` models that path.

## Model

| member | source | states |
|---|---|---|
| `NpyArray.SizeZeroIffZeroExtent` | utils/view_npy.py:33-35 | the element count (product of the extents) is 0 exactly when some extent is 0; a 0-d shape has one element |
| `NpyArray.EmptyIffZeroExtent` | utils/view_npy.py:58 | a well-formed array has `data.size == 0`, and so is reported empty, exactly when one of its extents is 0 |
| `Stats.Min` | utils/view_npy.py:42 | `np.min` of a non-empty array is one of its elements and is at most every element |
| `Stats.Max` | utils/view_npy.py:43 | `np.max` of a non-empty array is one of its elements and is at least every element |
| `Stats.SumBetween` | utils/view_npy.py:44 | a sum of n elements within [lo, hi] lies within [n*lo, n*hi] (the basis of the mean's bounds) |
| `Stats.Mean` | utils/view_npy.py:44 | the mean of a non-empty array lies between its minimum and its maximum |
| `Stats.Variance` | utils/view_npy.py:45 | the population variance behind the standard deviation is never negative |
| `Stats.Unique` | utils/view_npy.py:49 | `np.unique` is strictly ascending (no duplicates) and holds exactly the values that occur in the array |
| `Stats.UniqueCountsDistinct` | utils/view_npy.py:49-51 | the length of the unique list, printed as the count, equals the number of distinct values |
| `Preview.SliceTo` | utils/view_npy.py:64 | Python's `s[:k]` for k >= 0: the first min(k, len) elements, a prefix of s |
| `Preview.SliceFrom` | utils/view_npy.py:68 | Python's `s[k:]`: a negative k takes the last min(-k, len) elements, and an out-of-range start is clamped |
| `Preview.HeadTail` | utils/view_npy.py:60-68 | the head is the first min(max_elements, size) elements; the marker appears iff size > max_elements; the tail is then the last min(5, size - max_elements) elements, 1 to 5 of them, starting at or after index max_elements, so it never overlaps the head |
| `Preview.Corner` | utils/view_npy.py:69-76 | the block has min(max_elements, shape[0]) rows and min(10, shape[1]) columns; its row i is row i of the array cut to that many columns; the marker appears iff a row or a column is left out |
| `Preview.CornerRow` | utils/view_npy.py:74 | entry j of a corner row i is flat element i*shape[1]+j, for every j below the column count |
| `Preview.Flattened` | utils/view_npy.py:77-85 | the flattened head is the first min(max_elements, size) elements in row-major order; the marker appears iff an element is left out |
| `ViewNpy.Facts` | utils/view_npy.py:28-36 | the basic facts are six lines of the facts part, opening with the file header |
| `ViewNpy.UniqueLine` | utils/view_npy.py:47-51 | there is at most one unique-values line, and there is one iff size <= 1000 and there are <= 20 distinct values |
| `ViewNpy.UniqueLineLists` | utils/view_npy.py:49-51 | the unique-values line lists the distinct values ascending, once each; its count equals the list length and the number of distinct values |
| `ViewNpy.StatsItems` | utils/view_npy.py:40-51 | the statistics part has six lines exactly when size <= 1000 and there are <= 20 distinct values, and five otherwise; the sixth is the unique-values line; every line is a statistics line |
| `ViewNpy.StatsLine` | utils/view_npy.py:40-51 | in the statistics part the minimum is line 1 and holds `Min`, the maximum is line 2 and holds `Max`, and a unique-values line can only be line 5 |
| `ViewNpy.OneDimLines` | utils/view_npy.py:60-68 | a 1-D sample has a marker and a tail exactly when size > max_elements |
| `ViewNpy.TwoDimLines` | utils/view_npy.py:69-76 | a 2-D sample has a marker iff shape[0] > max_elements or shape[1] > 10, and never a tail |
| `ViewNpy.FlatLines` | utils/view_npy.py:77-85 | a 0-d or 3+-d sample has a marker iff size > max_elements, and never a tail |
| `ViewNpy.SampleItems` | utils/view_npy.py:54-85 | the sample part starts with its heading; an empty array gives only the empty note; the marker appears iff the shown part leaves elements out; a tail appears iff the array is 1-D and size > max_elements |
| `ViewNpy.FieldItems` | utils/view_npy.py:88-93 | a field listing is printed exactly for structured dtypes |
| `ViewNpy.FieldLines` | utils/view_npy.py:91-93 | every line of the listing belongs to the field part |
| `ViewNpy.StatsPart` | utils/view_npy.py:39 | the statistics part holds only statistics lines |
| `ViewNpy.SamplePart` | utils/view_npy.py:54 | the sample part holds only sample lines |
| `ViewNpy.Succeeds` | utils/view_npy.py:95-102 | the call returns True only for a loaded array, and always does when the array has elements, when statistics are off, or when the dtype is not numeric |
| `ViewNpy.Report` | utils/view_npy.py:24-102 | the whole output: a loaded array's report always opens with its six basic facts, whatever the flags; the file header is the first line exactly when `np.load` returned something (an array or an archive) |
| `ViewNpy.ViewNpyFile` | utils/view_npy.py:14-102 | the report printed step by step equals `Report`, and the result is True iff the array loaded and `np.min` was not applied to an empty numeric array |
| `ViewNpy.PrintStatistics` | utils/view_npy.py:39-51 | the statistics block printed equals `StatsItems` |
| `ViewNpy.PrintSample` | utils/view_npy.py:54-85 | the sample block printed, branch by branch, equals `SampleItems` |
| `ViewNpy.PrintFields` | utils/view_npy.py:88-93 | the loop over the field names prints the heading and then one line per field, in declaration order |
| `ViewNpy.SectionsInOrder` | utils/view_npy.py:24-100 | the report runs facts, statistics, sample, fields in that order; an error message appears only as the last line, and there is one iff the call returns False |
| `ViewNpy.StatisticsOnlyForNumeric` | utils/view_npy.py:39-45 | statistics lines appear only when statistics are on and the dtype is numeric, never for other or structured arrays; a minimum line appears iff, in addition, the call succeeds |
| `ViewNpy.ReductionsReported` | utils/view_npy.py:39-45 | when the call succeeds with statistics shown, the heading, min, max, mean and deviation lines (`Min`, `Max`, `Mean`, `Variance` of the elements) are printed in that order right after the basic facts; in any other report no statistics line but the heading appears |
| `ViewNpy.MinMaxReported` | utils/view_npy.py:42-43 | the reported minimum is <= the reported maximum; both are elements of the array and bound every element |
| `ViewNpy.UniqueValuesReported` | utils/view_npy.py:47-51 | the unique-values line appears iff statistics are shown for a non-empty numeric array with size <= 1000 and <= 20 distinct values; its list is ascending, duplicate-free, has exactly the array's values, and its count equals its length |
| `ViewNpy.NoUniqueLineOnFailure` | utils/view_npy.py:42-51 | when `np.min` fails on an empty numeric array, no unique-values line is printed |
| `ViewNpy.UniqueLineLocated` | utils/view_npy.py:47-51 | in a report with statistics, the unique-values line sits right after the deviation line, and no other line lists unique values |
| `ViewNpy.EmptyArrayReported` | utils/view_npy.py:42 | for an empty numeric array with statistics on, the report ends with the statistics heading and the error, with no sample line; otherwise the sample part is only the heading and "Array is empty" |
| `ViewNpy.FieldLinesListEachOnce` | utils/view_npy.py:91-93 | line k of the field listing names field k with its type, so each field name appears exactly once, in declaration order |
| `ViewNpy.FieldsAlwaysListed` | utils/view_npy.py:87-93 | a structured array's report always ends with its full field listing, whatever max_elements, show_stats and show_sample are; other arrays get no listing |
| `ViewNpy.OneDimSample` | utils/view_npy.py:60-68 | a non-empty 1-D sample is exactly the head data[..min(max_elements, size)], then "..." and data[size - t..] with t = min(5, size - max_elements) when size > max_elements; the tail starts at or after max_elements |
| `ViewNpy.TwoDimSample` | utils/view_npy.py:69-76 | a non-empty 2-D sample is exactly the `Corner` block, then "..." iff shape[0] > max_elements or shape[1] > 10 |
| `ViewNpy.FlatSample` | utils/view_npy.py:77-85 | a non-empty 0-d or 3+-d sample is exactly the shape, the first min(max_elements, size) row-major elements, then "..." iff size > max_elements; a 0-d array has one element |
| `ViewNpy.OneDimExamples` | utils/view_npy.py:60-68 | 25 elements with max_elements 10 show elements 0-9, "..." and 20-24; 8 elements show all 8, with no marker and no tail |
| `ViewNpy.MultiDimExamples` | utils/view_npy.py:69-85 | a 50x20 array shows a 10x10 corner and "..."; a 2x3x4 array shows its first 10 flattened elements and "..." |
| `Cli.IsNpySuffix` | utils/view_npy.py:123 | the suffix test accepts exactly ".npy" in any mix of upper and lower case |
| `Cli.RunViewer` | utils/view_npy.py:117-134 | a missing path prints only its error and exits 1; otherwise a wrong suffix adds only a warning before the report; the exit status is 0 iff the path exists and `view_npy_file` returns True |
| `Cli.StatusMatchesLastLine` | utils/view_npy.py:119-134 | the exit status is 1 exactly when the last line printed is an error message, the missing-path message included |

## Left out

- Decoding the `.npy` container with `np.load` (utils/view_npy.py:26) is a call into NumPy. Its outcome is an input: `Loaded` (an array), `Archive` (an `.npz` archive, which has no `dtype`), `FileMissing` (`FileNotFoundError`) or `Malformed` (any other exception `np.load` raises). The contents of an archive are not modelled; the viewer never reads them.
- Text rendering is not modelled: NumPy's print options, the rendering of dtypes, the separator lines and the label wording. Each line is an item that carries the values it shows.
- The KB and MB figures (utils/view_npy.py:36) are floating-point divisions. Only the byte count, size times item size, is kept.
- ViewNpy.Succeeds: `Numeric` stands for the integer, floating-point and complex types. `timedelta64`, which `np.issubdtype` also counts as a number, is not modelled: for it the source prints the min and max lines, then `np.mean` or `np.std` raises (utils/view_npy.py:44-45) and the call returns False, whereas the model never fails on a non-empty numeric array.
- Stats.Mean: the model uses the exact quotient sum/size. NumPy computes a float64 reduction with rounding, and its six-decimal formatting is not modelled either.
- Stats.Variance: the item carries the exact population variance. The printed standard deviation is its square root, computed in float64; the square root is not modelled.
- Elements are integers. Floating-point values, NaN and infinities, and the ordering of complex numbers under `np.min`, `np.max` and `np.unique` are not modelled. Structured elements are abstract values.
- The data is kept in logical row-major order. Fortran-ordered storage is not modelled separately, because `flatten()` and the 2-D slice both follow the logical C order.
- `max_elements` is a natural number. The source accepts a negative value from `argparse`, which would switch on Python's negative-slice semantics (utils/view_npy.py:62-68).
- Argument parsing, `Path.exists` and the computation of `Path.suffix` (utils/view_npy.py:106-118) are file-system and CLI glue. Whether the path exists and its suffix are inputs to `RunViewer`.
- Cli.IsNpySuffix: `str.lower()` is modelled for ASCII letters only; Unicode case mapping of other characters is not modelled.
- utils/read_image.py only prints the metadata of an image library and has no logic of its own; it is not part of this model.
- examples/generate_database.py only calls a database generator whose code is not available; it is not part of this model.
