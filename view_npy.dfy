/** `view_npy_file`: the report written about one loaded array, modelled as a
    sequence of report items in the order the lines are printed, together with
    the success flag the function returns. */
module ViewNpy {
  import opened NpyArray
  import opened Stats
  import opened Preview

  /** The statistics section enumerates unique values only for arrays of at
      most this many elements ... */
  const UniqueSizeLimit: nat := 1000
  /** ... and only when there are at most this many of them. */
  const UniqueCountLimit: nat := 20

  /** What the loader hands over: the array; an `.npz` archive, which
      `np.load` opens without error but which has no `dtype`; or the
      exception `np.load` raised. */
  datatype Load = Loaded(arr: NdArray) | Archive | FileMissing | Malformed

  /** The causes of an exception caught by the generic handler. */
  datatype Failure =
    | Undecodable     // `np.load` could not read the container
    | NoDtype         // the loaded object is an archive, not an array
    | EmptyReduction  // `np.min` of an array without elements

  /** Advisory line of the command-line entry point. */
  datatype Notice = SuffixWarning(path: string)

  /** The basic facts printed for every loaded array. */
  datatype Fact =
    | FileHeader(path: string)
    | DataType(kind: Kind)
    | Shape(shape: seq<nat>)
    | Dimensions(ndim: nat)
    | TotalElements(size: nat)
    | MemoryUsage(bytes: nat)

  /** Lines of the statistics section. */
  datatype Statistic =
    | StatsHeader
    | MinValue(min: int)
    | MaxValue(max: int)
    | MeanValue(mean: real)
    | StdDeviation(variance: real)  // the line shows the square root of `variance`
    | UniqueValues(count: nat, values: seq<int>)

  /** Lines of the sample section (a label together with the values printed
      under it counts as one line). */
  datatype SampleLine =
    | SampleHeader(maxElements: nat)
    | EmptyNote
    | Head(elems: seq<int>)
    | Ellipsis
    | Tail(elems: seq<int>)
    | CornerBlock(rows: nat, cols: nat, cells: seq<seq<int>>)
    | FlatShape(shape: seq<nat>)
    | FlatHead(elems: seq<int>)

  /** Lines of the structured-field listing. */
  datatype FieldEntry = FieldsHeader | FieldLine(name: string, dtype: string)

  /** An error message: the command-line entry point finds no such path, or
      an exception handler reports a missing file or another failure. */
  datatype ErrorMessage =
    | PathMissing(path: string)
    | NotFoundError(path: string)
    | LoadingError(cause: Failure)

  /** One line of output, tagged with the part of the report it belongs to.
      Element values stand for what a line shows; their textual rendering is
      not modelled. */
  datatype Item =
    | Note(notice: Notice)
    | Info(fact: Fact)
    | Stat(stat: Statistic)
    | Sample(line: SampleLine)
    | Fields(entry: FieldEntry)
    | Error(message: ErrorMessage)

  /** The position of an item's part in the order the parts are printed. */
  function Section(it: Item): nat {
    match it
    case Note(_) => 0
    case Info(_) => 1
    case Stat(_) => 2
    case Sample(_) => 3
    case Fields(_) => 4
    case Error(_) => 5
  }

  /** A "Last n elements" line. */
  predicate IsTail(it: Item) {
    it.Sample? && it.line.Tail?
  }

  predicate HasTail(items: seq<Item>) {
    exists k :: 0 <= k < |items| && IsTail(items[k])
  }

  predicate AllIn(items: seq<Item>, section: nat) {
    forall k :: 0 <= k < |items| ==> Section(items[k]) == section
  }

  /** Facts printed for every loaded array. */
  function Facts(path: string, a: NdArray): (items: seq<Item>)
    ensures AllIn(items, 1)
    ensures |items| == 6 && items[0] == Info(FileHeader(path))
  {
    [Info(FileHeader(path)), Info(DataType(a.kind)), Info(Shape(a.shape)),
     Info(Dimensions(a.NDim())), Info(TotalElements(a.Size())), Info(MemoryUsage(a.NBytes()))]
  }

  /** Statistics are computed only when asked for and the elements are numbers. */
  predicate StatsShown(a: NdArray, showStats: bool) {
    showStats && a.kind.Numeric?
  }

  /** The unique-values line: present exactly when the array has at most 1000
      elements and at most 20 distinct values; it then lists every distinct
      value once, ascending, and its count is the number of distinct values. */
  function UniqueLine(s: seq<int>): (items: seq<Item>)
    ensures AllIn(items, 2)
    ensures |items| <= 1
    ensures items != [] <==> |s| <= UniqueSizeLimit && |Distinct(s)| <= UniqueCountLimit
    ensures items != [] ==> IsUnique(items[0])
  {
    UniqueCountsDistinct(s);
    if |s| <= UniqueSizeLimit then
      var u := Unique(s);
      if |u| <= UniqueCountLimit then [Stat(UniqueValues(|u|, u))] else []
    else []
  }

  /** The unique-values line lists the distinct values ascending, each once,
      and its count equals the length of that list and the number of
      distinct values. */
  lemma UniqueLineLists(s: seq<int>)
    ensures var items := UniqueLine(s);
      items != [] ==>
        var line := items[0].stat;
        && line.count == |line.values| == |Distinct(s)|
        && Increasing(line.values)
        && (forall y :: y in line.values <==> y in s)
  {
    UniqueCountsDistinct(s);
  }

  lemma AllInConcat(xs: seq<Item>, ys: seq<Item>, section: nat)
    requires AllIn(xs, section) && AllIn(ys, section)
    ensures AllIn(xs + ys, section)
  {
  }

  /** Heading, minimum, maximum, mean and deviation lines of the statistics
      section of an array with at least one element. */
  function ReductionLines(s: seq<int>): seq<Item>
    requires |s| > 0
  {
    [Stat(StatsHeader), Stat(MinValue(Min(s))), Stat(MaxValue(Max(s))),
     Stat(MeanValue(Mean(s))), Stat(StdDeviation(Variance(s)))]
  }

  /** The statistics section of an array with at least one element: the five
      reduction lines, then the unique-values line when it applies. */
  function StatsItems(s: seq<int>): (items: seq<Item>)
    requires |s| > 0
    ensures AllIn(items, 2)
    ensures 5 <= |items| <= 6
    ensures items[..5] == ReductionLines(s) && items[5..] == UniqueLine(s)
    ensures |items| == 6 ==> IsUnique(items[5])
    ensures |items| == 6 <==> |s| <= UniqueSizeLimit && |Distinct(s)| <= UniqueCountLimit
  {
    var head := ReductionLines(s);
    var unique := UniqueLine(s);
    var items := head + unique;
    assert AllIn(head, 2);
    AllInConcat(head, unique, 2);
    assert items[..5] == head && items[5..] == unique;
    items
  }

  /** The 1-D sample: head, then "..." and the tail exactly when the head
      leaves elements out. */
  function OneDimLines(data: seq<int>, maxElements: nat): (items: seq<Item>)
    ensures AllIn(items, 3)
    ensures Sample(Ellipsis) in items <==> |data| > maxElements
    ensures HasTail(items) <==> |data| > maxElements
  {
    var w := HeadTail(data, maxElements);
    var items := [Sample(Head(w.head))] + (if w.truncated then [Sample(Ellipsis), Sample(Tail(w.tail))] else []);
    assert w.truncated ==> IsTail(items[2]);
    items
  }

  /** The 2-D sample: the corner block, then "..." exactly when it leaves a
      row or a column out; never a tail. */
  function TwoDimLines(data: seq<int>, n0: nat, n1: nat, maxElements: nat): (items: seq<Item>)
    requires |data| == n0 * n1
    ensures AllIn(items, 3)
    ensures Sample(Ellipsis) in items <==> n0 > maxElements || n1 > MaxColumns
    ensures !HasTail(items)
  {
    var b := Corner(data, n0, n1, maxElements);
    [Sample(CornerBlock(b.rows, b.cols, b.cells))] + (if b.truncated then [Sample(Ellipsis)] else [])
  }

  /** The sample of a 0-d or 3-or-more-dimensional array: its shape, the
      flattened head, then "..." exactly when elements are left out; never a
      tail. */
  function FlatLines(shape: seq<nat>, data: seq<int>, maxElements: nat): (items: seq<Item>)
    ensures AllIn(items, 3)
    ensures Sample(Ellipsis) in items <==> |data| > maxElements
    ensures !HasTail(items)
  {
    var p := Flattened(data, maxElements);
    [Sample(FlatShape(shape)), Sample(FlatHead(p.elems))] + (if p.truncated then [Sample(Ellipsis)] else [])
  }

  /** The sample section: an empty note, a 1-D head and tail, a 2-D corner, or
      a flattened head, chosen by size and number of dimensions. The "..."
      marker appears exactly when the shown part leaves elements out, and a
      tail only for a truncated 1-D array. */
  function SampleItems(a: NdArray, maxElements: nat): (items: seq<Item>)
    requires a.Valid()
    ensures AllIn(items, 3)
    ensures |items| > 1 && items[0] == Sample(SampleHeader(maxElements))
    ensures a.Size() == 0 ==> items == [Sample(SampleHeader(maxElements)), Sample(EmptyNote)]
    ensures Sample(Ellipsis) in items <==>
      a.Size() > 0 &&
      if a.NDim() == 2 then a.shape[0] > maxElements || a.shape[1] > MaxColumns
      else a.Size() > maxElements
    ensures HasTail(items) <==> a.NDim() == 1 && a.Size() > maxElements
  {
    SampleStep(a);
    var header := Sample(SampleHeader(maxElements));
    if |a.data| == 0 then
      var items := [header, Sample(EmptyNote)];
      assert !IsTail(items[0]) && !IsTail(items[1]);
      items
    else if |a.shape| == 1 then
      var body := OneDimLines(a.data, maxElements);
      PrependHeader(header, body);
      [header] + body
    else if |a.shape| == 2 then
      var body := TwoDimLines(a.data, a.shape[0], a.shape[1], maxElements);
      PrependHeader(header, body);
      [header] + body
    else
      var body := FlatLines(a.shape, a.data, maxElements);
      PrependHeader(header, body);
      [header] + body
  }

  /** Helper: a sample heading adds no marker and no tail. */
  lemma PrependHeader(header: Item, body: seq<Item>)
    requires header.Sample? && header.line.SampleHeader?
    ensures Sample(Ellipsis) in [header] + body <==> Sample(Ellipsis) in body
    ensures HasTail([header] + body) <==> HasTail(body)
  {
    var items := [header] + body;
    if HasTail(items) {
      var k :| 0 <= k < |items| && IsTail(items[k]);
      assert IsTail(body[k - 1]);
    }
    if HasTail(body) {
      var k :| 0 <= k < |body| && IsTail(body[k]);
      assert IsTail(items[k + 1]);
    }
  }

  /** One line per field, in declaration order. */
  function FieldLines(fields: seq<Field>): (lines: seq<Item>)
    ensures AllIn(lines, 4)
  {
    seq(|fields|, i requires 0 <= i < |fields| => Fields(FieldLine(fields[i].name, fields[i].dtype)))
  }

  /** The field listing, present for structured element types only. */
  function FieldItems(kind: Kind): (items: seq<Item>)
    ensures AllIn(items, 4)
    ensures kind.Structured? <==> items != []
  {
    if kind.Structured? then [Fields(FieldsHeader)] + FieldLines(kind.fields) else []
  }

  /** `view_npy_file` returns True: the array loaded and no reduction failed.
      It fails only on a load failure, an archive, or statistics of an empty
      numeric array. */
  function Succeeds(load: Load, showStats: bool): (b: bool)
    ensures b ==> load.Loaded?
    ensures load.Loaded? && load.arr.Size() > 0 ==> b
    ensures load.Loaded? && !showStats ==> b
    ensures load.Loaded? && !load.arr.kind.Numeric? ==> b
  {
    load.Loaded? && !(StatsShown(load.arr, showStats) && load.arr.Size() == 0)
  }

  /** The statistics section when it is asked for and can be computed. */
  function StatsPart(a: NdArray, showStats: bool): (items: seq<Item>)
    requires !(StatsShown(a, showStats) && a.Size() == 0)
    ensures AllIn(items, 2)
  {
    if StatsShown(a, showStats) then StatsItems(a.data) else []
  }

  /** The sample section when it is asked for. */
  function SamplePart(a: NdArray, maxElements: nat, showSample: bool): (items: seq<Item>)
    requires a.Valid()
    ensures AllIn(items, 3)
  {
    if showSample then SampleItems(a, maxElements) else []
  }

  /** The lines printed when `np.min` raises on an empty numeric array. */
  const EmptyReductionLines: seq<Item> := [Stat(StatsHeader), Error(LoadingError(EmptyReduction))]

  /** The whole output of `view_npy_file`. An exception ends the output with
      its message: a missing file or an undecodable container before any
      line, an archive right after the file header (reading `data.dtype`
      fails), and `np.min` of an empty numeric array right after the
      statistics heading. A loaded array's report always opens with all
      its basic facts. */
  function Report(path: string, load: Load, maxElements: nat, showStats: bool, showSample: bool): (r: seq<Item>)
    requires load.Loaded? ==> load.arr.Valid()
    ensures load.Loaded? ==> |r| >= 6 && r[..6] == Facts(path, load.arr)
    ensures |r| > 0 && (r[0] == Info(FileHeader(path)) <==> load.Loaded? || load.Archive?)
  {
    match load
    case FileMissing => [Error(NotFoundError(path))]
    case Malformed => [Error(LoadingError(Undecodable))]
    case Archive => [Info(FileHeader(path)), Error(LoadingError(NoDtype))]
    case Loaded(a) =>
      if Succeeds(load, showStats) then
        Facts(path, a) + StatsPart(a, showStats) + SamplePart(a, maxElements, showSample) + FieldItems(a.kind)
      else
        Facts(path, a) + EmptyReductionLines
  }

  /** `view_npy_file(filepath, max_elements, show_stats, show_sample)`: prints
      the report step by step and returns whether it got to the end. */
  method ViewNpyFile(path: string, load: Load, maxElements: nat, showStats: bool, showSample: bool)
    returns (out: seq<Item>, ok: bool)
    requires load.Loaded? ==> load.arr.Valid()
    ensures ok == Succeeds(load, showStats)
    ensures out == Report(path, load, maxElements, showStats, showSample)
  {
    if load.FileMissing? {
      return [Error(NotFoundError(path))], false;
    } else if load.Malformed? {
      return [Error(LoadingError(Undecodable))], false;
    } else if load.Archive? {
      out := [Info(FileHeader(path))];
      // `data.dtype` raises on an archive; the generic handler reports it
      out := out + [Error(LoadingError(NoDtype))];
      return out, false;
    }
    var a := load.arr;
    out := [Info(FileHeader(path)), Info(DataType(a.kind)), Info(Shape(a.shape)),
            Info(Dimensions(|a.shape|)), Info(TotalElements(|a.data|)),
            Info(MemoryUsage(|a.data| * a.itemSize))];
    ghost var facts := out;
    assert facts == Facts(path, a);
    var stats: seq<Item> := [];
    var sample: seq<Item> := [];
    var fields: seq<Item> := [];

    if showStats && a.kind.Numeric? {
      if |a.data| == 0 {
        // np.min raises on a zero-size array; the generic handler reports it
        out := out + [Stat(StatsHeader), Error(LoadingError(EmptyReduction))];
        return out, false;
      }
      stats := PrintStatistics(a.data);
      out := out + stats;
    }
    assert out == facts + stats;
    assert stats == StatsPart(a, showStats);
    if showSample {
      sample := PrintSample(a, maxElements);
      out := out + sample;
    }
    assert out == facts + stats + sample;
    assert sample == SamplePart(a, maxElements, showSample);
    if a.kind.Structured? {
      fields := PrintFields(a.kind.fields);
      out := out + fields;
    }
    assert out == facts + stats + sample + fields;
    assert fields == FieldItems(a.kind);
    ok := true;
  }

  /** The statistics block of `view_npy_file` for a non-empty numeric array. */
  method PrintStatistics(data: seq<int>) returns (lines: seq<Item>)
    requires |data| > 0
    ensures lines == StatsItems(data)
  {
    lines := [Stat(StatsHeader), Stat(MinValue(Min(data))), Stat(MaxValue(Max(data))),
              Stat(MeanValue(Mean(data))), Stat(StdDeviation(Variance(data)))];
    if |data| <= UniqueSizeLimit {
      var uniqueVals := Unique(data);
      if |uniqueVals| <= UniqueCountLimit {
        lines := lines + [Stat(UniqueValues(|uniqueVals|, uniqueVals))];
      }
    }
  }

  /** The sample block of `view_npy_file`, one branch per dimensionality. */
  method PrintSample(a: NdArray, maxElements: nat) returns (lines: seq<Item>)
    requires a.Valid()
    ensures lines == SampleItems(a, maxElements)
  {
    SampleStep(a);
    lines := [Sample(SampleHeader(maxElements))];
    if |a.data| == 0 {
      lines := lines + [Sample(EmptyNote)];
    } else if |a.shape| == 1 {
      var sampleSize := MinNat(maxElements, |a.data|);
      lines := lines + [Sample(Head(SliceTo(a.data, sampleSize)))];
      if |a.data| > maxElements {
        var tail := SliceFrom(a.data, -(MinNat(TailLength, |a.data| - maxElements) as int));
        lines := lines + [Sample(Ellipsis), Sample(Tail(tail))];
      }
      assert lines[1..] == OneDimLines(a.data, maxElements);
    } else if |a.shape| == 2 {
      var block := Corner(a.data, a.shape[0], a.shape[1], maxElements);
      lines := lines + [Sample(CornerBlock(block.rows, block.cols, block.cells))];
      if a.shape[0] > maxElements || a.shape[1] > MaxColumns {
        lines := lines + [Sample(Ellipsis)];
      }
      assert lines[1..] == TwoDimLines(a.data, a.shape[0], a.shape[1], maxElements);
    } else {
      lines := lines + [Sample(FlatShape(a.shape))];
      var flat := a.data;
      var sampleSize := MinNat(maxElements, |flat|);
      lines := lines + [Sample(FlatHead(SliceTo(flat, sampleSize)))];
      if |flat| > maxElements {
        lines := lines + [Sample(Ellipsis)];
      }
      assert lines[1..] == FlatLines(a.shape, a.data, maxElements);
    }
  }

  /** The loop over `data.dtype.names` that lists a structured type's fields. */
  method PrintFields(fields: seq<Field>) returns (lines: seq<Item>)
    ensures lines == FieldItems(Structured(fields))
  {
    lines := [Fields(FieldsHeader)];
    var i := 0;
    while i < |fields|
      invariant 0 <= i <= |fields|
      invariant lines == [Fields(FieldsHeader)] + FieldLines(fields[..i])
    {
      lines := lines + [Fields(FieldLine(fields[i].name, fields[i].dtype))];
      assert FieldLines(fields[..i + 1])
        == FieldLines(fields[..i]) + [Fields(FieldLine(fields[i].name, fields[i].dtype))];
      i := i + 1;
    }
    assert fields[..i] == fields;
  }

  /** Helper: the facts the sample branches of ViewNpyFile rely on. */
  lemma SampleStep(a: NdArray)
    requires a.Valid()
    ensures |a.shape| == 2 ==> |a.data| == a.shape[0] * a.shape[1]
  {
    if |a.shape| == 2 {
      assert Product(a.shape) == a.shape[0] * Product(a.shape[1..]);
      assert Product(a.shape[1..]) == a.shape[1] * Product(a.shape[2..]);
    }
  }

  // ---------------------------------------------------------------------------
  // Properties of the report

  /** Helper: appending a section of rank `next` to a section-ordered list
      whose ranks lie in [1, last] keeps it ordered. */
  lemma OrderedConcat(xs: seq<Item>, ys: seq<Item>, last: nat, next: nat)
    requires 1 <= last <= next
    requires forall i, j :: 0 <= i <= j < |xs| ==> Section(xs[i]) <= Section(xs[j])
    requires forall k :: 0 <= k < |xs| ==> 1 <= Section(xs[k]) <= last
    requires AllIn(ys, next)
    ensures forall i, j :: 0 <= i <= j < |xs + ys| ==> Section((xs + ys)[i]) <= Section((xs + ys)[j])
    ensures forall k :: 0 <= k < |xs + ys| ==> 1 <= Section((xs + ys)[k]) <= next
  {
  }

  /** The report is written part by part: basic facts, statistics, sample,
      field listing; an error message, when there is one, is its last line and
      the only one. */
  lemma SectionsInOrder(path: string, load: Load, maxElements: nat, showStats: bool, showSample: bool)
    requires load.Loaded? ==> load.arr.Valid()
    ensures var out := Report(path, load, maxElements, showStats, showSample);
      && |out| > 0
      && (forall i, j :: 0 <= i <= j < |out| ==> Section(out[i]) <= Section(out[j]))
      && (Section(out[|out| - 1]) == 5 <==> !Succeeds(load, showStats))
      && (forall k :: 0 <= k < |out| - 1 ==> Section(out[k]) != 5)
  {
    if load.Loaded? {
      var a := load.arr;
      var facts := Facts(path, a);
      if Succeeds(load, showStats) {
        var st := StatsPart(a, showStats);
        var sa := SamplePart(a, maxElements, showSample);
        var fi := FieldItems(a.kind);
        assert Report(path, load, maxElements, showStats, showSample) == facts + st + sa + fi;
        PartsInOrder(facts, st, sa, fi);
      } else {
        assert Report(path, load, maxElements, showStats, showSample) == facts + EmptyReductionLines;
        FailureInOrder(facts);
      }
    }
  }

  /** Helper: facts, statistics, sample and field parts, joined, are in order
      and hold no error message. */
  lemma PartsInOrder(facts: seq<Item>, st: seq<Item>, sa: seq<Item>, fi: seq<Item>)
    requires |facts| > 0
    requires AllIn(facts, 1) && AllIn(st, 2) && AllIn(sa, 3) && AllIn(fi, 4)
    ensures var out := facts + st + sa + fi;
      && (forall i, j :: 0 <= i <= j < |out| ==> Section(out[i]) <= Section(out[j]))
      && (forall k :: 0 <= k < |out| ==> Section(out[k]) != 5)
  {
    OrderedConcat(facts, st, 1, 2);
    OrderedConcat(facts + st, sa, 2, 3);
    OrderedConcat(facts + st + sa, fi, 3, 4);
  }

  /** Helper: the facts followed by the failed-reduction lines are in order,
      with the error message last. */
  lemma FailureInOrder(facts: seq<Item>)
    requires AllIn(facts, 1)
    ensures var out := facts + EmptyReductionLines;
      && (forall i, j :: 0 <= i <= j < |out| ==> Section(out[i]) <= Section(out[j]))
      && Section(out[|out| - 1]) == 5
      && (forall k :: 0 <= k < |out| - 1 ==> Section(out[k]) != 5)
  {
    var out := facts + EmptyReductionLines;
    assert forall m :: 0 <= m < |facts| ==> out[m] == facts[m];
    assert out[|facts|] == Stat(StatsHeader) && out[|facts| + 1] == Error(LoadingError(EmptyReduction));
  }


  /** A minimum line. */
  predicate IsMin(it: Item) {
    it.Stat? && it.stat.MinValue?
  }

  /** Statistics lines appear only when statistics are asked for and the
      elements are numeric, so arrays of any other kind never get them; the
      minimum line is printed exactly when, in addition, the array is not
      empty (`ReductionsReported` places the other reductions). */
  lemma StatisticsOnlyForNumeric(path: string, load: Load, maxElements: nat, showStats: bool, showSample: bool)
    requires load.Loaded? ==> load.arr.Valid()
    ensures var out := Report(path, load, maxElements, showStats, showSample);
      && ((exists k :: 0 <= k < |out| && IsMin(out[k])) <==>
          Succeeds(load, showStats) && StatsShown(load.arr, showStats))
      && (forall k :: 0 <= k < |out| && Section(out[k]) == 2 ==>
          load.Loaded? && StatsShown(load.arr, showStats))
  {
    var out := Report(path, load, maxElements, showStats, showSample);
    if load.Loaded? {
      var a := load.arr;
      var facts := Facts(path, a);
      if Succeeds(load, showStats) {
        var st := StatsPart(a, showStats);
        var sa := SamplePart(a, maxElements, showSample);
        var fi := FieldItems(a.kind);
        assert out == facts + st + sa + fi;
        if StatsShown(a, showStats) {
          assert IsMin(out[|facts| + 1]);
        }
        forall k | 0 <= k < |out| && Section(out[k]) == 2
          ensures StatsShown(a, showStats)
        {
          LineOfStatsPart(facts, st, sa, fi, k);
        }
      } else {
        assert out == facts + EmptyReductionLines;
      }
    }
  }

  /** Whenever the call succeeds with statistics shown, the minimum, maximum,
      mean and deviation are printed right after the statistics heading, in
      that order; in every other report no statistics line but the heading
      appears. */
  lemma ReductionsReported(path: string, load: Load, maxElements: nat, showStats: bool, showSample: bool)
    requires load.Loaded? ==> load.arr.Valid()
    ensures var out := Report(path, load, maxElements, showStats, showSample);
      && (Succeeds(load, showStats) && StatsShown(load.arr, showStats) ==>
          var d := load.arr.data;
          var f := |Facts(path, load.arr)|;
          && f + 5 <= |out|
          && out[f..f + 5] == [Stat(StatsHeader), Stat(MinValue(Min(d))), Stat(MaxValue(Max(d))),
                               Stat(MeanValue(Mean(d))), Stat(StdDeviation(Variance(d)))])
      && (forall k :: 0 <= k < |out| && Section(out[k]) == 2 && out[k] != Stat(StatsHeader) ==>
          Succeeds(load, showStats) && StatsShown(load.arr, showStats))
  {
    var out := Report(path, load, maxElements, showStats, showSample);
    if Succeeds(load, showStats) && StatsShown(load.arr, showStats) {
      var a := load.arr;
      var facts := Facts(path, a);
      var sa := SamplePart(a, maxElements, showSample);
      var fi := FieldItems(a.kind);
      assert out == facts + StatsItems(a.data) + sa + fi;
      ReductionsInParts(facts, a.data, sa, fi);
    } else if !load.Loaded? || !StatsShown(load.arr, showStats) {
      StatisticsOnlyForNumeric(path, load, maxElements, showStats, showSample);
    } else {
      var facts := Facts(path, load.arr);
      assert out == facts + EmptyReductionLines;
      FailureInOrder(facts);
      assert forall m :: 0 <= m < |facts| ==> out[m] == facts[m];
    }
  }

  /** Helper: in a report given by its parts, the reductions follow the
      statistics heading. */
  lemma ReductionsInParts(facts: seq<Item>, data: seq<int>, sa: seq<Item>, fi: seq<Item>)
    requires |data| > 0
    ensures var out := facts + StatsItems(data) + sa + fi;
      && |facts| + 5 <= |out|
      && out[|facts|..|facts| + 5] == [Stat(StatsHeader), Stat(MinValue(Min(data))), Stat(MaxValue(Max(data))),
                                       Stat(MeanValue(Mean(data))), Stat(StdDeviation(Variance(data)))]
  {
    var st := StatsItems(data);
    var out := facts + st + sa + fi;
    assert out[|facts|..|facts| + 5] == st[..5];
  }


  /** The reported minimum and maximum are elements of the array, bound all of
      its elements, and the minimum is at most the maximum. */
  lemma MinMaxReported(path: string, load: Load, maxElements: nat, showStats: bool, showSample: bool, i: nat, j: nat)
    requires load.Loaded? ==> load.arr.Valid()
    requires var out := Report(path, load, maxElements, showStats, showSample);
      i < |out| && j < |out| && IsMin(out[i]) && out[j].Stat? && out[j].stat.MaxValue?
    ensures var out := Report(path, load, maxElements, showStats, showSample);
      && load.Loaded?
      && out[i].stat.min <= out[j].stat.max
      && out[i].stat.min in load.arr.data && out[j].stat.max in load.arr.data
      && (forall x :: x in load.arr.data ==> out[i].stat.min <= x <= out[j].stat.max)
  {
    var out := Report(path, load, maxElements, showStats, showSample);
    StatisticsOnlyForNumeric(path, load, maxElements, showStats, showSample);
    assert IsMin(out[i]);
    assert Succeeds(load, showStats) && StatsShown(load.arr, showStats);
    var a := load.arr;
    var facts := Facts(path, a);
    var st := StatsItems(a.data);
    var sa := SamplePart(a, maxElements, showSample);
    var fi := FieldItems(a.kind);
    assert out == facts + st + sa + fi;
    MinMaxLocated(facts, a.data, sa, fi, i, j);
  }

  /** Helper: in a report with statistics, the minimum line holds `Min` and
      the maximum line holds `Max` of the elements. */
  lemma MinMaxLocated(facts: seq<Item>, data: seq<int>, sa: seq<Item>, fi: seq<Item>, i: nat, j: nat)
    requires |data| > 0
    requires AllIn(facts, 1) && AllIn(sa, 3) && AllIn(fi, 4)
    requires var out := facts + StatsItems(data) + sa + fi;
      i < |out| && j < |out| && IsMin(out[i]) && out[j].Stat? && out[j].stat.MaxValue?
    ensures var out := facts + StatsItems(data) + sa + fi;
      out[i] == Stat(MinValue(Min(data))) && out[j] == Stat(MaxValue(Max(data)))
  {
    var st := StatsItems(data);
    LineOfStatsPart(facts, st, sa, fi, i);
    LineOfStatsPart(facts, st, sa, fi, j);
    StatsLine(data, i - |facts|);
    StatsLine(data, j - |facts|);
  }

  /** Helper: line k of the statistics section, by its kind. */
  lemma StatsLine(s: seq<int>, k: nat)
    requires |s| > 0 && k < |StatsItems(s)|
    ensures var items := StatsItems(s);
      && (IsMin(items[k]) ==> k == 1 && items[k] == Stat(MinValue(Min(s))))
      && (items[k].Stat? && items[k].stat.MaxValue? ==> k == 2 && items[k] == Stat(MaxValue(Max(s))))
      && (IsUnique(items[k]) ==> k == 5 && items[k] == UniqueLine(s)[0])
  {
    var items := StatsItems(s);
    if k < 5 {
      assert items[k] == ReductionLines(s)[k];
    } else {
      assert items[k] == UniqueLine(s)[k - 5];
    }
  }

  /** Helper: in a report made of facts, statistics, sample and field parts,
      a statistics line is a line of the statistics part. */
  lemma LineOfStatsPart(facts: seq<Item>, st: seq<Item>, sa: seq<Item>, fi: seq<Item>, k: nat)
    requires AllIn(facts, 1) && AllIn(st, 2) && AllIn(sa, 3) && AllIn(fi, 4)
    requires k < |facts + st + sa + fi| && Section((facts + st + sa + fi)[k]) == 2
    ensures |facts| <= k < |facts| + |st| && (facts + st + sa + fi)[k] == st[k - |facts|]
  {
    var out := facts + st + sa + fi;
    assert forall m :: 0 <= m < |facts| ==> out[m] == facts[m];
    assert forall m :: |facts| + |st| <= m < |facts| + |st| + |sa| ==> out[m] == sa[m - |facts| - |st|];
    assert forall m :: |facts| + |st| + |sa| <= m < |out| ==> out[m] == fi[m - |facts| - |st| - |sa|];
  }

  /** A unique-values line. */
  predicate IsUnique(it: Item) {
    it.Stat? && it.stat.UniqueValues?
  }

  /** The unique-values line appears exactly when statistics are shown for a
      non-empty array of at most 1000 elements with at most 20 distinct
      values; it lists the distinct values ascending, each once, and its count
      equals the length of that list. */
  lemma UniqueValuesReported(path: string, load: Load, maxElements: nat, showStats: bool, showSample: bool)
    requires load.Loaded? ==> load.arr.Valid()
    ensures var out := Report(path, load, maxElements, showStats, showSample);
      && ((exists k :: 0 <= k < |out| && IsUnique(out[k])) <==>
          && Succeeds(load, showStats) && StatsShown(load.arr, showStats)
          && load.arr.Size() <= UniqueSizeLimit
          && |Distinct(load.arr.data)| <= UniqueCountLimit)
      && (forall k :: 0 <= k < |out| && IsUnique(out[k]) ==>
          && out[k].stat.count == |out[k].stat.values| == |Distinct(load.arr.data)|
          && Increasing(out[k].stat.values)
          && (forall y :: y in out[k].stat.values <==> y in load.arr.data))
  {
    var out := Report(path, load, maxElements, showStats, showSample);
    if Succeeds(load, showStats) && StatsShown(load.arr, showStats) {
      var a := load.arr;
      var facts := Facts(path, a);
      var sa := SamplePart(a, maxElements, showSample);
      var fi := FieldItems(a.kind);
      assert out == facts + StatsItems(a.data) + sa + fi;
      UniqueReportedInParts(facts, a.data, sa, fi);
    } else if !load.Loaded? || !StatsShown(load.arr, showStats) {
      StatisticsOnlyForNumeric(path, load, maxElements, showStats, showSample);
      assert forall k :: 0 <= k < |out| ==> !IsUnique(out[k]);
    } else {
      NoUniqueLineOnFailure(path, load.arr, maxElements, showStats, showSample);
    }
  }

  /** Helper: `UniqueValuesReported` for a report with statistics, given by
      its parts. */
  lemma UniqueReportedInParts(facts: seq<Item>, data: seq<int>, sa: seq<Item>, fi: seq<Item>)
    requires |data| > 0
    requires AllIn(facts, 1) && AllIn(sa, 3) && AllIn(fi, 4)
    ensures var out := facts + StatsItems(data) + sa + fi;
      && ((exists k :: 0 <= k < |out| && IsUnique(out[k])) <==>
          |data| <= UniqueSizeLimit && |Distinct(data)| <= UniqueCountLimit)
      && (forall k :: 0 <= k < |out| && IsUnique(out[k]) ==>
          && out[k].stat.count == |out[k].stat.values| == |Distinct(data)|
          && Increasing(out[k].stat.values)
          && (forall y :: y in out[k].stat.values <==> y in data))
  {
    var out := facts + StatsItems(data) + sa + fi;
    UniqueInParts(facts, data, sa, fi);
    UniqueLineLists(data);
    if UniqueLine(data) != [] {
      assert IsUnique(out[|facts| + 5]);
    }
  }

  /** Helper: a report whose reductions failed lists no unique values. */
  lemma NoUniqueLineOnFailure(path: string, a: NdArray, maxElements: nat, showStats: bool, showSample: bool)
    requires a.Valid() && !Succeeds(Loaded(a), showStats)
    ensures var out := Report(path, Loaded(a), maxElements, showStats, showSample);
      forall k :: 0 <= k < |out| ==> !IsUnique(out[k])
  {
    var out := Report(path, Loaded(a), maxElements, showStats, showSample);
    var facts := Facts(path, a);
    assert out == facts + EmptyReductionLines;
    assert forall m :: 0 <= m < |facts| ==> out[m] == facts[m];
    assert forall m :: |facts| <= m < |out| ==> out[m] == EmptyReductionLines[m - |facts|];
  }

  /** Helper: where the unique-values line sits in a report with statistics. */
  lemma UniqueLineLocated(path: string, a: NdArray, maxElements: nat, showStats: bool, showSample: bool)
    requires a.Valid() && Succeeds(Loaded(a), showStats) && StatsShown(a, showStats)
    ensures var out := Report(path, Loaded(a), maxElements, showStats, showSample);
      var un := UniqueLine(a.data);
      && (un != [] ==> |Facts(path, a)| + 5 < |out| && out[|Facts(path, a)| + 5] == un[0])
      && (forall k :: 0 <= k < |out| && IsUnique(out[k]) ==> un != [] && out[k] == un[0])
  {
    var facts := Facts(path, a);
    var sa := SamplePart(a, maxElements, showSample);
    var fi := FieldItems(a.kind);
    assert Report(path, Loaded(a), maxElements, showStats, showSample) == facts + StatsItems(a.data) + sa + fi;
    UniqueInParts(facts, a.data, sa, fi);
  }

  /** Helper: `UniqueLineLocated` for a report given by its parts. */
  lemma UniqueInParts(facts: seq<Item>, data: seq<int>, sa: seq<Item>, fi: seq<Item>)
    requires |data| > 0
    requires AllIn(facts, 1) && AllIn(sa, 3) && AllIn(fi, 4)
    ensures var out := facts + StatsItems(data) + sa + fi;
      var un := UniqueLine(data);
      && (un != [] ==> |facts| + 5 < |out| && out[|facts| + 5] == un[0])
      && (forall k :: 0 <= k < |out| && IsUnique(out[k]) ==> un != [] && out[k] == un[0])
  {
    var st := StatsItems(data);
    var out := facts + st + sa + fi;
    var un := UniqueLine(data);
    if un != [] {
      assert out[|facts| + 5] == st[5] == un[0];
    }
    forall k | 0 <= k < |out| && IsUnique(out[k])
      ensures un != [] && out[k] == un[0]
    {
      LineOfStatsPart(facts, st, sa, fi, k);
      StatsLine(data, k - |facts|);
    }
  }


  /** An empty array's sample section is the empty note alone (no head, tail
      or corner), unless statistics are computed for it: then `np.min` fails
      first and the report stops before any sample line is printed. */
  lemma EmptyArrayReported(path: string, a: NdArray, maxElements: nat, showStats: bool, showSample: bool)
    requires a.Valid() && a.Size() == 0
    ensures var out := Report(path, Loaded(a), maxElements, showStats, showSample);
      if StatsShown(a, showStats) then
        && out == Facts(path, a) + [Stat(StatsHeader), Error(LoadingError(EmptyReduction))]
        && (forall k :: 0 <= k < |out| ==> Section(out[k]) != 3)
      else
        && (forall k :: 0 <= k < |out| && Section(out[k]) == 3 ==>
            out[k] == Sample(SampleHeader(maxElements)) || out[k] == Sample(EmptyNote))
        && (showSample <==> Sample(EmptyNote) in out)
  {
    var out := Report(path, Loaded(a), maxElements, showStats, showSample);
    var facts := Facts(path, a);
    if !StatsShown(a, showStats) {
      var sa := SamplePart(a, maxElements, showSample);
      var fi := FieldItems(a.kind);
      assert out == facts + [] + sa + fi;
      if showSample {
        assert out[|facts| + 1] == Sample(EmptyNote);
      }
      forall k | 0 <= k < |out| && Section(out[k]) == 3
        ensures out[k] == Sample(SampleHeader(maxElements)) || out[k] == Sample(EmptyNote)
      {
        assert |facts| <= k < |facts| + |sa|;
      }
    }
  }

  /** The field listing names, line by line, the field at the same position of
      the declaration, so every field is listed exactly once, in declaration
      order, with its type tag. */
  lemma FieldLinesListEachOnce(fields: seq<Field>)
    requires DistinctNames(fields)
    ensures var lines := FieldLines(fields);
      && |lines| == |fields|
      && (forall k :: 0 <= k < |lines| ==> lines[k] == Fields(FieldLine(fields[k].name, fields[k].dtype)))
      && (forall i, k :: 0 <= i < |fields| && 0 <= k < |lines| ==>
          (lines[k].entry.name == fields[i].name <==> k == i))
  {
  }

  /** A structured array's report always ends with its field listing, whatever
      `max_elements`, `show_stats` and `show_sample` are; other arrays' reports
      have no field listing. */
  lemma FieldsAlwaysListed(path: string, a: NdArray, maxElements: nat, showStats: bool, showSample: bool)
    requires a.Valid()
    ensures var out := Report(path, Loaded(a), maxElements, showStats, showSample);
      if a.kind.Structured? then
        && Succeeds(Loaded(a), showStats)
        && |out| > |a.kind.fields|
        && out[|out| - |a.kind.fields| - 1..] == [Fields(FieldsHeader)] + FieldLines(a.kind.fields)
      else
        forall k :: 0 <= k < |out| ==> Section(out[k]) != 4
  {
    var out := Report(path, Loaded(a), maxElements, showStats, showSample);
    var facts := Facts(path, a);
    if Succeeds(Loaded(a), showStats) {
      var st := StatsPart(a, showStats);
      var sa := SamplePart(a, maxElements, showSample);
      var fi := FieldItems(a.kind);
      assert out == (facts + st + sa) + fi;
    } else {
      assert out == facts + EmptyReductionLines;
    }
  }

  /** The 1-D sample: the first min(max_elements, size) elements, then, only
      when elements remain, "..." and the last min(5, size - max_elements)
      elements, which start at or after index max_elements. */
  lemma OneDimSample(a: NdArray, maxElements: nat)
    requires a.Valid() && a.NDim() == 1 && a.Size() > 0
    ensures var n := |a.data|;
      var t := if n > maxElements then MinNat(TailLength, n - maxElements) else 0;
      && SampleItems(a, maxElements) ==
         [Sample(SampleHeader(maxElements)), Sample(Head(a.data[..MinNat(maxElements, n)]))]
         + (if n > maxElements then [Sample(Ellipsis), Sample(Tail(a.data[n - t..]))] else [])
      && (n > maxElements ==> maxElements <= n - t && 1 <= t <= TailLength)
  {
  }

  /** The 2-D sample: the corner block `Corner` computes (min(max_elements,
      shape[0]) rows, min(10, shape[1]) columns, entry (i, j) the row-major
      element i * shape[1] + j), then "..." exactly when a row or a column is
      left out. */
  lemma TwoDimSample(a: NdArray, maxElements: nat)
    requires a.Valid() && a.NDim() == 2 && a.Size() > 0
    ensures |a.data| == a.shape[0] * a.shape[1]
    ensures var b := Corner(a.data, a.shape[0], a.shape[1], maxElements);
      SampleItems(a, maxElements) ==
        [Sample(SampleHeader(maxElements)), Sample(CornerBlock(b.rows, b.cols, b.cells))]
        + (if a.shape[0] > maxElements || a.shape[1] > MaxColumns then [Sample(Ellipsis)] else [])
  {
    SampleStep(a);
  }

  /** The sample of a 0-d scalar or of an array of 3 or more dimensions: the
      shape, then the first min(max_elements, size) elements in row-major
      order, then "..." exactly when elements remain; never a tail. A 0-d
      scalar has exactly one element. */
  lemma FlatSample(a: NdArray, maxElements: nat)
    requires a.Valid() && a.NDim() != 1 && a.NDim() != 2 && a.Size() > 0
    ensures a.NDim() == 0 ==> a.Size() == 1
    ensures SampleItems(a, maxElements) ==
      [Sample(SampleHeader(maxElements)), Sample(FlatShape(a.shape)),
       Sample(FlatHead(a.data[..MinNat(maxElements, |a.data|)]))]
      + (if |a.data| > maxElements then [Sample(Ellipsis)] else [])
  {
  }

  /** Worked examples: 25 elements with max_elements 10 show elements 0..9,
      "..." and elements 20..24; 8 elements show all 8 and nothing else. */
  lemma OneDimExamples(data25: seq<int>, data8: seq<int>)
    requires |data25| == 25 && |data8| == 8
    ensures SampleItems(NdArray(Numeric, [25], data25, 8), 10) ==
      [Sample(SampleHeader(10)), Sample(Head(data25[..10])), Sample(Ellipsis), Sample(Tail(data25[20..]))]
    ensures SampleItems(NdArray(Numeric, [8], data8, 8), 10) ==
      [Sample(SampleHeader(10)), Sample(Head(data8))]
  {
    OneDimSample(NdArray(Numeric, [25], data25, 8), 10);
    OneDimSample(NdArray(Numeric, [8], data8, 8), 10);
    assert data8[..8] == data8;
  }

  /** Worked examples: a 50 x 20 array shows a 10 x 10 corner and "..."; a
      2 x 3 x 4 array shows its first 10 elements flattened and "...". */
  lemma MultiDimExamples(data1000: seq<int>, data24: seq<int>)
    requires |data1000| == 1000 && |data24| == 24
    ensures var b := Corner(data1000, 50, 20, 10);
      && b.rows == 10 && b.cols == 10
      && SampleItems(NdArray(Numeric, [50, 20], data1000, 8), 10) ==
         [Sample(SampleHeader(10)), Sample(CornerBlock(10, 10, b.cells)), Sample(Ellipsis)]
    ensures SampleItems(NdArray(Numeric, [2, 3, 4], data24, 8), 10) ==
      [Sample(SampleHeader(10)), Sample(FlatShape([2, 3, 4])), Sample(FlatHead(data24[..10])), Sample(Ellipsis)]
  {
    TwoDimSample(NdArray(Numeric, [50, 20], data1000, 8), 10);
    FlatSample(NdArray(Numeric, [2, 3, 4], data24, 8), 10);
  }
}
