/** `main`: the command-line entry point around `view_npy_file`. Argument
    parsing and the file-system queries are inputs here: whether the path
    exists, and the path's suffix as `Path.suffix` gives it. */
module Cli {
  import opened NpyArray
  import opened ViewNpy

  /** `str.lower()` on one character, for ASCII letters. */
  function LowerAscii(c: char): char {
    if 'A' <= c <= 'Z' then (c as int + 32) as char else c
  }

  /** `suffix.lower() == '.npy'`: the suffix is ".npy" in any mix of cases. */
  function IsNpySuffix(suffix: string): (b: bool)
    ensures b <==>
      && |suffix| == 4
      && suffix[0] == '.'
      && (suffix[1] == 'n' || suffix[1] == 'N')
      && (suffix[2] == 'p' || suffix[2] == 'P')
      && (suffix[3] == 'y' || suffix[3] == 'Y')
  {
    var lowered := seq(|suffix|, i requires 0 <= i < |suffix| => LowerAscii(suffix[i]));
    if |suffix| == 4 then
      assert lowered == ".npy" <==>
        lowered[0] == '.' && lowered[1] == 'n' && lowered[2] == 'p' && lowered[3] == 'y';
      lowered == ".npy"
    else
      lowered == ".npy"
  }

  /** Runs the viewer as `main` does: a missing path is reported and exits
      with status 1 without looking at the file; a suffix other than ".npy"
      only adds a warning; otherwise the exit status is 1 exactly when
      `view_npy_file` returns False, and 0 when it returns True. */
  method RunViewer(path: string, pathExists: bool, suffix: string, load: Load,
                   maxElements: nat, noStats: bool, noSample: bool)
    returns (out: seq<Item>, status: nat)
    requires load.Loaded? ==> load.arr.Valid()
    ensures !pathExists ==> out == [Error(PathMissing(path))]
    ensures pathExists ==>
      out == (if IsNpySuffix(suffix) then [] else [Note(SuffixWarning(path))])
             + Report(path, load, maxElements, !noStats, !noSample)
    ensures status == (if pathExists && Succeeds(load, !noStats) then 0 else 1)
  {
    if !pathExists {
      return [Error(PathMissing(path))], 1;
    }
    var warning: seq<Item> := [];
    if !IsNpySuffix(suffix) {
      warning := [Note(SuffixWarning(path))];
    }
    var lines, success := ViewNpyFile(path, load, maxElements, !noStats, !noSample);
    out := warning + lines;
    status := if success then 0 else 1;
  }

  /** The exit status agrees with the output: it is 1 exactly when the last
      line printed is an error message. */
  lemma StatusMatchesLastLine(path: string, pathExists: bool, suffix: string, load: Load,
                              maxElements: nat, noStats: bool, noSample: bool)
    requires load.Loaded? ==> load.arr.Valid()
    ensures var out := if !pathExists then [Error(PathMissing(path))]
                       else (if IsNpySuffix(suffix) then [] else [Note(SuffixWarning(path))])
                            + Report(path, load, maxElements, !noStats, !noSample);
      var status := if pathExists && Succeeds(load, !noStats) then 0 else 1;
      && |out| > 0
      && (status == 1 <==> out[|out| - 1].Error?)
  {
    if pathExists {
      SectionsInOrder(path, load, maxElements, !noStats, !noSample);
    }
  }
}
