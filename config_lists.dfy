/** The two list options of the host runner's configuration that the test
    environment normalises when it is constructed: `setupFiles`, which gets the
    environment's bootstrap file at its front once, and
    `coveragePathIgnorePatterns`, which gets the framework's build directories
    appended once. */
module ConfigLists {
  import opened Wrappers

  /** The default ignore list when the option is missing or not an array. */
  const NodeModules := "node_modules"

  /** The patterns appended to `coveragePathIgnorePatterns`, in this order. */
  const IgnoreCoveragePaths: seq<string> := ["\\.serverless", "\\.serverless_plugins"]

  /** The configuration object handed to the environment. A list field that is
      missing or not an array is `None`. The constructor of the environment
      updates the lists in place. */
  class Config {
    var cwd: Option<string>
    var setupFiles: Option<seq<string>>
    var coveragePathIgnorePatterns: Option<seq<string>>

    constructor (cwd: Option<string>, setupFiles: Option<seq<string>>, coveragePathIgnorePatterns: Option<seq<string>>)
      ensures this.cwd == cwd
      ensures this.setupFiles == setupFiles
      ensures this.coveragePathIgnorePatterns == coveragePathIgnorePatterns
    {
      this.cwd := cwd;
      this.setupFiles := setupFiles;
      this.coveragePathIgnorePatterns := coveragePathIgnorePatterns;
    }
  }

  /** Number of occurrences of `x` in `s`. */
  function Count(s: seq<string>, x: string): nat
  {
    if s == [] then 0 else (if s[0] == x then 1 else 0) + Count(s[1..], x)
  }

  lemma {:induction false} CountZeroIffAbsent(s: seq<string>, x: string)
    ensures Count(s, x) == 0 <==> x !in s
  {
    if s != [] {
      CountZeroIffAbsent(s[1..], x);
      assert s == [s[0]] + s[1..];
    }
  }

  /** `setupFiles` after one construction: an array is kept as is, anything else
      becomes `[]`; then the wrapper path is put in front unless it is already there. */
  function RegisterSetupFile(files: Option<seq<string>>, wrapperPath: string): (r: seq<string>)
    ensures wrapperPath in r
    ensures var before := files.GetOr([]);
      && (wrapperPath in before <==> r == before)
      && (wrapperPath !in before ==> r[0] == wrapperPath && r[1..] == before)
  {
    var current := files.GetOr([]);
    if wrapperPath in current then current else [wrapperPath] + current
  }

  /** The wrapper path ends up in `setupFiles` exactly once when it was absent, and
      its count is untouched when it was already there; the other entries keep
      their order behind it. */
  lemma RegisterSetupFileCount(files: Option<seq<string>>, wrapperPath: string)
    ensures var before := files.GetOr([]);
      var r := RegisterSetupFile(files, wrapperPath);
      && Count(r, wrapperPath) == (if wrapperPath in before then Count(before, wrapperPath) else 1)
      && (wrapperPath !in before ==> r[0] == wrapperPath && r[1..] == before)
      && (wrapperPath in before ==> r == before)
  {
    var before := files.GetOr([]);
    if wrapperPath !in before {
      CountZeroIffAbsent(before, wrapperPath);
      var r := RegisterSetupFile(files, wrapperPath);
      assert r[1..] == before;
    }
  }

  /** A second construction against the same configuration changes nothing. */
  lemma RegisterSetupFileIdempotent(files: Option<seq<string>>, wrapperPath: string)
    ensures RegisterSetupFile(Some(RegisterSetupFile(files, wrapperPath)), wrapperPath)
         == RegisterSetupFile(files, wrapperPath)
  {
  }

  /** `x` after `n` applications of `f`: the state of a configuration object after
      `n` constructions against it. */
  function Iterate<T>(f: T -> T, x: T, n: nat): T
  {
    if n == 0 then x else f(Iterate(f, x, n - 1))
  }

  /** Applying an idempotent step any positive number of times equals applying it once. */
  lemma {:induction false} IterateIdempotent<T>(f: T -> T, x: T, n: nat)
    requires n >= 1
    requires f(f(x)) == f(x)
    ensures Iterate(f, x, n) == f(x)
  {
    if n > 1 {
      IterateIdempotent(f, x, n - 1);
    }
  }

  /** One construction's effect on `setupFiles`. */
  function RegisterStep(wrapperPath: string): Option<seq<string>> -> Option<seq<string>>
  {
    files => Some(RegisterSetupFile(files, wrapperPath))
  }

  /** `setupFiles` after `n` constructions against the same configuration. */
  function RegisterTimes(files: Option<seq<string>>, wrapperPath: string, n: nat): Option<seq<string>>
  {
    Iterate(RegisterStep(wrapperPath), files, n)
  }

  /** Any positive number of constructions has the effect of one; starting from a
      list without the wrapper path (or none at all), it appears exactly once. */
  lemma RegisterSetupFileRepeated(files: Option<seq<string>>, wrapperPath: string, n: nat)
    requires n >= 1
    ensures RegisterTimes(files, wrapperPath, n) == Some(RegisterSetupFile(files, wrapperPath))
    ensures wrapperPath !in files.GetOr([]) ==> Count(RegisterTimes(files, wrapperPath, n).value, wrapperPath) == 1
  {
    RegisterSetupFileIdempotent(files, wrapperPath);
    IterateIdempotent(RegisterStep(wrapperPath), files, n);
    RegisterSetupFileCount(files, wrapperPath);
  }

  /** `r` is `s` with some elements dropped, the rest in their original order. */
  ghost predicate IsSubsequence(r: seq<string>, s: seq<string>)
    decreases |s|
  {
    if r == [] then true
    else if s == [] then false
    else (r[0] == s[0] && IsSubsequence(r[1..], s[1..])) || IsSubsequence(r, s[1..])
  }

  /** No element occurs twice. */
  ghost predicate NoDuplicates(s: seq<string>)
  {
    forall i, j :: 0 <= i < j < |s| ==> s[i] != s[j]
  }

  /** `fixed.filter(item => !present.includes(item))`: exactly the items of `fixed`
      not in `present`, in `fixed`'s order, and without repeats when `fixed` has none. */
  function Missing(fixed: seq<string>, present: seq<string>): (r: seq<string>)
    ensures forall x :: x in r <==> x in fixed && x !in present
    ensures IsSubsequence(r, fixed)
    ensures NoDuplicates(fixed) ==> NoDuplicates(r)
    decreases |fixed|
  {
    if fixed == [] then []
    else
      var rest := Missing(fixed[1..], present);
      if fixed[0] in present then
        assert rest == [] || IsSubsequence(rest, fixed[1..]);
        rest
      else
        var r := [fixed[0]] + rest;
        assert r[0] == fixed[0] && r[1..] == rest;
        assert NoDuplicates(fixed) ==> fixed[0] !in fixed[1..];
        r
  }

  /** `coveragePathIgnorePatterns` after one construction: a missing or non-array
      value becomes `['node_modules']`; then each fixed pattern not yet present is
      appended, in order. Existing entries keep their positions, every fixed
      pattern is present afterwards, and only absent fixed patterns are added. */
  function AddCoverageIgnores(patterns: Option<seq<string>>): (r: seq<string>)
    ensures var before := patterns.GetOr([NodeModules]);
      && |before| <= |r|
      && r[..|before|] == before
      && (forall x :: x in IgnoreCoveragePaths ==> x in r)
      && (forall i :: |before| <= i < |r| ==> r[i] in IgnoreCoveragePaths && r[i] !in before)
      && r[|before|..] == (if IgnoreCoveragePaths[0] in before then [] else [IgnoreCoveragePaths[0]])
                        + (if IgnoreCoveragePaths[1] in before then [] else [IgnoreCoveragePaths[1]])
  {
    var current := patterns.GetOr([NodeModules]);
    var fixed := IgnoreCoveragePaths;
    assert Missing(fixed[2..], current) == [];
    assert Missing(fixed[1..], current) == (if fixed[1] in current then [] else [fixed[1]]) + Missing(fixed[2..], current);
    var r := current + Missing(fixed, current);
    assert r[|current|..] == Missing(fixed, current);
    r
  }

  /** For an empty configuration the ignore list is the default plus both patterns. */
  lemma AddCoverageIgnoresDefault()
    ensures AddCoverageIgnores(None) == ["node_modules", "\\.serverless", "\\.serverless_plugins"]
  {
    var present := [NodeModules];
    assert IgnoreCoveragePaths[0] !in present && IgnoreCoveragePaths[1] !in present;
    assert Missing(IgnoreCoveragePaths[2..], present) == [];
    assert Missing(IgnoreCoveragePaths[1..], present) == [IgnoreCoveragePaths[1]];
  }

  /** Nothing is missing once every fixed item is present. */
  lemma {:induction false} MissingNoneWhenPresent(fixed: seq<string>, present: seq<string>)
    requires forall x :: x in fixed ==> x in present
    ensures Missing(fixed, present) == []
  {
    if fixed != [] {
      assert fixed[0] in fixed;
      MissingNoneWhenPresent(fixed[1..], present);
    }
  }

  /** A second construction against the same configuration leaves the ignore list unchanged. */
  lemma AddCoverageIgnoresIdempotent(patterns: Option<seq<string>>)
    ensures AddCoverageIgnores(Some(AddCoverageIgnores(patterns))) == AddCoverageIgnores(patterns)
  {
    var once := AddCoverageIgnores(patterns);
    MissingNoneWhenPresent(IgnoreCoveragePaths, once);
    assert once + [] == once;
  }

  /** One construction's effect on `coveragePathIgnorePatterns`. */
  function CoverageStep(patterns: Option<seq<string>>): Option<seq<string>>
  {
    Some(AddCoverageIgnores(patterns))
  }

  /** `coveragePathIgnorePatterns` after `n` constructions against the same configuration. */
  function AddCoverageIgnoresTimes(patterns: Option<seq<string>>, n: nat): Option<seq<string>>
  {
    Iterate(CoverageStep, patterns, n)
  }

  /** Any positive number of constructions has the effect of one. */
  lemma AddCoverageIgnoresRepeated(patterns: Option<seq<string>>, n: nat)
    requires n >= 1
    ensures AddCoverageIgnoresTimes(patterns, n) == Some(AddCoverageIgnores(patterns))
  {
    AddCoverageIgnoresIdempotent(patterns);
    IterateIdempotent(CoverageStep, patterns, n);
  }
}
