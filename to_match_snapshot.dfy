/** The snapshot validator `toMatchSnapshot`, as its two tests pin it down: it
    derives a snapshot name and file path from the test identity, evaluates the
    lazy update-mode capability, calls the injected `compareSnapshot` once and
    maps its answer to the record handed to `control.assert`. */
module Snapshots {
  import opened Common

  const SnapshotDirectory: string := "__snapshots__"
  const SnapshotExtension: string := ".snap"
  const Placeholder: string := "-"
  const MismatchReason: string := "Snapshot doesn't match"

  datatype CompareSnapshotArgs<T> = CompareSnapshotArgs(
    actual: T,
    name: string,
    shouldUpdateSnapshots: bool,
    snapshotFilePath: string)

  datatype CompareSnapshotResult<T> = CompareSnapshotResult(
    success: bool,
    actual: Option<T>,
    expected: Option<T>)

  /** The second argument of `toMatchSnapshot`: the snapshot store's compare
      operation and the lazy update-mode capability. */
  datatype SnapshotOptions<!T> = SnapshotOptions(
    compareSnapshot: CompareSnapshotArgs<T> -> CompareSnapshotResult<T>,
    shouldUpdateSnapshots: () -> bool)

  /** What one `toMatchSnapshot` call hands to its collaborators: the argument
      of its single `compareSnapshot` call and of its single `control.assert` call. */
  datatype SnapshotRun<T> = SnapshotRun(
    compareSnapshotCall: CompareSnapshotArgs<T>,
    assertCall: ValidationResult<T>)

  /** `parts` joined with `sep` between neighbours. */
  function Join(parts: seq<string>, sep: string): string
  {
    if |parts| == 0 then ""
    else if |parts| == 1 then parts[0]
    else parts[0] + sep + Join(parts[1..], sep)
  }

  /** Appending a part adds exactly one separator and the part. */
  lemma {:induction false} JoinAppend(parts: seq<string>, p: string, sep: string)
    requires |parts| > 0
    ensures Join(parts + [p], sep) == Join(parts, sep) + sep + p
  {
    if |parts| > 1 {
      assert (parts + [p])[1..] == parts[1..] + [p];
      JoinAppend(parts[1..], p, sep);
    }
  }

  /** The snapshot name: the suite path segments and the test name, separated
      by single spaces. */
  function SnapshotName(info: TestInfo): string
  {
    Join(info.suitName + [info.testName], " ")
  }

  /** The name is the test name alone at top level, and otherwise the suite
      path's own name, one space, and the test name. */
  lemma SnapshotNameExtendsSuite(info: TestInfo)
    ensures info.suitName == [] ==> SnapshotName(info) == info.testName
    ensures info.suitName != [] ==> SnapshotName(info) == Join(info.suitName, " ") + " " + info.testName
  {
    if info.suitName != [] {
      JoinAppend(info.suitName, info.testName, " ");
    }
  }

  /** The position of the last `c` in `s`, if any. */
  function LastIndexOf(s: string, c: char): (r: Option<nat>)
    ensures r.Some? ==> r.value < |s| && s[r.value] == c && c !in s[r.value + 1..]
    ensures r.None? ==> c !in s
  {
    if |s| == 0 then None
    else if s[|s| - 1] == c then Some(|s| - 1)
    else
      var r := LastIndexOf(s[..|s| - 1], c);
      assert s == s[..|s| - 1] + [s[|s| - 1]];
      r
  }

  /** A path split into its directory part (up to and including the last
      `/`, empty when there is none) and its file name. */
  function SplitDirectory(path: string): (parts: (string, string))
    ensures parts.0 + parts.1 == path
    ensures '/' !in parts.1
    ensures parts.0 == [] || parts.0[|parts.0| - 1] == '/'
  {
    match LastIndexOf(path, '/')
    case None => ("", path)
    case Some(i) =>
      assert path == path[..i + 1] + path[i + 1..];
      (path[..i + 1], path[i + 1..])
  }

  /** A file name without its final extension; a leading dot does not start
      an extension. */
  function BaseName(file: string): (stem: string)
    ensures stem <= file
    ensures stem == file || (0 < |stem| && file[|stem|] == '.' && '.' !in file[|stem| + 1..])
  {
    match LastIndexOf(file, '.')
    case None => file
    case Some(k) => if k > 0 then file[..k] else file
  }

  /** The snapshot file for a test file: in a snapshot sub-directory of the
      test file's directory, named after the test file's base name. */
  function SnapshotFilePath(testFilePath: string): (r: string)
    ensures SplitDirectory(testFilePath).0 + SnapshotDirectory + "/" <= r
    ensures |r| >= |SnapshotExtension| && r[|r| - |SnapshotExtension|..] == SnapshotExtension
  {
    var (dir, file) := SplitDirectory(testFilePath);
    var prefix := dir + SnapshotDirectory + "/" + BaseName(file);
    assert (prefix + SnapshotExtension)[|prefix|..] == SnapshotExtension;
    prefix + SnapshotExtension
  }

  /** The record `toMatchSnapshot` hands to `control.assert` for a given
      answer of `compareSnapshot`. */
  function SnapshotValidation<T>(cmp: CompareSnapshotResult<T>): (r: ValidationResult<T>)
    ensures r.success == cmp.success
    ensures r.negatedReason == Placeholder
    ensures cmp.success ==> r == ValidationResult(true, Placeholder, Placeholder, None, None)
    ensures !cmp.success ==> r.reason == MismatchReason && r.actual == cmp.actual && r.expected == cmp.expected
  {
    if cmp.success then ValidationResult(true, Placeholder, Placeholder, None, None)
    else ValidationResult(false, MismatchReason, Placeholder, cmp.actual, cmp.expected)
  }

  /** `toMatchSnapshot(control, options)`. */
  function ToMatchSnapshot<T>(control: Control<T>, options: SnapshotOptions<T>): (run: SnapshotRun<T>)
    ensures var info := control.testRunnerCtx.testInfo;
      run.compareSnapshotCall.actual == control.actual &&
      run.compareSnapshotCall.name == SnapshotName(info) &&
      run.compareSnapshotCall.snapshotFilePath == SnapshotFilePath(info.testFilePath) &&
      run.compareSnapshotCall.shouldUpdateSnapshots == options.shouldUpdateSnapshots()
    ensures var answer := options.compareSnapshot(run.compareSnapshotCall);
      run.assertCall.success == answer.success &&
      run.assertCall == SnapshotValidation(answer)
  {
    var info := control.testRunnerCtx.testInfo;
    var call := CompareSnapshotArgs(
      control.actual,
      SnapshotName(info),
      options.shouldUpdateSnapshots(),
      SnapshotFilePath(info.testFilePath));
    SnapshotRun(call, SnapshotValidation(options.compareSnapshot(call)))
  }

  /** The control both tests build: actual 'test123', not negated, test
      'works' of suite 'Dummy suit' in '/tests/dummy.test.ts'. */
  function DummyControl(): Control<string>
  {
    Control("test123", false, TestRunnerCtx(TestInfo(["Dummy suit"], "works", "/tests/dummy.test.ts")))
  }

  /** The arguments both tests expect `compareSnapshot` to receive once. */
  function ExpectedCompareCall(): CompareSnapshotArgs<string>
  {
    CompareSnapshotArgs("test123", "Dummy suit works", false, "/tests/__snapshots__/dummy.test.snap")
  }

  /** The snapshot file path assembled from the test file's directory part
      and base name. */
  lemma SnapshotFilePathOfParts(path: string, dir: string, file: string, stem: string)
    requires SplitDirectory(path) == (dir, file) && BaseName(file) == stem
    ensures SnapshotFilePath(path) == dir + SnapshotDirectory + "/" + stem + SnapshotExtension
  {
  }

  lemma DummyTestFileSplits()
    ensures SplitDirectory("/tests/dummy.test.ts") == ("/tests/", "dummy.test.ts")
  {
    var p := "/tests/dummy.test.ts";
    assert p[6] == '/';
    assert forall j :: 7 <= j < |p| ==> p[j] != '/';
    assert LastIndexOf(p, '/') == Some(6);
    assert p[..7] == "/tests/" && p[7..] == "dummy.test.ts";
  }

  lemma DummyTestFileBaseName()
    ensures BaseName("dummy.test.ts") == "dummy.test"
  {
  }

  /** Both tests' test file '/tests/dummy.test.ts' has its snapshots in
      '/tests/__snapshots__/dummy.test.snap'. */
  lemma DummySnapshotFilePath(testFilePath: string)
    requires testFilePath == "/tests/dummy.test.ts"
    ensures SnapshotFilePath(testFilePath) == "/tests/__snapshots__/dummy.test.snap"
  {
    DummyTestFileSplits();
    DummyTestFileBaseName();
    SnapshotFilePathOfParts(testFilePath, "/tests/", "dummy.test.ts", "dummy.test");
  }

  /** Both tests' suite ['Dummy suit'] and test 'works' give the name 'Dummy suit works'. */
  lemma DummySnapshotName(info: TestInfo)
    requires info.suitName == ["Dummy suit"] && info.testName == "works"
    ensures SnapshotName(info) == "Dummy suit works"
  {
    SnapshotNameExtendsSuite(info);
  }

  /** Test 'creates new snapshots': `compareSnapshot` answers success, and the
      validator asserts success with placeholder reasons. */
  lemma CreatesNewSnapshots(control: Control<string>, options: SnapshotOptions<string>)
    requires control == DummyControl()
    requires options.shouldUpdateSnapshots() == false
    requires forall args :: options.compareSnapshot(args) == CompareSnapshotResult(true, None, None)
    ensures var run := ToMatchSnapshot(control, options);
      run.compareSnapshotCall == ExpectedCompareCall() &&
      run.assertCall == ValidationResult(true, "-", "-", None, None)
  {
    DummySnapshotName(control.testRunnerCtx.testInfo);
    DummySnapshotFilePath(control.testRunnerCtx.testInfo.testFilePath);
  }

  /** Test 'matches existing snapshots': `compareSnapshot` answers a mismatch
      of 'test123' against 'abc', and the validator asserts failure with the
      mismatch reason and both payloads. */
  lemma MatchesExistingSnapshots(control: Control<string>, options: SnapshotOptions<string>)
    requires control == DummyControl()
    requires options.shouldUpdateSnapshots() == false
    requires forall args :: options.compareSnapshot(args) == CompareSnapshotResult(false, Some("test123"), Some("abc"))
    ensures var run := ToMatchSnapshot(control, options);
      run.compareSnapshotCall == ExpectedCompareCall() &&
      run.assertCall == ValidationResult(false, "Snapshot doesn't match", "-", Some("test123"), Some("abc"))
  {
    DummySnapshotName(control.testRunnerCtx.testInfo);
    DummySnapshotFilePath(control.testRunnerCtx.testInfo.testFilePath);
  }
}
