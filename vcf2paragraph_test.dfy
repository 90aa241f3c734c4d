/**
 * The regression harness for vcf2paragraph.py (src/python/test/test_VCF2Paragraph.py):
 * setUp discovers the fixtures and resolves the hg19 and hg38 references;
 * each test method runs the conversion, pretty-printing and diff commands
 * for each of its fixtures and keeps the output of the first fixture that
 * fails.
 *
 * The host is an input: environment variables, which paths exist and are
 * regular files, what each glob pattern lists, and which shell commands
 * succeed. The repository root and the directory of the test file are
 * parameters; temporary file names come from `tempName`.
 */
module Vcf2ParagraphTest {
  import opened Wrappers
  import opened PyText

  /** Fallback locations of the hg19 and hg38 FASTA files, searched after $HG19 / $HG38. */
  const HG19_LOCATIONS: seq<string> := [
    "/Users/pkrusche/workspace/human_genome/hg19.fa",
    "/illumina/sync/igenomes/Homo_sapiens/UCSC/hg19/Sequence/WholeGenomeFasta/genome.fa",
    "/Users/schen6/Documents/hg19/genome.fa"
  ]
  const HG38_LOCATIONS: seq<string> := [
    "/Users/pkrusche/workspace/human_genome/hg38.fa",
    "/illumina/sync/igenomes/Homo_sapiens/NCBI/GRCh38Decoy/Sequence/WholeGenomeFasta/genome.fa"
  ]

  /** Permissions given to a saved failure artifact (0o777). */
  const ARTIFACT_MODE: nat := 511

  /** The suffix of the pretty-printed copy of a temporary output file. */
  const PRETTY_SUFFIX: string := ".pp.json"

  datatype FileSystem = FileSystem(existing: set<string>, regularFiles: set<string>)

  /** What the harness reads from its host. */
  datatype Host = Host(environ: map<string, string>, fs: FileSystem, glob: string -> seq<string>)

  /** `os.path.exists(f) and os.path.isfile(f)`. */
  predicate IsRegularFile(fs: FileSystem, f: string)
  {
    f in fs.existing && f in fs.regularFiles
  }

  /** Python truthiness of `self.hg19` / `self.hg38`: set, and not the empty string. */
  predicate Truthy(r: Option<string>)
  {
    r.Some? && r.value != ""
  }

  // ---------------------------------------------------------------------------
  // Reference resolution
  // ---------------------------------------------------------------------------

  /** The candidate list: the environment variable first when it is set and non-empty, then the fallbacks. */
  function Locations(environ: map<string, string>, variable: string, fallbacks: seq<string>): seq<string>
  {
    if variable in environ && environ[variable] != "" then [environ[variable]] + fallbacks else fallbacks
  }

  /** The first candidate that exists and is a regular file. */
  function FirstRegularFile(locations: seq<string>, fs: FileSystem): (r: Option<string>)
    ensures r.None? <==> forall i :: 0 <= i < |locations| ==> !IsRegularFile(fs, locations[i])
    ensures r.Some? ==> exists i :: 0 <= i < |locations| && locations[i] == r.value
                                   && IsRegularFile(fs, r.value)
                                   && forall j :: 0 <= j < i ==> !IsRegularFile(fs, locations[j])
    decreases |locations|
  {
    if locations == [] then None
    else if IsRegularFile(fs, locations[0]) then Some(locations[0])
    else
      var r := FirstRegularFile(locations[1..], fs);
      assert forall i :: 1 <= i < |locations| ==> locations[i] == locations[1..][i - 1];
      r
  }

  /** The `for f in locations: ... break` loop of setUp. */
  method ResolveReference(locations: seq<string>, fs: FileSystem) returns (found: Option<string>)
    ensures found == FirstRegularFile(locations, fs)
  {
    found := None;
    var i := 0;
    while i < |locations|
      invariant 0 <= i <= |locations|
      invariant found == None
      invariant FirstRegularFile(locations, fs) == FirstRegularFile(locations[i..], fs)
    {
      var f := locations[i];
      assert locations[i..][1..] == locations[i + 1..];
      if f in fs.existing && f in fs.regularFiles {
        found := Some(f);
        return;
      }
      i := i + 1;
    }
  }

  /** The search for one build: the override inserted at index 0 when set and non-empty, then the loop. */
  method ResolveBuild(host: Host, variable: string, fallbacks: seq<string>) returns (locations: seq<string>, found: Option<string>)
    ensures locations == Locations(host.environ, variable, fallbacks)
    ensures found == FirstRegularFile(locations, host.fs)
  {
    locations := fallbacks;
    if variable in host.environ && host.environ[variable] != "" {
      locations := [host.environ[variable]] + locations;
    }
    found := ResolveReference(locations, host.fs);
  }

  /** A set, non-empty environment override that is a regular file wins over every fallback. */
  lemma EnvironmentOverrideWins(environ: map<string, string>, variable: string, fallbacks: seq<string>, fs: FileSystem)
    requires variable in environ && environ[variable] != "" && IsRegularFile(fs, environ[variable])
    ensures FirstRegularFile(Locations(environ, variable, fallbacks), fs) == Some(environ[variable])
  {
  }

  /** An unset or empty override is ignored: only the fallbacks are searched. */
  lemma UnsetOverrideIgnored(environ: map<string, string>, variable: string, fallbacks: seq<string>, fs: FileSystem)
    requires variable !in environ || environ[variable] == ""
    ensures FirstRegularFile(Locations(environ, variable, fallbacks), fs) == FirstRegularFile(fallbacks, fs)
  {
  }

  /**
   * With non-empty fallbacks, `not self.hg19` after the loop holds exactly
   * when no candidate exists as a regular file.
   */
  lemma {:induction false} ResolvedIsTruthy(environ: map<string, string>, variable: string, fallbacks: seq<string>, fs: FileSystem)
    requires forall i :: 0 <= i < |fallbacks| ==> fallbacks[i] != ""
    ensures var locations := Locations(environ, variable, fallbacks);
      Truthy(FirstRegularFile(locations, fs)) <==> exists i :: 0 <= i < |locations| && IsRegularFile(fs, locations[i])
  {
    var locations := Locations(environ, variable, fallbacks);
    var r := FirstRegularFile(locations, fs);
    if r.Some? {
      var i :| 0 <= i < |locations| && locations[i] == r.value && IsRegularFile(fs, r.value)
               && forall j :: 0 <= j < i ==> !IsRegularFile(fs, locations[j]);
      assert forall k :: 0 <= k < |locations| ==> locations[k] != "" by {
        forall k | 0 <= k < |locations| ensures locations[k] != "" {
          if |locations| != |fallbacks| && k > 0 { assert locations[k] == fallbacks[k - 1]; }
        }
      }
    }
  }

  /** The message of the exception setUp raises when a build cannot be found. */
  function NotFoundMessage(build: string, locations: seq<string>): string
  {
    build + " fasta file not found in expected locations: " + ReprList(locations)
  }

  /** The message names the build and lists every candidate that was searched. */
  lemma NotFoundMessageListsCandidates(build: string, locations: seq<string>, k: nat)
    requires k < |locations|
    ensures Contains(NotFoundMessage(build, locations), Quote(locations[k]))
    ensures NotFoundMessage(build, locations)[..|build|] == build
  {
    ReprListListsAll(locations, k);
    var prefix := build + " fasta file not found in expected locations: ";
    var i: nat :| OccursAt(ReprList(locations), Quote(locations[k]), i);
    OccursAtShift(prefix, ReprList(locations), Quote(locations[k]), i);
  }

  // ---------------------------------------------------------------------------
  // Fixture discovery
  // ---------------------------------------------------------------------------

  /** os.path.join(GRMPY_ROOT, "share", "test-data", "paragraph"). */
  function DataDir(root: string): string
  {
    JoinAll(root, ["share", "test-data", "paragraph"])
  }

  function HaploComplexPattern(dataDir: string): string { dataDir + "/haplo-complex/*.vcf" }
  function PgHetInsPattern(dataDir: string): string { dataDir + "/pg-het-ins/*.vcf" }
  function LongDelPattern(dataDir: string): string { dataDir + "/long-del/chr4-21369091-21376907.vcf" }
  function PgComplexPattern(dataDir: string): string { dataDir + "/pg-complex/*.vcf" }
  function GenotypingPattern(root: string): string { JoinAll(root, ["share", "test-data", "genotyping_test_2", "chr*.vcf"]) }
  function InsertionsPattern(dataDir: string): string { dataDir + "/insertions/*.vcf" }

  /**
   * The haplotype fixtures: haplo-complex, then pg-het-ins, then the long
   * deletion, each listing sorted on its own.
   */
  function HaploFixtures(dataDir: string, glob: string -> seq<string>): seq<string>
  {
    Sort(glob(HaploComplexPattern(dataDir))) + Sort(glob(PgHetInsPattern(dataDir))) + Sort(glob(LongDelPattern(dataDir)))
  }

  /** The allele-graph fixtures: pg-complex, then genotyping_test_2/chr*.vcf, each sorted on its own. */
  function AlleleFixtures(root: string, dataDir: string, glob: string -> seq<string>): seq<string>
  {
    Sort(glob(PgComplexPattern(dataDir))) + Sort(glob(GenotypingPattern(root)))
  }

  /**
   * Each fixture list holds exactly what its globs list, segment by
   * segment in the order of the patterns, each segment sorted.
   */
  lemma FixtureListsCover(root: string, dataDir: string, glob: string -> seq<string>)
    ensures var r, a, b, c := HaploFixtures(dataDir, glob), glob(HaploComplexPattern(dataDir)),
                              glob(PgHetInsPattern(dataDir)), glob(LongDelPattern(dataDir));
      && |r| == |a| + |b| + |c|
      && multiset(r[..|a|]) == multiset(a) && Sorted(r[..|a|])
      && multiset(r[|a|..|a| + |b|]) == multiset(b) && Sorted(r[|a|..|a| + |b|])
      && multiset(r[|a| + |b|..]) == multiset(c) && Sorted(r[|a| + |b|..])
    ensures var r, a, b := AlleleFixtures(root, dataDir, glob), glob(PgComplexPattern(dataDir)), glob(GenotypingPattern(root));
      && |r| == |a| + |b|
      && multiset(r[..|a|]) == multiset(a) && Sorted(r[..|a|])
      && multiset(r[|a|..]) == multiset(b) && Sorted(r[|a|..])
  {
    var a := Sort(glob(HaploComplexPattern(dataDir)));
    var b := Sort(glob(PgHetInsPattern(dataDir)));
    var c := Sort(glob(LongDelPattern(dataDir)));
    assert |multiset(a)| == |a| && |multiset(b)| == |b| && |multiset(c)| == |c|;
    var r := a + b + c;
    assert r[..|a|] == a && r[|a|..|a| + |b|] == b && r[|a| + |b|..] == c;
    var p := Sort(glob(PgComplexPattern(dataDir)));
    var q := Sort(glob(GenotypingPattern(root)));
    assert |multiset(p)| == |p| && |multiset(q)| == |q|;
    assert (p + q)[..|p|] == p && (p + q)[|p|..] == q;
  }

  /** The fixture lists depend on what each glob lists, not on the order it lists it in. */
  lemma FixturesIgnoreGlobOrder(root: string, g1: string -> seq<string>, g2: string -> seq<string>)
    requires forall p :: multiset(g1(p)) == multiset(g2(p))
    ensures HaploFixtures(DataDir(root), g1) == HaploFixtures(DataDir(root), g2)
    ensures AlleleFixtures(root, DataDir(root), g1) == AlleleFixtures(root, DataDir(root), g2)
    ensures Sort(g1(InsertionsPattern(DataDir(root)))) == Sort(g2(InsertionsPattern(DataDir(root))))
  {
    var d := DataDir(root);
    SortIgnoresOrder(g1(HaploComplexPattern(d)), g2(HaploComplexPattern(d)));
    SortIgnoresOrder(g1(PgHetInsPattern(d)), g2(PgHetInsPattern(d)));
    SortIgnoresOrder(g1(LongDelPattern(d)), g2(LongDelPattern(d)));
    SortIgnoresOrder(g1(PgComplexPattern(d)), g2(PgComplexPattern(d)));
    SortIgnoresOrder(g1(GenotypingPattern(root)), g2(GenotypingPattern(root)));
    SortIgnoresOrder(g1(InsertionsPattern(d)), g2(InsertionsPattern(d)));
  }

  // ---------------------------------------------------------------------------
  // Per-category commands
  // ---------------------------------------------------------------------------

  datatype Category = Haplotype | Allele | AlleleInsertion

  /** The shell commands a test runs; quoting and the `python3` prefix are not modelled. */
  datatype Command =
    | Convert(script: string, vcf: string, output: string, reference: string, flags: seq<string>)
    | PrettyPrint(input: string, output: string)     // python3 -mjson.tool --sort-keys input > output
    | Diff(actual: string, expected: string)         // diff --ignore-matching-lines='.*model_name.*' actual expected

  /** A command together with the value `expected_json` has while it runs. */
  datatype Step = Step(command: Command, expected: string)

  /**
   * Whether the command at index `i` of a fixture's steps succeeds. The
   * files earlier commands leave behind are not modelled, so the outcome
   * may depend on the position as well as the text: the insertion test's
   * two pretty-prints read different conversions' output.
   */
  type Shell = (nat, Command) -> bool

  /** What the harness knows when it runs a category: setUp's results, the host's shell, the temporary file names. */
  datatype Context = Context(
    script: string, root: string, hg19: string, hg38: string, testDir: string,
    shell: Shell, tempName: nat -> string)

  function ExpectedJson(x: string): string { Replace(x, ".vcf", ".json") }
  function InsertionReference(x: string): string { Replace(x, ".vcf", ".ref.fa") }
  function NoAltSplitJson(x: string): string { Replace(x, ".vcf", ".noas.json") }

  /** For a fixture "d/name.vcf" with no other ".vcf" in its path, the derived paths substitute the suffix. */
  lemma DerivedPaths(stem: string)
    requires !Contains(stem, ".vcf")
    ensures ExpectedJson(stem + ".vcf") == stem + ".json"
    ensures InsertionReference(stem + ".vcf") == stem + ".ref.fa"
    ensures NoAltSplitJson(stem + ".vcf") == stem + ".noas.json"
  {
    VcfSuffixReplaced(stem, ".json");
    VcfSuffixReplaced(stem, ".ref.fa");
    VcfSuffixReplaced(stem, ".noas.json");
  }

  /**
   * `replace` substitutes every ".vcf" of the fixture path, not only its
   * suffix: a fixture "d.vcf/x.vcf" is compared with "d.json/x.json".
   */
  lemma DerivedPathsReplaceEveryOccurrence(dir: string, name: string)
    requires !Contains(dir, ".vcf") && !Contains(name, ".vcf")
    ensures ExpectedJson(dir + ".vcf" + name + ".vcf") == dir + ".json" + name + ".json"
    ensures InsertionReference(dir + ".vcf" + name + ".vcf") == dir + ".ref.fa" + name + ".ref.fa"
    ensures NoAltSplitJson(dir + ".vcf" + name + ".vcf") == dir + ".noas.json" + name + ".noas.json"
  {
    BothVcfReplaced(dir, name, ".json");
    BothVcfReplaced(dir, name, ".ref.fa");
    BothVcfReplaced(dir, name, ".noas.json");
  }

  function SwapsReference(root: string): string
  {
    JoinAll(root, ["share", "test-data", "genotyping_test_2", "swaps.fa"])
  }

  /** The reference passed with -r: hg19, the genotyping_test_2 swaps or hg38, or the fixture's own .ref.fa. */
  function Reference(c: Category, x: string, ctx: Context): string
  {
    match c
    case Haplotype => ctx.hg19
    case Allele => if Contains(x, "genotyping_test_2") then SwapsReference(ctx.root) else ctx.hg38
    case AlleleInsertion => InsertionReference(x)
  }

  /** The flags after `-r <reference>`; the insertion test runs with and without --alt-splitting. */
  function Flags(c: Category, altSplitting: bool): (r: seq<string>)
    ensures c == Haplotype ==> r == []
    ensures c != Haplotype ==> |r| >= 2 && r[|r| - 2..] == ["-g", "alleles"]
    ensures c == AlleleInsertion ==> ("--alt-splitting" in r <==> altSplitting)
    ensures c == AlleleInsertion && altSplitting ==> r == ["--alt-splitting"] + Flags(c, false)
  {
    match c
    case Haplotype => []
    case Allele => ["-R", "-g", "alleles"]
    case AlleleInsertion =>
      (if altSplitting then ["--alt-splitting"] else [])
      + ["--read-len", "5", "--max-ref-node-length", "10", "--alt-paths",
         "--retrieve-reference-sequence", "-g", "alleles"]
  }

  /** Convert, pretty-print, diff against `expected`. */
  function Check(script: string, x: string, tmp: string, reference: string, flags: seq<string>, expected: string): seq<Step>
  {
    [Step(Convert(script, x, tmp, reference, flags), expected),
     Step(PrettyPrint(tmp, tmp + PRETTY_SUFFIX), expected),
     Step(Diff(tmp + PRETTY_SUFFIX, expected), expected)]
  }

  /** The commands of one fixture, in order, each with the expected file in effect. */
  function Steps(c: Category, x: string, tmp: string, ctx: Context): seq<Step>
  {
    var reference := Reference(c, x, ctx);
    match c
    case Haplotype => Check(ctx.script, x, tmp, reference, Flags(c, false), ExpectedJson(x))
    case Allele => Check(ctx.script, x, tmp, reference, Flags(c, false), ExpectedJson(x))
    case AlleleInsertion =>
      Check(ctx.script, x, tmp, reference, Flags(c, true), ExpectedJson(x))
      + Check(ctx.script, x, tmp, reference, Flags(c, false), NoAltSplitJson(x))
  }

  /** The three commands of one run: each diff compares against the run's expected file. */
  lemma CheckShape(script: string, x: string, tmp: string, reference: string, flags: seq<string>, expected: string)
    ensures var r := Check(script, x, tmp, reference, flags, expected);
      && |r| == 3
      && r[0].command == Convert(script, x, tmp, reference, flags)
      && r[1].command == PrettyPrint(tmp, tmp + PRETTY_SUFFIX)
      && r[2].command == Diff(tmp + PRETTY_SUFFIX, expected)
      && forall i :: 0 <= i < 3 ==> r[i].expected == expected
  {
  }

  /**
   * The commands of a fixture: one run for the haplotype and allele
   * categories, two for insertions (first with --alt-splitting against the
   * .json file, then without it against the .noas.json file); every diff
   * compares against the expected file in effect.
   */
  lemma StepsShape(c: Category, x: string, tmp: string, ctx: Context)
    ensures var r := Steps(c, x, tmp, ctx);
      && |r| == (if c == AlleleInsertion then 6 else 3)
      && (forall i :: 0 <= i < |r| ==> (r[i].command.Convert? <==> i % 3 == 0))
      && (forall i :: 0 <= i < |r| && i % 3 == 1 ==> r[i].command == PrettyPrint(tmp, tmp + PRETTY_SUFFIX))
      && (forall i :: 0 <= i < |r| && i % 3 == 2 ==> r[i].command == Diff(tmp + PRETTY_SUFFIX, r[i].expected))
      && (forall i :: 0 <= i < |r| && r[i].command.Convert? ==>
            r[i].command == Convert(ctx.script, x, tmp, Reference(c, x, ctx), Flags(c, i == 0)))
      && (forall i :: 0 <= i < |r| && r[i].command.Diff? ==> r[i].command.expected == r[i].expected)
      && (forall i :: 0 <= i < |r| ==>
            r[i].expected == if c == AlleleInsertion && i >= 3 then NoAltSplitJson(x) else ExpectedJson(x))
  {
    var reference := Reference(c, x, ctx);
    if c == AlleleInsertion {
      var first := Check(ctx.script, x, tmp, reference, Flags(c, true), ExpectedJson(x));
      var second := Check(ctx.script, x, tmp, reference, Flags(c, false), NoAltSplitJson(x));
      CheckShape(ctx.script, x, tmp, reference, Flags(c, true), ExpectedJson(x));
      CheckShape(ctx.script, x, tmp, reference, Flags(c, false), NoAltSplitJson(x));
      assert forall i :: 3 <= i < 6 ==> (first + second)[i] == second[i - 3];
    } else {
      CheckShape(ctx.script, x, tmp, reference, Flags(c, false), ExpectedJson(x));
    }
  }

  /** The Allele reference is the swaps FASTA exactly when the fixture path names genotyping_test_2. */
  lemma ReferenceChoice(c: Category, x: string, ctx: Context)
    ensures Reference(c, x, ctx) == match c
      case Haplotype => ctx.hg19
      case Allele => if exists i: nat :: OccursAt(x, "genotyping_test_2", i) then SwapsReference(ctx.root) else ctx.hg38
      case AlleleInsertion => InsertionReference(x)
  {
  }

  // ---------------------------------------------------------------------------
  // Running one fixture
  // ---------------------------------------------------------------------------

  /** Effects on the host, in order. */
  datatype Event =
    | Ran(command: Command)
    | CopyArtifact(source: string, target: string)
    | Chmod(path: string, mode: nat)
    | Remove(path: string)

  datatype FixtureResult = FixtureResult(events: seq<Event>, passed: bool)

  /** The index of the first command at or after `i` that fails, or |steps| when all succeed (check_call raises at the first). */
  function FirstFailure(steps: seq<Step>, shell: Shell, i: nat): (k: nat)
    ensures k <= |steps|
    ensures forall j :: i <= j < k ==> shell(j, steps[j].command)
    ensures k < |steps| ==> i <= k && !shell(k, steps[k].command)
    decreases |steps| - i
  {
    if i >= |steps| then |steps|
    else if !shell(i, steps[i].command) then i
    else FirstFailure(steps, shell, i + 1)
  }

  function ArtifactPrefix(c: Category): string
  {
    match c
    case Haplotype => "test-failed-haplotype."
    case Allele => "test-failed-allele."
    case AlleleInsertion => "test-failed-allele-ins."
  }

  /** Where a failing fixture's pretty-printed output is saved. */
  function ArtifactPath(c: Category, testDir: string, expected: string): string
  {
    Join(testDir, ArtifactPrefix(c) + BaseName(expected))
  }

  lemma PrefixHasNoSeparator(c: Category)
    ensures NoSeparator(ArtifactPrefix(c))
  {
    var prefix := ArtifactPrefix(c);
    assert '/' !in prefix;
    forall i | 0 <= i < |prefix| ensures prefix[i] != '/' {
      assert prefix[i] in prefix;
    }
  }

  /** The saved artifact is named by its category and the base name of the expected file. */
  lemma ArtifactName(c: Category, testDir: string, expected: string)
    ensures BaseName(ArtifactPath(c, testDir, expected)) == ArtifactPrefix(c) + BaseName(expected)
  {
    PrefixHasNoSeparator(c);
    NoSeparatorConcat(ArtifactPrefix(c), BaseName(expected));
    BaseNameOfJoin(testDir, ArtifactPrefix(c) + BaseName(expected));
  }

  /**
   * Running a fixture's commands from index `i` on: those up to the first
   * failure; on a failure the copy of the pretty-printed output, named
   * after the failing command's expected file, and its chmod; in every
   * case the removal of both temporary files.
   */
  function RunSteps(c: Category, steps: seq<Step>, i: nat, tmp: string, ctx: Context): (r: FixtureResult)
    decreases |steps| - i
  {
    if i >= |steps| then
      FixtureResult([Remove(tmp), Remove(tmp + PRETTY_SUFFIX)], true)
    else if !ctx.shell(i, steps[i].command) then
      var target := ArtifactPath(c, ctx.testDir, steps[i].expected);
      FixtureResult([Ran(steps[i].command), CopyArtifact(tmp + PRETTY_SUFFIX, target), Chmod(target, ARTIFACT_MODE),
                     Remove(tmp), Remove(tmp + PRETTY_SUFFIX)], false)
    else
      var rest := RunSteps(c, steps, i + 1, tmp, ctx);
      var events := [Ran(steps[i].command)] + rest.events;
      FixtureResult(events, rest.passed)
  }

  /** Whatever happens, the `finally` clause removes the temporary file and its pretty-printed copy last. */
  lemma {:induction false} RunStepsRemovesTemporaries(c: Category, steps: seq<Step>, i: nat, tmp: string, ctx: Context)
    ensures var events := RunSteps(c, steps, i, tmp, ctx).events;
      |events| >= 2 && events[|events| - 2..] == [Remove(tmp), Remove(tmp + PRETTY_SUFFIX)]
    decreases |steps| - i
  {
    if i < |steps| && ctx.shell(i, steps[i].command) {
      RunStepsRemovesTemporaries(c, steps, i + 1, tmp, ctx);
      var rest := RunSteps(c, steps, i + 1, tmp, ctx).events;
      var events := [Ran(steps[i].command)] + rest;
      assert events[|events| - 2..] == rest[|rest| - 2..];
    }
  }

  /** A fixture passes exactly when every one of its commands from `i` on succeeds. */
  lemma {:induction false} RunStepsPassedIff(c: Category, steps: seq<Step>, i: nat, tmp: string, ctx: Context)
    ensures RunSteps(c, steps, i, tmp, ctx).passed <==> forall j :: i <= j < |steps| ==> ctx.shell(j, steps[j].command)
    decreases |steps| - i
  {
    if i < |steps| && ctx.shell(i, steps[i].command) {
      RunStepsPassedIff(c, steps, i + 1, tmp, ctx);
    }
  }

  /** A fixture fails exactly when one of its commands fails. */
  lemma RunStepsFailsAtFirstFailure(c: Category, steps: seq<Step>, i: nat, tmp: string, ctx: Context)
    ensures RunSteps(c, steps, i, tmp, ctx).passed <==> FirstFailure(steps, ctx.shell, i) == |steps|
  {
    RunStepsPassedIff(c, steps, i, tmp, ctx);
    var k := FirstFailure(steps, ctx.shell, i);
    if k < |steps| {
      assert !ctx.shell(k, steps[k].command);
    }
  }

  /** A passing fixture saves no artifact. */
  lemma {:induction false} RunStepsPassedSavesNothing(c: Category, steps: seq<Step>, i: nat, tmp: string, ctx: Context)
    requires RunSteps(c, steps, i, tmp, ctx).passed
    ensures forall e :: e in RunSteps(c, steps, i, tmp, ctx).events ==> !e.CopyArtifact?
    decreases |steps| - i
  {
    var r := RunSteps(c, steps, i, tmp, ctx);
    if i >= |steps| {
      assert r.events == [Remove(tmp), Remove(tmp + PRETTY_SUFFIX)];
    } else {
      var rest := RunSteps(c, steps, i + 1, tmp, ctx);
      assert ctx.shell(i, steps[i].command) && r.events == [Ran(steps[i].command)] + rest.events;
      RunStepsPassedSavesNothing(c, steps, i + 1, tmp, ctx);
      forall e | e in r.events ensures !e.CopyArtifact? {
        if e != Ran(steps[i].command) {
          assert e in rest.events;
        }
      }
    }
  }

  /** A failing fixture saves its output under the name of the failing command's expected file. */
  lemma {:induction false} RunStepsSavesArtifact(c: Category, steps: seq<Step>, i: nat, tmp: string, ctx: Context)
    requires !RunSteps(c, steps, i, tmp, ctx).passed
    ensures var k := FirstFailure(steps, ctx.shell, i);
      && k < |steps|
      && CopyArtifact(tmp + PRETTY_SUFFIX, ArtifactPath(c, ctx.testDir, steps[k].expected)) in RunSteps(c, steps, i, tmp, ctx).events
    decreases |steps| - i
  {
    if i < |steps| && ctx.shell(i, steps[i].command) {
      RunStepsSavesArtifact(c, steps, i + 1, tmp, ctx);
    }
  }

  /** One iteration of a test method's loop. */
  function RunFixture(c: Category, x: string, tmp: string, ctx: Context): FixtureResult
  {
    RunSteps(c, Steps(c, x, tmp, ctx), 0, tmp, ctx)
  }

  /**
   * A failing fixture's artifact is named after the expected file of the
   * failing command: the insertion test's second run saves under the
   * .noas.json name.
   */
  lemma FailureArtifactTarget(c: Category, x: string, tmp: string, ctx: Context)
    requires !RunFixture(c, x, tmp, ctx).passed
    ensures var steps := Steps(c, x, tmp, ctx);
      var k := FirstFailure(steps, ctx.shell, 0);
      && k < |steps|
      && CopyArtifact(tmp + PRETTY_SUFFIX,
           ArtifactPath(c, ctx.testDir, if c == AlleleInsertion && k >= 3 then NoAltSplitJson(x) else ExpectedJson(x)))
         in RunFixture(c, x, tmp, ctx).events
  {
    var steps := Steps(c, x, tmp, ctx);
    StepsShape(c, x, tmp, ctx);
    RunStepsSavesArtifact(c, steps, 0, tmp, ctx);
    var k := FirstFailure(steps, ctx.shell, 0);
    assert steps[k].expected == if c == AlleleInsertion && k >= 3 then NoAltSplitJson(x) else ExpectedJson(x);
  }

  /**
   * The insertion test's second pretty-print is the same command as its
   * first, yet it runs on the second conversion's output and can fail on
   * its own: the fixture then fails at step 4 and saves under the
   * .noas.json name.
   */
  lemma InsertionSecondPrettyPrintFails(x: string, tmp: string, ctx: Context)
    requires forall j, cmd :: ctx.shell(j, cmd) <==> j != 4
    ensures var steps := Steps(AlleleInsertion, x, tmp, ctx);
      && steps[1].command == steps[4].command
      && FirstFailure(steps, ctx.shell, 0) == 4
      && !RunFixture(AlleleInsertion, x, tmp, ctx).passed
      && CopyArtifact(tmp + PRETTY_SUFFIX, ArtifactPath(AlleleInsertion, ctx.testDir, NoAltSplitJson(x)))
         in RunFixture(AlleleInsertion, x, tmp, ctx).events
  {
    var steps := Steps(AlleleInsertion, x, tmp, ctx);
    StepsShape(AlleleInsertion, x, tmp, ctx);
    assert !ctx.shell(4, steps[4].command);
    RunStepsFailsAtFirstFailure(AlleleInsertion, steps, 0, tmp, ctx);
    FailureArtifactTarget(AlleleInsertion, x, tmp, ctx);
  }


  // ---------------------------------------------------------------------------
  // Running a category
  // ---------------------------------------------------------------------------

  datatype Verdict = Passed | FixtureFailed(index: nat) | NoFixtures

  datatype TestResult = TestResult(events: seq<Event>, verdict: Verdict)

  /** How a category runs the fixture `x` found at index `j` of its list. */
  function FixtureRunner(c: Category, ctx: Context): (nat, string) -> FixtureResult
  {
    (j: nat, x: string) => RunFixture(c, x, ctx.tempName(j), ctx)
  }

  /** The outcome of every fixture, fixture `j` run as `run(j, fixtures[j])`. */
  function Outcomes(fixtures: seq<string>, run: (nat, string) -> FixtureResult): (rs: seq<FixtureResult>)
    ensures |rs| == |fixtures|
  {
    seq(|fixtures|, j requires 0 <= j < |fixtures| => run(j, fixtures[j]))
  }

  /** The outcome of every fixture of a category, fixture `j` using temporary name `tempName(j)`. */
  function Results(c: Category, fixtures: seq<string>, ctx: Context): (rs: seq<FixtureResult>)
    ensures |rs| == |fixtures|
  {
    Outcomes(fixtures, FixtureRunner(c, ctx))
  }

  /**
   * A category passes exactly when every command of every fixture
   * succeeds, fixture `j` running with temporary name `tempName(j)`; when
   * it fails, the failing fixture has a failing command and every earlier
   * fixture ran all of its commands successfully.
   */
  lemma CategoryPassedIff(c: Category, fixtures: seq<string>, ctx: Context)
    ensures RunFrom(Results(c, fixtures, ctx), 0).verdict.Passed? <==>
      forall j, i :: 0 <= j < |fixtures| && 0 <= i < |Steps(c, fixtures[j], ctx.tempName(j), ctx)| ==>
        ctx.shell(i, Steps(c, fixtures[j], ctx.tempName(j), ctx)[i].command)
    ensures var v := RunFrom(Results(c, fixtures, ctx), 0).verdict;
      v.FixtureFailed? ==>
        && v.index < |fixtures|
        && FirstFailure(Steps(c, fixtures[v.index], ctx.tempName(v.index), ctx), ctx.shell, 0)
             < |Steps(c, fixtures[v.index], ctx.tempName(v.index), ctx)|
        && forall j, i :: 0 <= j < v.index && 0 <= i < |Steps(c, fixtures[j], ctx.tempName(j), ctx)| ==>
             ctx.shell(i, Steps(c, fixtures[j], ctx.tempName(j), ctx)[i].command)
  {
    var rs := Results(c, fixtures, ctx);
    RunFromVerdict(rs, 0);
    forall j | 0 <= j < |fixtures|
      ensures rs[j].passed <==> forall i :: 0 <= i < |Steps(c, fixtures[j], ctx.tempName(j), ctx)| ==>
                ctx.shell(i, Steps(c, fixtures[j], ctx.tempName(j), ctx)[i].command)
      ensures var steps := Steps(c, fixtures[j], ctx.tempName(j), ctx);
        rs[j].passed <==> FirstFailure(steps, ctx.shell, 0) == |steps|
    {
      var tmp := ctx.tempName(j);
      assert rs[j] == RunFixture(c, fixtures[j], tmp, ctx);
      RunStepsPassedIff(c, Steps(c, fixtures[j], tmp, ctx), 0, tmp, ctx);
      RunStepsFailsAtFirstFailure(c, Steps(c, fixtures[j], tmp, ctx), 0, tmp, ctx);
    }
  }

  /** The fixtures from index `i` on, stopping after the first that fails (its exception ends the loop). */
  function RunFrom(rs: seq<FixtureResult>, i: nat): (r: TestResult)
    ensures r.verdict != NoFixtures
    ensures r.verdict.FixtureFailed? ==> i <= r.verdict.index < |rs|
    decreases |rs| - i
  {
    if i >= |rs| then TestResult([], Passed)
    else if !rs[i].passed then TestResult(rs[i].events, FixtureFailed(i))
    else
      var rest := RunFrom(rs, i + 1);
      TestResult(rs[i].events + rest.events, rest.verdict)
  }

  /** A category passes exactly when all its fixtures pass; otherwise it stops at the first that fails. */
  lemma {:induction false} RunFromVerdict(rs: seq<FixtureResult>, i: nat)
    ensures var r := RunFrom(rs, i);
      && (r.verdict.Passed? <==> forall j :: i <= j < |rs| ==> rs[j].passed)
      && (r.verdict.FixtureFailed? ==>
            && !rs[r.verdict.index].passed
            && forall j :: i <= j < r.verdict.index ==> rs[j].passed)
    decreases |rs| - i
  {
    if i < |rs| && rs[i].passed {
      RunFromVerdict(rs, i + 1);
    }
  }

  /** The events are those of the fixtures run, up to and including the first failure. */
  lemma {:induction false} RunFromEvents(rs: seq<FixtureResult>, i: nat)
    requires i <= |rs|
    ensures var r := RunFrom(rs, i);
      var last := if r.verdict.FixtureFailed? then r.verdict.index + 1 else |rs|;
      r.events == Flatten(rs[i..last])
    decreases |rs| - i
  {
    if i < |rs| {
      if rs[i].passed {
        RunFromEvents(rs, i + 1);
        var r := RunFrom(rs, i + 1);
        var last := if r.verdict.FixtureFailed? then r.verdict.index + 1 else |rs|;
        assert rs[i..last][1..] == rs[i + 1..last];
      } else {
        assert rs[i..i + 1][1..] == [];
      }
    }
  }

  function Flatten(rs: seq<FixtureResult>): seq<Event>
  {
    if rs == [] then [] else rs[0].events + Flatten(rs[1..])
  }

  /**
   * The `for x in fixtures` loop of a test method: each fixture is run in
   * turn, and the first that fails ends the loop with its exception.
   */
  method RunLoop(fixtures: seq<string>, run: (nat, string) -> FixtureResult) returns (result: TestResult)
    ensures result == RunFrom(Outcomes(fixtures, run), 0)
  {
    ghost var rs := Outcomes(fixtures, run);
    var events: seq<Event> := [];
    for i := 0 to |fixtures|
      invariant events + RunFrom(rs, i).events == RunFrom(rs, 0).events
      invariant RunFrom(rs, 0).verdict == RunFrom(rs, i).verdict
    {
      var r := run(i, fixtures[i]);
      if !r.passed {
        RunFromStops(rs, i, events);
        return TestResult(events + r.events, FixtureFailed(i));
      }
      RunFromAdvances(rs, i, events);
      events := events + r.events;
    }
    RunFromEnds(rs, events);
    result := TestResult(events, Passed);
  }

  /** A test method's loop over the fixtures of its category. */
  method RunFixtures(c: Category, fixtures: seq<string>, ctx: Context) returns (result: TestResult)
    ensures result == RunFrom(Results(c, fixtures, ctx), 0)
  {
    result := RunLoop(fixtures, FixtureRunner(c, ctx));
  }

  /** The loop's invariant is kept when fixture `i` passes. */
  lemma RunFromAdvances(rs: seq<FixtureResult>, i: nat, events: seq<Event>)
    requires i < |rs| && rs[i].passed
    requires events + RunFrom(rs, i).events == RunFrom(rs, 0).events
    requires RunFrom(rs, 0).verdict == RunFrom(rs, i).verdict
    ensures (events + rs[i].events) + RunFrom(rs, i + 1).events == RunFrom(rs, 0).events
    ensures RunFrom(rs, 0).verdict == RunFrom(rs, i + 1).verdict
  {
    EventsAssociate(events, rs[i].events, RunFrom(rs, i + 1).events);
  }

  /** When fixture `i` fails, what the loop has gathered so far plus its events is the whole outcome. */
  lemma RunFromStops(rs: seq<FixtureResult>, i: nat, events: seq<Event>)
    requires i < |rs| && !rs[i].passed
    requires events + RunFrom(rs, i).events == RunFrom(rs, 0).events
    requires RunFrom(rs, 0).verdict == RunFrom(rs, i).verdict
    ensures TestResult(events + rs[i].events, FixtureFailed(i)) == RunFrom(rs, 0)
  {
  }

  /** After the last fixture, what the loop has gathered is the whole outcome. */
  lemma RunFromEnds(rs: seq<FixtureResult>, events: seq<Event>)
    requires events + RunFrom(rs, |rs|).events == RunFrom(rs, 0).events
    requires RunFrom(rs, 0).verdict == RunFrom(rs, |rs|).verdict
    ensures TestResult(events, Passed) == RunFrom(rs, 0)
  {
    assert events + [] == events;
  }

  lemma EventsAssociate(a: seq<Event>, b: seq<Event>, c: seq<Event>)
    ensures a + b + c == a + (b + c)
  {
  }

  // ---------------------------------------------------------------------------
  // The test case
  // ---------------------------------------------------------------------------

  /** The fixture lists as setUp computes them from the repository root and the globs. */
  predicate FixturesListed(root: string, glob: string -> seq<string>,
                           dataDir: string, haplo: seq<string>, allele: seq<string>, insertions: seq<string>)
  {
    && dataDir == DataDir(root)
    && haplo == HaploFixtures(dataDir, glob)
    && allele == AlleleFixtures(root, dataDir, glob)
    && insertions == Sort(glob(InsertionsPattern(dataDir)))
  }

  /**
   * The outcome of the two reference searches: hg19 is searched first and
   * its failure raises before hg38 is searched; the script path is set
   * only when both were found.
   */
  predicate ReferencesResolved(root: string, host: Host, error: Option<string>,
                               hg19: Option<string>, hg38: Option<string>, script: string)
  {
    var hg19Locations := Locations(host.environ, "HG19", HG19_LOCATIONS);
    var hg38Locations := Locations(host.environ, "HG38", HG38_LOCATIONS);
    && hg19 == FirstRegularFile(hg19Locations, host.fs)
    && (!Truthy(hg19) ==> error == Some(NotFoundMessage("hg19", hg19Locations)))
    && (Truthy(hg19) ==> hg38 == FirstRegularFile(hg38Locations, host.fs))
    && (Truthy(hg19) && !Truthy(hg38) ==> error == Some(NotFoundMessage("hg38", hg38Locations)))
    && (error.None? <==> Truthy(hg19) && Truthy(hg38))
    && (error.None? ==> script == JoinAll(root, ["src", "python", "bin", "vcf2paragraph.py"]))
  }

  class TestVCF2Paragraph {
    var testDataDir: string
    var testHaploVcfs: seq<string>
    var testAlleleVcfs: seq<string>
    var testInsertionVcfs: seq<string>
    var hg19: Option<string>
    var hg38: Option<string>
    var vcf2paragraph: string

    constructor ()
      ensures hg19 == None && hg38 == None
    {
      testDataDir := "";
      testHaploVcfs, testAlleleVcfs, testInsertionVcfs := [], [], [];
      hg19, hg38 := None, None;
      vcf2paragraph := "";
    }

    /** setUp completed: both references resolved. */
    predicate Ready()
      reads this`hg19, this`hg38
    {
      Truthy(hg19) && Truthy(hg38)
    }

    /**
     * setUp: lists the fixtures and resolves hg19, then hg38; returns the
     * message of the exception it raises when one of them is not found.
     */
    method SetUp(root: string, host: Host) returns (error: Option<string>)
      modifies this
      ensures FixturesListed(root, host.glob, testDataDir, testHaploVcfs, testAlleleVcfs, testInsertionVcfs)
      ensures ReferencesResolved(root, host, error, hg19, hg38, vcf2paragraph)
      ensures !Truthy(hg19) ==> hg38 == old(hg38)
      ensures error.Some? ==> vcf2paragraph == old(vcf2paragraph)
    {
      ListFixtures(root, host.glob);
      error := ResolveReferences(root, host);
    }

    /** The first half of setUp; the listing of the "simple" fixtures is computed and then overwritten. */
    method ListFixtures(root: string, glob: string -> seq<string>)
      modifies this`testDataDir, this`testHaploVcfs, this`testAlleleVcfs, this`testInsertionVcfs
      ensures FixturesListed(root, glob, testDataDir, testHaploVcfs, testAlleleVcfs, testInsertionVcfs)
    {
      testDataDir := DataDir(root);
      testHaploVcfs := Sort(glob(testDataDir + "/simple/*.vcf"));
      testHaploVcfs := Sort(glob(HaploComplexPattern(testDataDir)));
      testHaploVcfs := testHaploVcfs + Sort(glob(PgHetInsPattern(testDataDir)));
      testHaploVcfs := testHaploVcfs + Sort(glob(LongDelPattern(testDataDir)));

      testAlleleVcfs := Sort(glob(PgComplexPattern(testDataDir)));
      testAlleleVcfs := testAlleleVcfs + Sort(glob(GenotypingPattern(root)));

      testInsertionVcfs := Sort(glob(InsertionsPattern(testDataDir)));
    }

    /** The second half of setUp: the hg19 search, the hg38 search, then the script path. */
    method ResolveReferences(root: string, host: Host) returns (error: Option<string>)
      modifies this`hg19, this`hg38, this`vcf2paragraph
      ensures ReferencesResolved(root, host, error, hg19, hg38, vcf2paragraph)
      ensures !Truthy(hg19) ==> hg38 == old(hg38)
      ensures error.Some? ==> vcf2paragraph == old(vcf2paragraph)
    {
      var hg19Locations;
      hg19Locations, hg19 := ResolveBuild(host, "HG19", HG19_LOCATIONS);
      if !Truthy(hg19) {
        error := Some(NotFoundMessage("hg19", hg19Locations));
      } else {
        var hg38Locations;
        hg38Locations, hg38 := ResolveBuild(host, "HG38", HG38_LOCATIONS);
        if !Truthy(hg38) {
          error := Some(NotFoundMessage("hg38", hg38Locations));
        } else {
          vcf2paragraph := JoinAll(root, ["src", "python", "bin", "vcf2paragraph.py"]);
          error := None;
        }
      }
    }

    /** What the test methods run with, once setUp has completed. */
    function Settings(root: string, testDir: string, shell: Shell, tempName: nat -> string): Context
      reads this
      requires Ready()
    {
      Context(vcf2paragraph, root, hg19.value, hg38.value, testDir, shell, tempName)
    }

    method TestHaplotypeVcfs(root: string, testDir: string, shell: Shell, tempName: nat -> string)
      returns (result: TestResult)
      requires Ready()
      ensures result == RunFrom(Results(Haplotype, testHaploVcfs, Settings(root, testDir, shell, tempName)), 0)
    {
      result := RunFixtures(Haplotype, testHaploVcfs, Settings(root, testDir, shell, tempName));
    }

    method TestAlleleGraphVcfs(root: string, testDir: string, shell: Shell, tempName: nat -> string)
      returns (result: TestResult)
      requires Ready()
      ensures result == RunFrom(Results(Allele, testAlleleVcfs, Settings(root, testDir, shell, tempName)), 0)
    {
      result := RunFixtures(Allele, testAlleleVcfs, Settings(root, testDir, shell, tempName));
    }

    /** Fails before any command when there is no insertion fixture (`assert self.test_insertion_vcfs`). */
    method TestAlleleGraphInsertionVcfs(root: string, testDir: string, shell: Shell, tempName: nat -> string)
      returns (result: TestResult)
      requires Ready()
      ensures testInsertionVcfs == [] ==> result == TestResult([], NoFixtures)
      ensures testInsertionVcfs != [] ==>
                result == RunFrom(Results(AlleleInsertion, testInsertionVcfs, Settings(root, testDir, shell, tempName)), 0)
    {
      if testInsertionVcfs == [] {
        return TestResult([], NoFixtures);
      }
      result := RunFixtures(AlleleInsertion, testInsertionVcfs, Settings(root, testDir, shell, tempName));
    }
  }
}
