# PathAligner and the vcf2paragraph regression harness in Dafny

This project models two parts of the paragraph graph-genotyping repository.

**`grm::PathAligner::alignRead`** (`cigar.dfy`, `path_aligner.dfy`) maps a read onto a graph:
- It seeds both strands of the read with the k-mers that occur on exactly one graph path.
- It extends each seed to a maximal exact match, then resumes the scan one base past that match's end.
- It keeps the matches whose path is as long as the read. The first one found (forward strand before reverse) is written onto the read: the strand flip, the linear CIGAR text passed through graphtools, the score, the position, the MAPQ (60 when the match is unique, 0 otherwise) and the mapped status.
- It counts attempted, anchored and mapped reads.

The aligner is imperative Dafny: a `PathAligner` class whose fields are the kmer size, the index and the three counters, and a `Read` class whose fields `alignRead` sets. Each method is proved against a pure specification:
- `ScanFrom`, `AllMatches` and `FullLength` describe the scan and the filter.
- `Align` is the decision taken for one read; `Tally` gives the counter update.

The graphtools code (k-mer index, `extendPathMatching`, `reverseComplement`, projection onto the graph and CIGAR generation) is not part of this model. It enters as values of function type: the `KmerIndex` and `Graphtools` datatypes. `Sound` states what `alignRead` relies on from that code: an extension covers its seed and stays inside the read, and reverse complement keeps the length.

**`test_VCF2Paragraph.py`** (`py_text.dfy`, `vcf2paragraph_test.dfy`) is the regression harness of `vcf2paragraph.py`.
- `setUp` lists the fixtures from fixed glob patterns, each listing sorted on its own.
- It resolves hg19 and then hg38: `$HG19`/`$HG38` when set and non-empty, then fixed fallbacks. The first candidate that exists and is a regular file wins. Otherwise it raises with the candidate list in the message.
- Each test method runs, per fixture, the conversion, a `json.tool` pretty-print and a `diff` against the expected file; the insertion test runs this twice, with and without `--alt-splitting`.
- On the first failing command it tries to copy the pretty-printed output next to the test file and to chmod the copy to 0o777. Its `finally` clause tries to remove both temporary files. The model records these attempts as events in every case; the exceptions they can raise are not modelled (see below).
- The first fixture that fails ends the test method.

The host is an input, not an effect. It supplies:
- the environment;
- which paths exist and are regular files;
- what each glob pattern lists;
- whether the command at each position of a fixture's steps succeeds;
- the temporary file names.

What a test does is a list of events: commands run, artifact copied, chmod, files removed. `PyText` models the Python string and path functions the harness uses: `str.replace`, `in`, `posixpath.join`/`basename`, `sorted()` on `str`, and `str()` of a list.

The model follows the code as written, including in these places:
- A failing fixture raises out of the test method's loop, so later fixtures of the same category are not run. Failures are not reported per fixture.
- The `finally` block's `os.remove` calls can raise over the original failure. The model records the removals and does not model those exceptions (see below).
- `self.test_haplo_vcfs` is first assigned from `simple/*.vcf` and then overwritten, so the `simple` fixtures are never run. The model keeps both assignments, in source order.

## Model

| member | source | states |
|---|---|---|
| Cigar.Decimal | src/c++/lib/grm/PathAligner.cpp:136 | `std::to_string` of a count is a non-empty string of digits, with a leading zero only for 0 and a single digit exactly below 10 |
| Cigar.DecimalRoundTrip | src/c++/lib/grm/PathAligner.cpp:136 | reading the decimal text of a count back gives the count |
| Cigar.ParseRender | src/c++/lib/grm/PathAligner.cpp:136-141 | CIGAR text made of counts and non-digit letters reads back as exactly the operations it was written from |
| Cigar.Render | src/c++/lib/grm/PathAligner.cpp:136-141 | specification function for the CIGAR text: each operation written as its decimal count followed by its letter, in order. ParseRender, RenderAppend and RenderLinearCigar state its properties |
| Cigar.LinearCigar | src/c++/lib/grm/PathAligner.cpp:133-142 | specification function for the three CIGAR pieces: a leading soft clip of `qpos` when it is positive, then the match, then a trailing soft clip of what is left of the read when the match ends early. LinearCigarShape, RenderLinearCigar and WholeReadCigar state its properties |
| Cigar.RenderAppend | src/c++/lib/grm/PathAligner.cpp:133-142 | appending operations appends their texts, as the `cigar +=` steps do |
| Cigar.TotalLengthAppend | src/c++/lib/grm/PathAligner.cpp:133-142 | the bases accounted for by concatenated operations add up |
| Cigar.RenderLinearCigar | src/c++/lib/grm/PathAligner.cpp:133-142 | the linear CIGAR text is the optional leading "<qpos>S", then "<len>M", then the optional trailing "<rest>S" |
| Cigar.LinearCigarShape | src/c++/lib/grm/PathAligner.cpp:133-143 | the linear CIGAR parses back to its operations; its clips are non-empty 'S'; its one 'M' has the match length; it starts with 'S' exactly when qpos > 0 and ends with 'S' exactly when the match ends before the read; when the match fits, the lengths sum to the read length |
| Cigar.WholeReadCigar | src/c++/lib/grm/PathAligner.cpp:133-142 | a match that starts at 0 and covers the whole read is the single operation "<len>M", with no clip |
| Grm.Tally | src/c++/lib/grm/PathAligner.cpp:77-163 | one call adds exactly 1 to attempted and at most 1 to anchored, never adds more to mapped than to anchored, and so keeps mapped <= anchored <= attempted |
| Grm.IsUniqueSeed | src/c++/lib/grm/PathAligner.cpp:96-100 | specification predicate for the seed filter: the k-mer at `pos` fits in the strand and occurs on exactly one path. ScanMatchesComeFromUniqueSeeds, ScanEmptyIff and AnchoredIffUniqueSeed state what the scan does with it |
| Grm.SeedMatch | src/c++/lib/grm/PathAligner.cpp:100-103 | specification function for the match recorded at a unique seed: the seed's one path extended along the strand from `pos`, with the strand flag. ScanMatchesComeFromUniqueSeeds states that every recorded match is one of these |
| Grm.StrandBases | src/c++/lib/grm/PathAligner.cpp:91-92 | specification function for the strand choice: the read's bases, or their reverse complement on the reverse strand. AnchoredIffUniqueSeed quantifies over both strands through it, and PathAligner.TranslateMatch puts a translated read on its match's strand with it |
| Grm.ScanFrom | src/c++/lib/grm/PathAligner.cpp:93-105 | specification function without a contract of its own: the matches one strand's `pos` loop records from `pos` on. ScanStaysInRead, ScanMatchesComeFromUniqueSeeds, ScanEndsIncrease and ScanEmptyIff state its properties, and PathAligner.ScanStrand is proved against it |
| Grm.AllMatches | src/c++/lib/grm/PathAligner.cpp:87-106 | specification function: the forward strand's matches, then those of the reverse complement. PathAligner.CollectMatches is proved against it |
| Grm.FullLength | src/c++/lib/grm/PathAligner.cpp:112-114 | specification function for the boost `filtered` range. FullLengthSpec states which matches it keeps and which one comes first; FullLengthNonEmpty and FullLengthTwo state when it keeps none and when it keeps two or more |
| Grm.Align | src/c++/lib/grm/PathAligner.cpp:79-121 | specification function for the decision alignRead takes: too short, unanchored, anchored without a full-length match, or the match to translate. AnchoredIffUniqueSeed and TranslationChoosesFirstFullLength state its properties, and PathAligner.AlignRead is proved against it |
| Grm.FullLengthSpec | src/c++/lib/grm/PathAligner.cpp:112-121 | the filter keeps exactly the matches whose path length equals the read length, and the first it keeps is preceded by no other full-length match |
| Grm.ScanStaysInRead | src/c++/lib/grm/PathAligner.cpp:93-103 | every match a strand scan records is on that strand, ends inside the strand, and covers at least the k-mer after the scan's start |
| Grm.ScanMatchesComeFromUniqueSeeds | src/c++/lib/grm/PathAligner.cpp:93-104 | every recorded match is the extension of a k-mer, at or after the start offset, that occurs on exactly one path |
| Grm.ScanEndsIncrease | src/c++/lib/grm/PathAligner.cpp:99-105 | the scan resumes one past each match, so match ends increase strictly, each by more than a k-mer, in discovery order |
| Grm.ScanEmptyIff | src/c++/lib/grm/PathAligner.cpp:93-105 | a strand scan records no match exactly when no k-mer from the start offset on occurs on exactly one path |
| Grm.AnchoredIffUniqueSeed | src/c++/lib/grm/PathAligner.cpp:81-111 | anchored is bumped exactly when the read is at least a k-mer long and some k-mer on either strand occurs on exactly one path |
| Grm.FullLengthNonEmpty | src/c++/lib/grm/PathAligner.cpp:112-121 | the filtered range is non-empty exactly when some position of the discovery order holds a full-length match |
| Grm.FullLengthTwo | src/c++/lib/grm/PathAligner.cpp:112-161 | the filtered range has a second element (`std::next(begin) != end`) exactly when two different positions of the discovery order hold full-length matches |
| Grm.FullLengthMatchStartsAtZero | src/c++/lib/grm/PathAligner.cpp:99-114 | a recorded match as long as the read starts at read offset 0 |
| Grm.TranslationChoosesFirstFullLength | src/c++/lib/grm/PathAligner.cpp:112-163 | a read is translated exactly when it is at least a k-mer long and some match covers all of it. The chosen match is the first full-length match in discovery order. It starts at 0. It is on the reverse strand only when no forward match is full-length. The alignment is marked unique (which TranslateMatch turns into MAPQ 60) exactly when no two different positions of the discovery order hold full-length matches |
| Grm.TranslatedCigarIsWholeReadMatch | src/c++/lib/grm/PathAligner.cpp:133-143 | the linear CIGAR of a translated read is one 'M' over the whole read: the soft-clip branches are never taken |
| Grm.TallyAllCounts | src/c++/lib/grm/PathAligner.cpp:77-163 | over any sequence of calls, attempted grows by the number of calls, anchored and mapped by the number of anchored and translated calls, and mapped <= anchored <= attempted is kept |
| Grm.PathAligner.constructor | src/c++/lib/grm/PathAligner.cpp:55-65 | the aligner starts with the given kmer size, no index and zero counters |
| Grm.PathAligner.SetGraph | src/c++/lib/grm/PathAligner.cpp:70-73 | the index is replaced by the one built for the aligner's kmer size; the counters are kept |
| Grm.PathAligner.ScanStrand | src/c++/lib/grm/PathAligner.cpp:93-105 | the pos loop appends to the match list exactly what the strand scan specifies |
| Grm.PathAligner.CollectMatches | src/c++/lib/grm/PathAligner.cpp:87-106 | the strand loop collects the forward strand's matches, then the reverse complement's |
| Grm.PathAligner.LinearCigarText | src/c++/lib/grm/PathAligner.cpp:133-142 | the string built in three optional steps is the rendering of the linear CIGAR |
| Grm.PathAligner.TranslateMatch | src/c++/lib/grm/PathAligner.cpp:121-161 | the read is put on the match's strand and gets the match's score, graph CIGAR and position; it is marked mapped, with the unique flag and MAPQ 60 or 0 |
| Grm.PathAligner.AlignRead | src/c++/lib/grm/PathAligner.cpp:75-164 | the counters advance as `Tally` says for the decision `Align` takes; a translated read carries the chosen match's alignment; any other read is left unchanged |
| PyText.Contains | src/python/test/test_VCF2Paragraph.py:117 | `p in s` holds exactly when `p` occurs in `s` at some offset |
| PyText.Replace | src/python/test/test_VCF2Paragraph.py:88 | specification function for `str.replace`: a left-to-right scan that replaces every non-overlapping occurrence. ReplaceAbsent, ReplaceFirstAt, ReplaceAtEnd and ReplaceTwoOccurrences state its properties |
| PyText.ReplaceFirstAt | src/python/test/test_VCF2Paragraph.py:88 | from any offset, the text before the first match is kept, that match is replaced, and the scan resumes just after it |
| PyText.ReplaceAbsent | src/python/test/test_VCF2Paragraph.py:88 | replacing a non-empty pattern that does not occur leaves the string unchanged |
| PyText.ReplaceAtEnd | src/python/test/test_VCF2Paragraph.py:88 | when the pattern occurs only at the end, only that occurrence is replaced |
| PyText.ReplaceTwoAt | src/python/test/test_VCF2Paragraph.py:88 | a text whose only matches are at two positions, the second ending the text, has both replaced and everything between and before them kept |
| PyText.ReplaceTwoOccurrences | src/python/test/test_VCF2Paragraph.py:88 | `a + p + b + p` with no match starting inside `a` or `b` becomes `a + r + b + r` |
| PyText.NoMatchInside | src/python/test/test_VCF2Paragraph.py:88 | a pattern whose first character does not recur in it, such as ".vcf", has no match starting inside a part that does not contain it and is followed by the pattern |
| PyText.VcfSuffixReplaced | src/python/test/test_VCF2Paragraph.py:88 | a path ending in its only ".vcf" has just that suffix substituted |
| PyText.BothVcfReplaced | src/python/test/test_VCF2Paragraph.py:88 | a path with ".vcf" at the end of its directory and at the end of its name, as in "d.vcf/x.vcf", has both substituted |
| PyText.Join | src/python/test/test_VCF2Paragraph.py:102 | specification function for `posixpath.join(a, b)`: an absolute `b` replaces `a`, otherwise exactly one separator between them. BaseNameOfJoin states the property the artifact name relies on |
| PyText.JoinAll | src/python/test/test_VCF2Paragraph.py:32 | specification function for `os.path.join` over several parts, joining them left to right |
| PyText.LastSeparator | src/python/test/test_VCF2Paragraph.py:101 | the index found is the last '/' of the path, or -1 when it has none |
| PyText.BaseName | src/python/test/test_VCF2Paragraph.py:101 | `os.path.basename` is the separator-free tail of the path that follows its last '/' |
| PyText.NoSeparatorConcat | src/python/test/test_VCF2Paragraph.py:102 | the prefix and the base name joined contain no separator either |
| PyText.BaseNameOfJoin | src/python/test/test_VCF2Paragraph.py:101-102 | the base name of a separator-free file name joined onto any directory is that file name |
| PyText.LexLe | src/python/test/test_VCF2Paragraph.py:33-44 | specification predicate for `<=` on `str`: lexicographic order by code point. LexLeTotal, LexLeTransitive and LexLeAntisymmetric state that it is a total order |
| PyText.LexLeTotal | src/python/test/test_VCF2Paragraph.py:33-44 | any two `str` values are ordered one way or the other |
| PyText.LexLeTransitive | src/python/test/test_VCF2Paragraph.py:33-44 | the `str` order is transitive |
| PyText.LexLeAntisymmetric | src/python/test/test_VCF2Paragraph.py:33-44 | two `str` values ordered both ways are equal |
| PyText.InsertElements | src/python/test/test_VCF2Paragraph.py:33-44 | inserting adds exactly one element to the list's multiset |
| PyText.InsertSorted | src/python/test/test_VCF2Paragraph.py:33-44 | inserting into a sorted list keeps it sorted |
| PyText.Sort | src/python/test/test_VCF2Paragraph.py:33-44 | `sorted()` returns a sorted permutation of its input |
| PyText.SortedUnique | src/python/test/test_VCF2Paragraph.py:33-44 | two sorted lists with the same elements are the same list |
| PyText.SortIgnoresOrder | src/python/test/test_VCF2Paragraph.py:33-44 | `sorted()` of two listings with the same elements is the same list |
| PyText.ReprList | src/python/test/test_VCF2Paragraph.py:61 | specification function for `str()` of a list of `str`: brackets around the quoted items, separated by ", ". ReprListListsAll states that it names every element |
| PyText.ReprItemsListsAll | src/python/test/test_VCF2Paragraph.py:60-61 | the comma-separated items contain every element of the list, quoted |
| PyText.ReprListListsAll | src/python/test/test_VCF2Paragraph.py:60-61 | `str()` of a list of paths contains every path, quoted |
| Vcf2ParagraphTest.Locations | src/python/test/test_VCF2Paragraph.py:46-52 | specification function for the candidate list: the override first when set and non-empty, then the fallbacks. ResolveBuild is proved against it; EnvironmentOverrideWins and UnsetOverrideIgnored state its consequences |
| Vcf2ParagraphTest.FirstRegularFile | src/python/test/test_VCF2Paragraph.py:53-57 | the result is absent exactly when no candidate is a regular file; otherwise it is the first candidate that is one |
| Vcf2ParagraphTest.ResolveReference | src/python/test/test_VCF2Paragraph.py:53-57 | the `for ... break` loop finds the first candidate that exists and is a regular file |
| Vcf2ParagraphTest.ResolveBuild | src/python/test/test_VCF2Paragraph.py:46-57 | the candidates are the override from the environment, when set and non-empty, then the fallbacks, and the result is the first regular file among them |
| Vcf2ParagraphTest.EnvironmentOverrideWins | src/python/test/test_VCF2Paragraph.py:51-57 | a set, non-empty override naming a regular file is chosen over every fallback |
| Vcf2ParagraphTest.UnsetOverrideIgnored | src/python/test/test_VCF2Paragraph.py:51-57 | an unset or empty override leaves only the fallbacks to search |
| Vcf2ParagraphTest.ResolvedIsTruthy | src/python/test/test_VCF2Paragraph.py:53-61 | with non-empty fallbacks, the exception is raised exactly when no candidate is a regular file |
| Vcf2ParagraphTest.NotFoundMessage | src/python/test/test_VCF2Paragraph.py:59-61 | specification function for the exception text: the build name, the fixed phrase, then `str()` of the candidate list. NotFoundMessageListsCandidates states its properties |
| Vcf2ParagraphTest.NotFoundMessageListsCandidates | src/python/test/test_VCF2Paragraph.py:59-61 | the exception message starts with the build name and names every candidate searched |
| Vcf2ParagraphTest.HaploFixtures | src/python/test/test_VCF2Paragraph.py:34-38 | specification function for the haplotype list: the three listings, each sorted on its own, in pattern order. FixtureListsCover and FixturesIgnoreGlobOrder state its properties |
| Vcf2ParagraphTest.AlleleFixtures | src/python/test/test_VCF2Paragraph.py:40-42 | specification function for the allele list: the pg-complex listing, then the genotyping_test_2 listing, each sorted. FixtureListsCover and FixturesIgnoreGlobOrder state its properties |
| Vcf2ParagraphTest.FixtureListsCover | src/python/test/test_VCF2Paragraph.py:34-42 | each fixture list holds exactly what its globs list, in pattern order, each glob's segment sorted |
| Vcf2ParagraphTest.FixturesIgnoreGlobOrder | src/python/test/test_VCF2Paragraph.py:33-44 | the fixture lists depend only on what each glob lists, not on the order in which it lists it |
| Vcf2ParagraphTest.ExpectedJson | src/python/test/test_VCF2Paragraph.py:88 | specification function for the expected file: every ".vcf" of the fixture path replaced by ".json". DerivedPaths and DerivedPathsReplaceEveryOccurrence state its value |
| Vcf2ParagraphTest.InsertionReference | src/python/test/test_VCF2Paragraph.py:152 | specification function for the insertion reference: every ".vcf" replaced by ".ref.fa". DerivedPaths and DerivedPathsReplaceEveryOccurrence state its value |
| Vcf2ParagraphTest.NoAltSplitJson | src/python/test/test_VCF2Paragraph.py:167 | specification function for the second insertion run's expected file: every ".vcf" replaced by ".noas.json". DerivedPaths and DerivedPathsReplaceEveryOccurrence state its value |
| Vcf2ParagraphTest.DerivedPaths | src/python/test/test_VCF2Paragraph.py:88-167 | for a fixture whose only ".vcf" is its suffix, the expected .json, the .ref.fa reference and the .noas.json file replace that suffix |
| Vcf2ParagraphTest.DerivedPathsReplaceEveryOccurrence | src/python/test/test_VCF2Paragraph.py:88-167 | `replace` substitutes every ".vcf" of the path: for "d.vcf/x.vcf" the expected file is "d.json/x.json", and likewise for .ref.fa and .noas.json |
| Vcf2ParagraphTest.Reference | src/python/test/test_VCF2Paragraph.py:117-120 | specification function for the `-r` argument of each category; ReferenceChoice states it in terms of where "genotyping_test_2" occurs |
| Vcf2ParagraphTest.Flags | src/python/test/test_VCF2Paragraph.py:90-170 | the haplotype test passes no flag after the reference; the allele tests end with "-g alleles"; the insertion test's two runs differ only by a leading --alt-splitting |
| Vcf2ParagraphTest.Check | src/python/test/test_VCF2Paragraph.py:89-97 | specification function for one run's three commands; CheckShape states them |
| Vcf2ParagraphTest.CheckShape | src/python/test/test_VCF2Paragraph.py:89-97 | a run is exactly three commands: the conversion into the temporary file, the pretty-print of that file into its .pp.json copy, and the diff of the copy against the run's expected file, which is in effect for all three |
| Vcf2ParagraphTest.Steps | src/python/test/test_VCF2Paragraph.py:150-178 | specification function for a fixture's commands in order; StepsShape states them |
| Vcf2ParagraphTest.StepsShape | src/python/test/test_VCF2Paragraph.py:150-178 | a fixture has one run, or two for insertions. Commands 0 and 3 are exactly the conversions, 1 and 4 the pretty-prints, 2 and 5 the diffs. Each conversion uses the category's reference and flags, with --alt-splitting only at index 0 of an insertion fixture. Each diff compares against the expected file then in effect: .noas.json from the fourth insertion command on |
| Vcf2ParagraphTest.ReferenceChoice | src/python/test/test_VCF2Paragraph.py:117-120 | the reference is hg19 for haplotypes. For allele graphs it is the swaps FASTA exactly when the path contains "genotyping_test_2", and hg38 otherwise. For insertions it is the fixture's own .ref.fa |
| Vcf2ParagraphTest.FirstFailure | src/python/test/test_VCF2Paragraph.py:89-97 | the commands from the start index up to the index found all succeed, and the one at it, if any, fails |
| Vcf2ParagraphTest.ArtifactPath | src/python/test/test_VCF2Paragraph.py:100-102 | specification function for the artifact path: the test directory joined with the category prefix and the expected file's base name (also :135 and :183). ArtifactName states its base name |
| Vcf2ParagraphTest.ArtifactName | src/python/test/test_VCF2Paragraph.py:101-102 | the saved artifact's file name is the category prefix followed by the base name of the expected file |
| Vcf2ParagraphTest.RunSteps | src/python/test/test_VCF2Paragraph.py:87-109 | specification function for one fixture's `try`/`except`/`finally` from a step index on, each command's success read from the shell at its index: the commands up to the first failure, then on a failure the attempted copy and chmod, then the two attempted removals. The lemmas below state its properties |
| Vcf2ParagraphTest.RunStepsRemovesTemporaries | src/python/test/test_VCF2Paragraph.py:107-109 | on every path the last two events are the `finally` clause's attempts to remove the temporary file and its pretty-printed copy |
| Vcf2ParagraphTest.RunStepsPassedIff | src/python/test/test_VCF2Paragraph.py:89-97 | a fixture passes exactly when every one of its commands from the start index on succeeds |
| Vcf2ParagraphTest.RunStepsFailsAtFirstFailure | src/python/test/test_VCF2Paragraph.py:89-98 | a fixture passes exactly when no command fails before the list ends |
| Vcf2ParagraphTest.RunStepsPassedSavesNothing | src/python/test/test_VCF2Paragraph.py:98-106 | a passing fixture saves no artifact |
| Vcf2ParagraphTest.RunStepsSavesArtifact | src/python/test/test_VCF2Paragraph.py:98-106 | a failing fixture's events include the attempt to copy its pretty-printed output to the artifact named after the failing command's expected file |
| Vcf2ParagraphTest.RunFixture | src/python/test/test_VCF2Paragraph.py:83-109 | specification function for one iteration of a test method's loop: the fixture's commands run as RunSteps describes. FailureArtifactTarget and the RunSteps lemmas state its properties |
| Vcf2ParagraphTest.FailureArtifactTarget | src/python/test/test_VCF2Paragraph.py:151-186 | an insertion fixture failing in its second run saves under the .noas.json name; any other failure saves under the .json name |
| Vcf2ParagraphTest.InsertionSecondPrettyPrintFails | src/python/test/test_VCF2Paragraph.py:159-186 | the insertion test's second pretty-print is the same command text as its first, yet it can fail after the first succeeded: the fixture then fails at step 4 and saves under the .noas.json name |
| Vcf2ParagraphTest.Results | src/python/test/test_VCF2Paragraph.py:83-86 | there is one fixture outcome per fixture |
| Vcf2ParagraphTest.CategoryPassedIff | src/python/test/test_VCF2Paragraph.py:83-109 | a category passes exactly when every command of every fixture succeeds, fixture j using temporary name `tempName(j)`; when it fails, the failing fixture has a failing command and every earlier fixture's commands all succeeded |
| Vcf2ParagraphTest.RunFrom | src/python/test/test_VCF2Paragraph.py:83-106 | a category run never reports "no fixtures", and a failure it reports is at an index from the start on |
| Vcf2ParagraphTest.RunFromVerdict | src/python/test/test_VCF2Paragraph.py:83-106 | a category passes exactly when all its fixtures pass; otherwise it reports the first fixture that fails, all earlier ones having passed |
| Vcf2ParagraphTest.RunFromEvents | src/python/test/test_VCF2Paragraph.py:83-109 | the events are those of the fixtures run, in order, up to and including the first that fails |
| Vcf2ParagraphTest.RunLoop | src/python/test/test_VCF2Paragraph.py:83-109 | the `for x in fixtures` loop, with each fixture run by the given runner and stopped by the first fixture's exception, returns the events and the verdict that RunFrom specifies |
| Vcf2ParagraphTest.RunFixtures | src/python/test/test_VCF2Paragraph.py:83-109 | a test method's loop over its category's fixtures gives the category run that RunFrom specifies over Results |
| Vcf2ParagraphTest.TestVCF2Paragraph.constructor | src/python/test/test_VCF2Paragraph.py:28-29 | before setUp no reference has been found. In the source the attributes do not exist until setUp assigns them; the model starts them empty, with both references None as setUp sets them before each search (:53, :69) |
| Vcf2ParagraphTest.TestVCF2Paragraph.SetUp | src/python/test/test_VCF2Paragraph.py:31-80 | after setUp the fixture lists are the sorted glob listings. hg19 and hg38 are resolved in that order, and hg38 is left untouched when hg19 was not found. A missing reference raises with its candidate list and leaves the script path untouched; success means both were found and the script path is set |
| Vcf2ParagraphTest.TestVCF2Paragraph.ListFixtures | src/python/test/test_VCF2Paragraph.py:32-44 | the four list fields hold the data directory and the sorted listings, the simple/ listing being overwritten |
| Vcf2ParagraphTest.TestVCF2Paragraph.ResolveReferences | src/python/test/test_VCF2Paragraph.py:46-80 | hg19 is searched first, and a failure raises with hg38 left untouched; the script path is set when both were found and left untouched otherwise |
| Vcf2ParagraphTest.TestVCF2Paragraph.TestHaplotypeVcfs | src/python/test/test_VCF2Paragraph.py:82-109 | the haplotype test's result is the category run over the haplotype fixtures |
| Vcf2ParagraphTest.TestVCF2Paragraph.TestAlleleGraphVcfs | src/python/test/test_VCF2Paragraph.py:111-142 | the allele-graph test's result is the category run over the allele fixtures |
| Vcf2ParagraphTest.TestVCF2Paragraph.TestAlleleGraphInsertionVcfs | src/python/test/test_VCF2Paragraph.py:144-190 | with no insertion fixture the test fails before running any command; otherwise its result is the category run over the insertion fixtures |

## Left out

- Process execution: the shell commands (`vcf2paragraph.py`, `json.tool`, `diff`) are not modelled; whether the command at each position of a fixture's steps succeeds is an input, and how the files earlier commands leave behind decide that is not modelled. Quoting with `pipes.quote` and the `python3` prefix are not modelled.
- Filesystem effects: copying, chmod and removal are recorded as events. Exceptions these calls raise are not modelled: a missing temporary file makes `os.remove` raise over the original failure, and a missing pretty-printed file makes the artifact copy fail.
- `tempfile.NamedTemporaryFile` and `glob.glob` are inputs: `tempName` gives fixture i its temporary name, and `glob` gives each pattern its listing.
- `GRMPY_ROOT` and the test file's directory are parameters. The fallback FASTA paths are kept as opaque strings.
- The `print` progress messages and the printed artifact path are not modelled.
- `str()` of a list of paths quotes each element with single quotes only; Python's escaping of quotes and backslashes inside a path is not modelled.
- The graphtools internals (`KmerIndex` construction from a graph, `extendPathMatching`, `reverseComplement`, `projectAlignmentOntoGraph`, `generateCigar`) are not part of this model. They are parameters, and `Sound` is the contract assumed of them.
- Grm.PathAligner.AlignRead: `size_t` positions and the counters are unbounded integers, so wrap-around is not modelled; alignRead requires that setGraph was called, where the C++ would dereference a null index.
- Grm.PathAligner.constructor: kmerSize is a `nat`; the C++ `int32_t` also admits negative sizes, which are not modelled.
- `PathAligner.hh` (the counters' declarations and initial values, the default constructor argument) is not part of this model. The counters are assumed to start at zero, and the constructor's default kmer size is assumed to be 32 (`DEFAULT_KMER_SIZE`); the in-class initializer `Impl::kmerSize = 32` is overwritten by the constructor, so it does not decide the default.
- The move constructor and move assignment, the pimpl indirection and the destructor are ownership plumbing and are not modelled. setGraph's path-list argument is unused in the source and is not modelled.
- Clipped CIGAR text ("<n>S" pieces) is modelled and proved about, but under `Sound` a full-length match always starts at 0 (Grm.TranslatedCigarIsWholeReadMatch), so those branches are never taken.
- `src/c++/test/test_breakpointstatistics.cpp` is not part of this model.
