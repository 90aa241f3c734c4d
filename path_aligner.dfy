/**
 * Seeding and full-length translation of reads, as grm::PathAligner does it
 * (src/c++/lib/grm/PathAligner.cpp).
 *
 * The k-mer index, path extension, reverse complement and the projection of a
 * linear alignment onto a graph path are graphtools code that this model
 * does not contain. They are values of function type: a KmerIndex answers
 * numPaths/getPaths for a k-mer, and Graphtools bundles the free functions.
 * What alignRead relies on them to do is the predicate Sound.
 */
module Grm {
  import opened Wrappers
  import Cigar

  /** The size the index is built with unless the caller passes another one; assumed to be the header's default argument. */
  const DEFAULT_KMER_SIZE: nat := 32

  /** MAPQ written for a read with exactly one full-length match, and for one with several. */
  const UNIQUE_MAPQ: int := 60
  const AMBIGUOUS_MAPQ: int := 0

  /** A graphtools path: where it starts on its first node, its nodes, and its length in bases. */
  datatype Path = Path(startPosition: int, nodes: seq<int>, length: nat)

  /** What extendPathMatching returns: the new read offset (qpos is updated in place) and the extended path. */
  datatype Extension = Extension(qpos: nat, path: Path)

  /** A maximal exact match of a read strand against one graph path. */
  datatype ExactMatch = ExactMatch(qpos: nat, path: Path, isReverse: bool)

  /** graphtools::KmerIndex as alignRead queries it. firstPath is getPaths(kmer).front(). */
  datatype KmerIndex = KmerIndex(kmerLength: nat, numPaths: string -> nat, firstPath: string -> Path)

  /**
   * The graphtools free functions alignRead calls: reverseComplement,
   * extendPathMatching(path, bases, qpos), and projectAlignmentOntoGraph
   * followed by generateCigar, from the linear CIGAR and the path to the graph CIGAR.
   */
  datatype Graphtools = Graphtools(
    reverseComplement: string -> string,
    extendPathMatching: (Path, string, nat) -> Extension,
    graphCigar: (string, Path) -> string)

  /** Status of a read's graph mapping; alignRead only ever sets Mapped. */
  datatype MappingStatus = Mapped | NotMapped

  /**
   * What alignRead assumes of graphtools: the extension of a seed found at
   * `pos` moves qpos no further right than `pos`, covers [pos, pos + k) and
   * stays inside the read; reverse complement keeps the length.
   */
  ghost predicate Sound(tools: Graphtools, k: nat)
  {
    && (forall s :: |tools.reverseComplement(s)| == |s|)
    && (forall p, s, pos: nat :: pos + k <= |s| ==>
          && tools.extendPathMatching(p, s, pos).qpos <= pos
          && pos + k <= tools.extendPathMatching(p, s, pos).qpos + tools.extendPathMatching(p, s, pos).path.length
          && tools.extendPathMatching(p, s, pos).qpos + tools.extendPathMatching(p, s, pos).path.length <= |s|)
  }

  /** Read offset just past the end of a match. */
  function End(m: ExactMatch): nat
  {
    m.qpos + m.path.length
  }

  /** The k-mer at `pos` occurs on exactly one graph path. */
  predicate IsUniqueSeed(idx: KmerIndex, s: string, pos: nat)
  {
    pos + idx.kmerLength <= |s| && idx.numPaths(s[pos..pos + idx.kmerLength]) == 1
  }

  /** The match recorded for a unique seed at `pos`: the seed's one path, extended along the strand. */
  function SeedMatch(idx: KmerIndex, tools: Graphtools, s: string, pos: nat, isReverse: bool): ExactMatch
    requires pos + idx.kmerLength <= |s|
  {
    var e := tools.extendPathMatching(idx.firstPath(s[pos..pos + idx.kmerLength]), s, pos);
    ExactMatch(e.qpos, e.path, isReverse)
  }

  /**
   * The matches the scan of one strand records from offset `pos` on: at a
   * unique seed it records the extended match and resumes one past the
   * match's end; elsewhere it moves on by one.
   */
  function ScanFrom(idx: KmerIndex, tools: Graphtools, s: string, isReverse: bool, pos: nat): seq<ExactMatch>
    requires Sound(tools, idx.kmerLength)
    decreases |s| - pos
  {
    if pos + idx.kmerLength > |s| then []
    else if IsUniqueSeed(idx, s, pos) then
      var m := SeedMatch(idx, tools, s, pos, isReverse);
      [m] + ScanFrom(idx, tools, s, isReverse, End(m) + 1)
    else
      ScanFrom(idx, tools, s, isReverse, pos + 1)
  }

  /** The strand alignRead scans: the read itself, or its reverse complement. */
  function StrandBases(tools: Graphtools, bases: string, isReverse: bool): string
  {
    if isReverse then tools.reverseComplement(bases) else bases
  }

  /** All matches in discovery order: the forward strand, then the reverse strand. */
  function AllMatches(idx: KmerIndex, tools: Graphtools, bases: string): seq<ExactMatch>
    requires Sound(tools, idx.kmerLength)
  {
    ScanFrom(idx, tools, bases, false, 0) + ScanFrom(idx, tools, tools.reverseComplement(bases), true, 0)
  }

  /** The matches whose path is as long as the read, in discovery order (the boost `filtered` range). */
  function FullLength(ms: seq<ExactMatch>, readLength: nat): seq<ExactMatch>
  {
    if ms == [] then []
    else if ms[0].path.length == readLength then [ms[0]] + FullLength(ms[1..], readLength)
    else FullLength(ms[1..], readLength)
  }

  /** How one call of alignRead ends. */
  datatype Outcome =
    | TooShort                                    // read shorter than a k-mer: nothing scanned
    | Unanchored                                  // no k-mer of either strand on exactly one path
    | NoFullLength                                // anchored, but no match covers the whole read
    | Translated(chosen: ExactMatch, unique: bool) // mapped by the first full-length match

  predicate IsAnchored(o: Outcome)
  {
    o.NoFullLength? || o.Translated?
  }

  /** The decision alignRead takes for a read with these bases. */
  function Align(idx: KmerIndex, tools: Graphtools, bases: string): Outcome
    requires Sound(tools, idx.kmerLength)
  {
    if |bases| < idx.kmerLength then TooShort
    else
      var ms := AllMatches(idx, tools, bases);
      if ms == [] then Unanchored
      else
        var full := FullLength(ms, |bases|);
        if full == [] then NoFullLength
        else Translated(full[0], |full| == 1)
  }

  /** The counters attempted_, anchored_ and mapped_. */
  datatype Counters = Counters(attempted: nat, anchored: nat, mapped: nat)

  /** Every read mapped was anchored, and every read anchored was attempted. */
  predicate Ordered(c: Counters)
  {
    c.mapped <= c.anchored <= c.attempted
  }

  /** The counters after one call of alignRead that ends with `o`. */
  function Tally(c: Counters, o: Outcome): (r: Counters)
    ensures r.attempted == c.attempted + 1
    ensures c.mapped <= r.mapped && r.mapped - c.mapped <= r.anchored - c.anchored <= 1
    ensures Ordered(c) ==> Ordered(r)
  {
    Counters(c.attempted + 1,
             if IsAnchored(o) then c.anchored + 1 else c.anchored,
             if o.Translated? then c.mapped + 1 else c.mapped)
  }

  /** The counters after a sequence of calls, starting from `c`. */
  function TallyAll(c: Counters, os: seq<Outcome>): Counters
    decreases |os|
  {
    if os == [] then c else TallyAll(Tally(c, os[0]), os[1..])
  }

  function CountAnchored(os: seq<Outcome>): nat
  {
    if os == [] then 0 else (if IsAnchored(os[0]) then 1 else 0) + CountAnchored(os[1..])
  }

  function CountTranslated(os: seq<Outcome>): nat
  {
    if os == [] then 0 else (if os[0].Translated? then 1 else 0) + CountTranslated(os[1..])
  }

  // ---------------------------------------------------------------------------
  // Properties of the decision
  // ---------------------------------------------------------------------------

  /**
   * The filter keeps exactly the full-length matches, and the first one it
   * keeps is preceded in discovery order by no other full-length match.
   */
  lemma {:induction false} FullLengthSpec(ms: seq<ExactMatch>, n: nat)
    ensures var r := FullLength(ms, n);
      && (forall i :: 0 <= i < |r| ==> r[i] in ms && r[i].path.length == n)
      && (forall m :: m in ms && m.path.length == n ==> m in r)
      && (r != [] ==> exists i :: 0 <= i < |ms| && ms[i] == r[0]
                                  && forall j :: 0 <= j < i ==> ms[j].path.length != n)
    decreases |ms|
  {
    if ms != [] {
      var r := FullLength(ms, n);
      var rest := FullLength(ms[1..], n);
      FullLengthSpec(ms[1..], n);
      assert ms == [ms[0]] + ms[1..];
      if ms[0].path.length == n {
        assert r == [ms[0]] + rest;
        forall i | 0 <= i < |r| ensures r[i] in ms && r[i].path.length == n {
          if i > 0 {
            assert r[i] == rest[i - 1];
          }
        }
        assert ms[0] == r[0];
      } else {
        assert r == rest;
        if r != [] {
          var i :| 0 <= i < |ms[1..]| && ms[1..][i] == rest[0]
                   && forall j :: 0 <= j < i ==> ms[1..][j].path.length != n;
          forall j | 0 <= j < i + 1 ensures ms[j].path.length != n {
            if j > 0 { assert ms[j] == ms[1..][j - 1]; }
          }
          assert ms[i + 1] == r[0];
        }
      }
    }
  }

  /** The filter keeps something exactly when some match is full-length. */
  lemma {:induction false} FullLengthNonEmpty(ms: seq<ExactMatch>, n: nat)
    ensures FullLength(ms, n) != [] <==> exists i :: 0 <= i < |ms| && ms[i].path.length == n
    decreases |ms|
  {
    if ms != [] && ms[0].path.length != n {
      FullLengthNonEmpty(ms[1..], n);
      if exists i :: 0 <= i < |ms| && ms[i].path.length == n {
        var i :| 0 <= i < |ms| && ms[i].path.length == n;
        assert ms[1..][i - 1] == ms[i];
      }
      if exists i :: 0 <= i < |ms[1..]| && ms[1..][i].path.length == n {
        var i :| 0 <= i < |ms[1..]| && ms[1..][i].path.length == n;
        assert ms[i + 1] == ms[1..][i];
      }
    }
  }

  /**
   * The filter keeps at least two matches exactly when two different
   * positions of the discovery order hold full-length matches: `std::next`
   * of its first element is its end exactly when one position does.
   */
  lemma {:induction false} FullLengthTwo(ms: seq<ExactMatch>, n: nat)
    ensures |FullLength(ms, n)| >= 2 <==>
      exists i, j :: 0 <= i < j < |ms| && ms[i].path.length == n && ms[j].path.length == n
    decreases |ms|
  {
    if ms != [] {
      var tail := ms[1..];
      FullLengthTwo(tail, n);
      FullLengthNonEmpty(tail, n);
      if exists i, j :: 0 <= i < j < |ms| && ms[i].path.length == n && ms[j].path.length == n {
        var i, j :| 0 <= i < j < |ms| && ms[i].path.length == n && ms[j].path.length == n;
        assert tail[j - 1] == ms[j];
        if i > 0 {
          assert tail[i - 1] == ms[i];
        }
      }
      if ms[0].path.length == n {
        if exists j :: 0 <= j < |tail| && tail[j].path.length == n {
          var j :| 0 <= j < |tail| && tail[j].path.length == n;
          assert ms[j + 1] == tail[j];
        }
      } else if exists i, j :: 0 <= i < j < |tail| && tail[i].path.length == n && tail[j].path.length == n {
        var i, j :| 0 <= i < j < |tail| && tail[i].path.length == n && tail[j].path.length == n;
        assert ms[i + 1] == tail[i] && ms[j + 1] == tail[j];
      }
    }
  }

  /**
   * Every match a strand scan records is on that strand, ends inside the
   * strand, and covers at least the k-mer after the start offset.
   */
  lemma {:induction false} ScanStaysInRead(idx: KmerIndex, tools: Graphtools, s: string, isReverse: bool, pos: nat)
    requires Sound(tools, idx.kmerLength)
    ensures forall i :: 0 <= i < |ScanFrom(idx, tools, s, isReverse, pos)| ==>
      && ScanFrom(idx, tools, s, isReverse, pos)[i].isReverse == isReverse
      && pos + idx.kmerLength <= End(ScanFrom(idx, tools, s, isReverse, pos)[i]) <= |s|
    decreases |s| - pos
  {
    var ms := ScanFrom(idx, tools, s, isReverse, pos);
    if pos + idx.kmerLength > |s| {
    } else if IsUniqueSeed(idx, s, pos) {
      var e := tools.extendPathMatching(idx.firstPath(s[pos..pos + idx.kmerLength]), s, pos);
      var m := SeedMatch(idx, tools, s, pos, isReverse);
      assert m == ExactMatch(e.qpos, e.path, isReverse);
      assert pos + idx.kmerLength <= End(m) <= |s|;
      var rest := ScanFrom(idx, tools, s, isReverse, End(m) + 1);
      ScanStaysInRead(idx, tools, s, isReverse, End(m) + 1);
      assert ms == [m] + rest;
      forall i | 0 <= i < |ms| ensures ms[i].isReverse == isReverse && pos + idx.kmerLength <= End(ms[i]) <= |s| {
        if i > 0 { assert ms[i] == rest[i - 1]; }
      }
    } else {
      assert ms == ScanFrom(idx, tools, s, isReverse, pos + 1);
      ScanStaysInRead(idx, tools, s, isReverse, pos + 1);
    }
  }

  /**
   * Only unique k-mers produce matches: every match of a strand scan is the
   * extension of a unique seed at or after the start offset.
   */
  lemma {:induction false} ScanMatchesComeFromUniqueSeeds(idx: KmerIndex, tools: Graphtools, s: string, isReverse: bool, pos: nat, i: nat)
    requires Sound(tools, idx.kmerLength)
    requires i < |ScanFrom(idx, tools, s, isReverse, pos)|
    ensures exists p :: pos <= p && IsUniqueSeed(idx, s, p)
                        && ScanFrom(idx, tools, s, isReverse, pos)[i] == SeedMatch(idx, tools, s, p, isReverse)
    decreases |s| - pos
  {
    var ms := ScanFrom(idx, tools, s, isReverse, pos);
    if IsUniqueSeed(idx, s, pos) {
      var m := SeedMatch(idx, tools, s, pos, isReverse);
      var rest := ScanFrom(idx, tools, s, isReverse, End(m) + 1);
      assert ms == [m] + rest;
      if i == 0 {
        assert ms[0] == m;
      } else {
        ScanMatchesComeFromUniqueSeeds(idx, tools, s, isReverse, End(m) + 1, i - 1);
        var p :| End(m) + 1 <= p && IsUniqueSeed(idx, s, p) && rest[i - 1] == SeedMatch(idx, tools, s, p, isReverse);
        assert ms[i] == rest[i - 1];
      }
    } else {
      assert ms == ScanFrom(idx, tools, s, isReverse, pos + 1);
      ScanMatchesComeFromUniqueSeeds(idx, tools, s, isReverse, pos + 1, i);
    }
  }

  /**
   * Scanning resumes past each match: match ends strictly increase, each by
   * more than a k-mer, in discovery order.
   */
  lemma {:induction false} ScanEndsIncrease(idx: KmerIndex, tools: Graphtools, s: string, isReverse: bool, pos: nat)
    requires Sound(tools, idx.kmerLength)
    ensures forall i, j :: 0 <= i < j < |ScanFrom(idx, tools, s, isReverse, pos)| ==>
      End(ScanFrom(idx, tools, s, isReverse, pos)[i]) + idx.kmerLength < End(ScanFrom(idx, tools, s, isReverse, pos)[j])
    decreases |s| - pos
  {
    if pos + idx.kmerLength <= |s| {
      if IsUniqueSeed(idx, s, pos) {
        var m := SeedMatch(idx, tools, s, pos, isReverse);
        var rest := ScanFrom(idx, tools, s, isReverse, End(m) + 1);
        ScanEndsIncrease(idx, tools, s, isReverse, End(m) + 1);
        ScanStaysInRead(idx, tools, s, isReverse, End(m) + 1);
        var ms := ScanFrom(idx, tools, s, isReverse, pos);
        assert ms == [m] + rest;
        forall i, j | 0 <= i < j < |ms| ensures End(ms[i]) + idx.kmerLength < End(ms[j]) {
          assert ms[j] == rest[j - 1];
          assert End(m) + 1 + idx.kmerLength <= End(rest[j - 1]);
          if i > 0 { assert ms[i] == rest[i - 1]; } else { assert ms[i] == m; }
        }
      } else {
        assert ScanFrom(idx, tools, s, isReverse, pos) == ScanFrom(idx, tools, s, isReverse, pos + 1);
        ScanEndsIncrease(idx, tools, s, isReverse, pos + 1);
      }
    }
  }

  /** A strand scan records nothing exactly when no k-mer from `pos` on occurs on exactly one path. */
  lemma {:induction false} ScanEmptyIff(idx: KmerIndex, tools: Graphtools, s: string, isReverse: bool, pos: nat)
    requires Sound(tools, idx.kmerLength)
    ensures ScanFrom(idx, tools, s, isReverse, pos) == [] <==> forall p :: pos <= p ==> !IsUniqueSeed(idx, s, p)
    decreases |s| - pos
  {
    if pos + idx.kmerLength > |s| {
    } else if IsUniqueSeed(idx, s, pos) {
    } else {
      ScanEmptyIff(idx, tools, s, isReverse, pos + 1);
      assert (forall p :: pos <= p ==> !IsUniqueSeed(idx, s, p))
         <==> (forall p :: pos + 1 <= p ==> !IsUniqueSeed(idx, s, p)) by {
        if forall p :: pos + 1 <= p ==> !IsUniqueSeed(idx, s, p) {
          forall p | pos <= p ensures !IsUniqueSeed(idx, s, p) {
            if p != pos { assert pos + 1 <= p; }
          }
        }
      }
    }
  }

  /** Some k-mer of the read on either strand occurs on exactly one path. */
  ghost predicate HasUniqueSeed(idx: KmerIndex, tools: Graphtools, bases: string)
  {
    exists isReverse: bool, p :: IsUniqueSeed(idx, StrandBases(tools, bases, isReverse), p)
  }

  /** anchored_ is bumped exactly when the read is long enough and some unique k-mer was seeded. */
  lemma AnchoredIffUniqueSeed(idx: KmerIndex, tools: Graphtools, bases: string)
    requires Sound(tools, idx.kmerLength)
    ensures IsAnchored(Align(idx, tools, bases)) <==> |bases| >= idx.kmerLength && HasUniqueSeed(idx, tools, bases)
  {
    var rc := tools.reverseComplement(bases);
    ScanEmptyIff(idx, tools, bases, false, 0);
    ScanEmptyIff(idx, tools, rc, true, 0);
    if HasUniqueSeed(idx, tools, bases) {
      var isReverse: bool, p :| IsUniqueSeed(idx, StrandBases(tools, bases, isReverse), p);
    }
    if |bases| >= idx.kmerLength && AllMatches(idx, tools, bases) != [] {
      if ScanFrom(idx, tools, bases, false, 0) != [] {
        var p :| 0 <= p && IsUniqueSeed(idx, bases, p);
        assert IsUniqueSeed(idx, StrandBases(tools, bases, false), p);
      } else {
        var p :| 0 <= p && IsUniqueSeed(idx, rc, p);
        assert IsUniqueSeed(idx, StrandBases(tools, bases, true), p);
      }
    }
  }

  /** Every match either strand records lies inside the read, so a full-length one starts at offset 0. */
  lemma FullLengthMatchStartsAtZero(idx: KmerIndex, tools: Graphtools, bases: string, m: ExactMatch)
    requires Sound(tools, idx.kmerLength)
    requires m in AllMatches(idx, tools, bases) && m.path.length == |bases|
    ensures m.qpos == 0
  {
    var fwd := ScanFrom(idx, tools, bases, false, 0);
    var rev := ScanFrom(idx, tools, tools.reverseComplement(bases), true, 0);
    assert |tools.reverseComplement(bases)| == |bases|;
    ScanStaysInRead(idx, tools, bases, false, 0);
    ScanStaysInRead(idx, tools, tools.reverseComplement(bases), true, 0);
    if m in fwd {
      var i :| 0 <= i < |fwd| && fwd[i] == m;
    } else {
      assert m in rev;
      var i :| 0 <= i < |rev| && rev[i] == m;
    }
  }

  /**
   * mapped_ is bumped exactly when some match is as long as the read; the
   * translated match is then the first such match in discovery order, the
   * forward strand before the reverse one, it covers the whole read, and
   * the alignment is unique exactly when there is no second such match.
   */
  lemma TranslationChoosesFirstFullLength(idx: KmerIndex, tools: Graphtools, bases: string)
    requires Sound(tools, idx.kmerLength)
    ensures var o := Align(idx, tools, bases);
      var ms := AllMatches(idx, tools, bases);
      && (o.Translated? <==> |bases| >= idx.kmerLength && exists m :: m in ms && m.path.length == |bases|)
      && (o.Translated? ==>
            && o.chosen.path.length == |bases|
            && o.chosen.qpos == 0
            && (exists i :: 0 <= i < |ms| && ms[i] == o.chosen
                            && forall j :: 0 <= j < i ==> ms[j].path.length != |bases|)
            && (o.chosen.isReverse ==>
                  forall m :: m in ScanFrom(idx, tools, bases, false, 0) ==> m.path.length != |bases|)
            && (o.unique <==> |FullLength(ms, |bases|)| == 1)
            && (o.unique <==> !exists i, j :: 0 <= i < j < |ms| && ms[i].path.length == |bases|
                                              && ms[j].path.length == |bases|))
  {
    var o := Align(idx, tools, bases);
    var ms := AllMatches(idx, tools, bases);
    FullLengthSpec(ms, |bases|);
    FullLengthTwo(ms, |bases|);
    if o.Translated? {
      var fwd := ScanFrom(idx, tools, bases, false, 0);
      ScanStaysInRead(idx, tools, bases, false, 0);
      FullLengthMatchStartsAtZero(idx, tools, bases, o.chosen);
      if o.chosen.isReverse {
        var i :| 0 <= i < |ms| && ms[i] == o.chosen
                 && forall j :: 0 <= j < i ==> ms[j].path.length != |bases|;
        assert forall j :: 0 <= j < |fwd| ==> ms[j] == fwd[j] && !ms[j].isReverse;
        forall m | m in fwd ensures m.path.length != |bases| {
          var k :| 0 <= k < |fwd| && fwd[k] == m;
          assert ms[k] == m;
        }
      }
    }
  }

  /** The CIGAR a translated read gets describes one match over the whole read, with no soft clip. */
  lemma TranslatedCigarIsWholeReadMatch(idx: KmerIndex, tools: Graphtools, bases: string)
    requires Sound(tools, idx.kmerLength)
    requires Align(idx, tools, bases).Translated?
    ensures var c := Align(idx, tools, bases).chosen;
      && Cigar.LinearCigar(c.qpos, c.path.length, |bases|) == [Cigar.Op(|bases|, 'M')]
      && Cigar.Render(Cigar.LinearCigar(c.qpos, c.path.length, |bases|)) == Cigar.Decimal(|bases|) + "M"
  {
    var c := Align(idx, tools, bases).chosen;
    TranslationChoosesFirstFullLength(idx, tools, bases);
    assert c.qpos == 0 && c.path.length == |bases|;
    Cigar.WholeReadCigar(|bases|);
  }

  /** Over any sequence of calls, attempted_ counts the calls, and mapped_ <= anchored_ <= attempted_ holds throughout. */
  lemma {:induction false} TallyAllCounts(c: Counters, os: seq<Outcome>)
    requires Ordered(c)
    ensures var r := TallyAll(c, os);
      && Ordered(r)
      && r.attempted == c.attempted + |os|
      && r.anchored == c.anchored + CountAnchored(os)
      && r.mapped == c.mapped + CountTranslated(os)
    decreases |os|
  {
    if os != [] {
      TallyAllCounts(Tally(c, os[0]), os[1..]);
    }
  }

  // ---------------------------------------------------------------------------
  // The objects
  // ---------------------------------------------------------------------------

  /** The fields of common::Read that alignRead reads or sets. */
  class Read {
    var bases: string
    var isGraphReverseStrand: bool
    var graphAlignmentScore: int
    var graphCigar: string
    var graphPos: int
    var graphMappingStatus: MappingStatus
    var isGraphAlignmentUnique: bool
    var graphMapq: int

    constructor (bases: string)
      ensures this.bases == bases && graphMappingStatus == NotMapped
    {
      this.bases := bases;
      isGraphReverseStrand := false;
      graphAlignmentScore := 0;
      graphCigar := "";
      graphPos := 0;
      graphMappingStatus := NotMapped;
      isGraphAlignmentUnique := false;
      graphMapq := 0;
    }
  }

  class PathAligner {
    var kmerSize: nat
    var index: Option<KmerIndex>   // pKmerIndex: empty until setGraph
    var attempted: nat
    var anchored: nat
    var mapped: nat

    ghost predicate Valid()
      reads this
    {
      Ordered(Counts()) && (index.Some? ==> index.value.kmerLength == kmerSize)
    }

    function Counts(): Counters
      reads this
    {
      Counters(attempted, anchored, mapped)
    }

    constructor (kmerSize: nat := DEFAULT_KMER_SIZE)
      ensures Valid() && this.kmerSize == kmerSize && index.None? && Counts() == Counters(0, 0, 0)
    {
      this.kmerSize := kmerSize;
      index := None;
      attempted, anchored, mapped := 0, 0, 0;
    }

    /** Builds the k-mer index of a graph; `idx` is what the graphtools KmerIndex constructor builds for kmerSize. */
    method SetGraph(idx: KmerIndex)
      requires Valid() && idx.kmerLength == kmerSize
      modifies this`index
      ensures Valid() && index == Some(idx)
    {
      index := Some(idx);
    }

    /**
     * The inner loop of alignRead over one strand: appends the strand's
     * matches to `matches`, resuming one past each match it records.
     */
    static method ScanStrand(idx: KmerIndex, tools: Graphtools, readBases: string, isReverse: bool,
                             matches: seq<ExactMatch>) returns (result: seq<ExactMatch>)
      requires Sound(tools, idx.kmerLength)
      ensures result == matches + ScanFrom(idx, tools, readBases, isReverse, 0)
    {
      var k := idx.kmerLength;
      result := matches;
      var pos: nat := 0;
      while pos + k <= |readBases|
        invariant result + ScanFrom(idx, tools, readBases, isReverse, pos)
                  == matches + ScanFrom(idx, tools, readBases, isReverse, 0)
        decreases |readBases| - pos
      {
        var kmer := readBases[pos..pos + k];
        if idx.numPaths(kmer) == 1 {
          var qpos := pos;
          var extended := tools.extendPathMatching(idx.firstPath(kmer), readBases, qpos);
          var m := ExactMatch(extended.qpos, extended.path, isReverse);
          ghost var rest := ScanFrom(idx, tools, readBases, isReverse, End(m) + 1);
          assert IsUniqueSeed(idx, readBases, pos);
          assert m == SeedMatch(idx, tools, readBases, pos, isReverse);
          assert ScanFrom(idx, tools, readBases, isReverse, pos) == [m] + rest;
          assert result + ([m] + rest) == (result + [m]) + rest;
          result := result + [m];
          pos := result[|result| - 1].qpos + result[|result| - 1].path.length;
          assert pos == End(m);
        } else {
          assert ScanFrom(idx, tools, readBases, isReverse, pos) == ScanFrom(idx, tools, readBases, isReverse, pos + 1);
        }
        pos := pos + 1;
      }
      assert ScanFrom(idx, tools, readBases, isReverse, pos) == [];
    }

    /** Seeds the read on both strands and returns every match, in discovery order. */
    static method CollectMatches(idx: KmerIndex, tools: Graphtools, bases: string) returns (matches: seq<ExactMatch>)
      requires Sound(tools, idx.kmerLength)
      ensures matches == AllMatches(idx, tools, bases)
    {
      matches := [];
      for strand := 0 to 2
        invariant strand == 1 ==> matches == ScanFrom(idx, tools, bases, false, 0)
        invariant strand == 2 ==> matches == AllMatches(idx, tools, bases)
        invariant strand == 0 ==> matches == []
      {
        var isReverse := strand != 0;
        var readBases := if isReverse then tools.reverseComplement(bases) else bases;
        matches := ScanStrand(idx, tools, readBases, isReverse, matches);
      }
    }

    /**
     * alignRead: counts the attempt, seeds both strands, and when some match
     * covers the whole read translates the first such match onto the read.
     */
    method AlignRead(read: Read, tools: Graphtools)
      requires Valid() && index.Some? && Sound(tools, index.value.kmerLength)
      modifies this`attempted, this`anchored, this`mapped, read
      ensures Valid()
      ensures Counts() == Tally(old(Counts()), Align(index.value, tools, old(read.bases)))
      ensures var o := Align(index.value, tools, old(read.bases));
        if o.Translated? then
          && read.bases == StrandBases(tools, old(read.bases), o.chosen.isReverse)
          && read.isGraphReverseStrand == o.chosen.isReverse
          && read.graphAlignmentScore == o.chosen.path.length
          && read.graphCigar == tools.graphCigar(
               Cigar.Render(Cigar.LinearCigar(o.chosen.qpos, o.chosen.path.length, |old(read.bases)|)), o.chosen.path)
          && read.graphPos == o.chosen.path.startPosition
          && read.graphMappingStatus == Mapped
          && read.isGraphAlignmentUnique == o.unique
          && read.graphMapq == (if o.unique then UNIQUE_MAPQ else AMBIGUOUS_MAPQ)
        else
          unchanged(read)
    {
      attempted := attempted + 1;
      var idx := index.value;
      ghost var o := Align(idx, tools, read.bases);
      var readLength := |read.bases|;
      if readLength < idx.kmerLength {
        assert o == TooShort;
        return;
      }
      var matches := CollectMatches(idx, tools, read.bases);
      if matches != [] {
        anchored := anchored + 1;
      }
      var filtered := FullLength(matches, readLength);
      if filtered == [] {
        assert !o.Translated? && (IsAnchored(o) <==> matches != []);
        return;
      }
      var mem := filtered[0];
      assert o == Translated(mem, |filtered| == 1);
      TranslateMatch(read, tools, mem, readLength, |filtered| == 1);
      mapped := mapped + 1;
    }

    /**
     * The translation step of alignRead: puts the read on the strand of the
     * chosen match and records the match as the read's graph alignment.
     */
    static method TranslateMatch(read: Read, tools: Graphtools, mem: ExactMatch, readLength: nat, unique: bool)
      modifies read
      ensures read.bases == StrandBases(tools, old(read.bases), mem.isReverse)
      ensures read.isGraphReverseStrand == mem.isReverse
      ensures read.graphAlignmentScore == mem.path.length
      ensures read.graphCigar == tools.graphCigar(Cigar.Render(Cigar.LinearCigar(mem.qpos, mem.path.length, readLength)), mem.path)
      ensures read.graphPos == mem.path.startPosition
      ensures read.graphMappingStatus == Mapped
      ensures read.isGraphAlignmentUnique == unique
      ensures read.graphMapq == (if unique then UNIQUE_MAPQ else AMBIGUOUS_MAPQ)
    {
      if mem.isReverse {
        read.bases := tools.reverseComplement(read.bases);
        read.isGraphReverseStrand := true;
      } else {
        read.isGraphReverseStrand := false;
      }

      var cigar := LinearCigarText(mem.qpos, mem.path.length, readLength);

      read.graphAlignmentScore := mem.path.length;
      read.graphCigar := tools.graphCigar(cigar, mem.path);
      read.graphPos := mem.path.startPosition;
      read.graphMappingStatus := Mapped;
      if !unique {
        read.isGraphAlignmentUnique := false;
        read.graphMapq := AMBIGUOUS_MAPQ;
      } else {
        read.isGraphAlignmentUnique := true;
        read.graphMapq := UNIQUE_MAPQ;
      }
    }

    /** The linear CIGAR text alignRead builds: the leading soft clip, the match, the trailing soft clip. */
    static method LinearCigarText(qpos: nat, len: nat, readLength: nat) returns (cigar: string)
      ensures cigar == Cigar.Render(Cigar.LinearCigar(qpos, len, readLength))
    {
      ghost var leadText := if qpos > 0 then Cigar.Decimal(qpos) + "S" else "";
      ghost var trailText := if qpos + len < readLength then Cigar.Decimal(readLength - qpos - len) + "S" else "";
      cigar := "";
      if qpos > 0 {
        cigar := cigar + (Cigar.Decimal(qpos) + "S");
      }
      assert cigar == leadText;
      cigar := cigar + (Cigar.Decimal(len) + "M");
      ghost var withMatch := cigar;
      if qpos + len < readLength {
        cigar := cigar + (Cigar.Decimal(readLength - qpos - len) + "S");
      }
      assert cigar == withMatch + trailText;
      Cigar.RenderLinearCigar(qpos, len, readLength);
    }
  }
}
