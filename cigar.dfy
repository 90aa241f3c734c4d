/**
 * The linear CIGAR text that PathAligner::alignRead writes before it projects
 * the alignment onto the graph: decimal counts as `std::to_string` prints them,
 * each followed by an operation letter, e.g. "3S97M".
 *
 * Besides the rendering used by the aligner, this module defines a reader for
 * such text, so that what the aligner writes can be stated as "reads back as
 * these operations".
 */
module Cigar {
  import opened Wrappers

  /** One CIGAR operation: a length and an operation letter ('S' soft clip, 'M' match). */
  datatype Op = Op(count: nat, kind: char)

  predicate IsDigit(c: char) {
    '0' <= c <= '9'
  }

  predicate AllDigits(s: string) {
    forall i :: 0 <= i < |s| ==> IsDigit(s[i])
  }

  function DigitValue(c: char): (d: nat)
    requires IsDigit(c)
    ensures d < 10
  {
    (c as int) - ('0' as int)
  }

  function DigitChar(d: nat): (c: char)
    requires d < 10
    ensures IsDigit(c) && DigitValue(c) == d
  {
    ((('0' as int) + d) as char)
  }

  /** `std::to_string` of an unsigned count: most significant digit first, no leading zero. */
  function Decimal(n: nat): (s: string)
    ensures 1 <= |s| && AllDigits(s)
    ensures s[0] == '0' ==> n == 0
    ensures n < 10 <==> |s| == 1
  {
    if n < 10 then [DigitChar(n)] else Decimal(n / 10) + [DigitChar(n % 10)]
  }

  /** The number a string of decimal digits denotes. */
  function DecimalValue(s: string): nat
    requires AllDigits(s)
  {
    if s == [] then 0 else DecimalValue(s[..|s| - 1]) * 10 + DigitValue(s[|s| - 1])
  }

  lemma {:induction false} DecimalRoundTrip(n: nat)
    ensures DecimalValue(Decimal(n)) == n
  {
    if n >= 10 {
      var s := Decimal(n);
      assert s[..|s| - 1] == Decimal(n / 10);
      DecimalRoundTrip(n / 10);
    }
  }

  /** The text of a list of operations: each count in decimal, then its letter. */
  function Render(ops: seq<Op>): string
  {
    if ops == [] then "" else Decimal(ops[0].count) + [ops[0].kind] + Render(ops[1..])
  }

  /** Length of the run of digits at the start of `s`. */
  function LeadingDigits(s: string): (n: nat)
    ensures n <= |s| && AllDigits(s[..n])
    ensures n < |s| ==> !IsDigit(s[n])
  {
    if s == [] || !IsDigit(s[0]) then 0
    else
      var m := LeadingDigits(s[1..]);
      assert s[..m + 1] == [s[0]] + s[1..][..m];
      m + 1
  }

  /** Reads CIGAR text back into operations; None when the text is not digits-then-letter repeated. */
  function Parse(s: string): Option<seq<Op>>
    decreases |s|
  {
    if s == [] then Some([])
    else
      var n := LeadingDigits(s);
      if n == 0 || n == |s| then None
      else
        match Parse(s[n + 1..])
        case None => None
        case Some(rest) => Some([Op(DecimalValue(s[..n]), s[n])] + rest)
  }

  lemma {:induction false} LeadingDigitsOfItem(ds: string, k: char, t: string)
    requires AllDigits(ds) && !IsDigit(k)
    ensures LeadingDigits(ds + [k] + t) == |ds|
  {
    if ds != [] {
      assert (ds + [k] + t)[1..] == ds[1..] + [k] + t;
      LeadingDigitsOfItem(ds[1..], k, t);
    }
  }

  /** Rendering then reading gives back the operations, whenever no letter is a digit. */
  lemma {:induction false} ParseRender(ops: seq<Op>)
    requires forall i :: 0 <= i < |ops| ==> !IsDigit(ops[i].kind)
    ensures Parse(Render(ops)) == Some(ops)
  {
    if ops != [] {
      var ds := Decimal(ops[0].count);
      var rest := Render(ops[1..]);
      var s := Render(ops);
      assert s == ds + [ops[0].kind] + rest;
      LeadingDigitsOfItem(ds, ops[0].kind, rest);
      assert s[..|ds|] == ds;
      assert s[|ds| + 1..] == rest;
      DecimalRoundTrip(ops[0].count);
      ParseRender(ops[1..]);
      assert [ops[0]] + ops[1..] == ops;
    }
  }

  lemma {:induction false} RenderAppend(a: seq<Op>, b: seq<Op>)
    ensures Render(a + b) == Render(a) + Render(b)
  {
    if a != [] {
      assert (a + b)[1..] == a[1..] + b;
      RenderAppend(a[1..], b);
    } else {
      assert a + b == b;
    }
  }

  /** Sum of the operation lengths: the number of read bases the CIGAR accounts for. */
  function TotalLength(ops: seq<Op>): nat
  {
    if ops == [] then 0 else ops[0].count + TotalLength(ops[1..])
  }

  lemma {:induction false} TotalLengthAppend(a: seq<Op>, b: seq<Op>)
    ensures TotalLength(a + b) == TotalLength(a) + TotalLength(b)
  {
    if a != [] {
      assert (a + b)[1..] == a[1..] + b;
      TotalLengthAppend(a[1..], b);
    } else {
      assert a + b == b;
    }
  }

  /**
   * The operations of the linear alignment of a match of length `len` that
   * starts at read offset `qpos` in a read of `readLength` bases: a leading
   * soft clip when qpos > 0, the match, a trailing soft clip when the match
   * ends before the read does.
   */
  function LinearCigar(qpos: nat, len: nat, readLength: nat): seq<Op>
  {
    (if qpos > 0 then [Op(qpos, 'S')] else [])
    + [Op(len, 'M')]
    + (if qpos + len < readLength then [Op(readLength - qpos - len, 'S')] else [])
  }

  /** The text of the linear CIGAR, piece by piece: what appending each piece to a string yields. */
  lemma RenderLinearCigar(qpos: nat, len: nat, readLength: nat)
    ensures Render(LinearCigar(qpos, len, readLength))
         == (if qpos > 0 then Decimal(qpos) + "S" else "")
          + (Decimal(len) + "M")
          + (if qpos + len < readLength then Decimal(readLength - qpos - len) + "S" else "")
  {
    var lead: seq<Op> := if qpos > 0 then [Op(qpos, 'S')] else [];
    var trail: seq<Op> := if qpos + len < readLength then [Op(readLength - qpos - len, 'S')] else [];
    RenderAppend(lead, [Op(len, 'M')]);
    RenderAppend(lead + [Op(len, 'M')], trail);
    assert Render([Op(len, 'M')]) == Decimal(len) + "M";
    assert qpos > 0 ==> Render(lead) == Decimal(qpos) + "S";
    assert qpos + len < readLength ==> Render(trail) == Decimal(readLength - qpos - len) + "S";
  }

  /** A match over the whole read is a single 'M' with no clip on either side. */
  lemma WholeReadCigar(n: nat)
    ensures LinearCigar(0, n, n) == [Op(n, 'M')]
    ensures Render(LinearCigar(0, n, n)) == Decimal(n) + "M"
  {
    assert LinearCigar(0, n, n) == [] + [Op(n, 'M')] + [];
    assert Render([Op(n, 'M')]) == Decimal(n) + "M";
  }

  /**
   * The linear CIGAR reads back as its operations; every clip is a non-empty
   * 'S', exactly one operation is the 'M' of length `len`, and when the match
   * lies inside the read the operation lengths add up to the read length.
   */
  lemma LinearCigarShape(qpos: nat, len: nat, readLength: nat)
    ensures var ops := LinearCigar(qpos, len, readLength);
      && Parse(Render(ops)) == Some(ops)
      && (qpos + len <= readLength ==> TotalLength(ops) == readLength)
      && (forall i :: 0 <= i < |ops| ==> (ops[i].kind == 'S' ==> ops[i].count > 0))
      && (forall i :: 0 <= i < |ops| ==> (ops[i].kind == 'M' <==> i == (if qpos > 0 then 1 else 0)))
      && ops[if qpos > 0 then 1 else 0] == Op(len, 'M')
      && (ops[0].kind == 'S' <==> qpos > 0)
      && (ops[|ops| - 1].kind == 'S' <==> qpos + len < readLength)
  {
    var ops := LinearCigar(qpos, len, readLength);
    ParseRender(ops);
    var lead: seq<Op> := if qpos > 0 then [Op(qpos, 'S')] else [];
    var trail: seq<Op> := if qpos + len < readLength then [Op(readLength - qpos - len, 'S')] else [];
    TotalLengthAppend(lead, [Op(len, 'M')]);
    TotalLengthAppend(lead + [Op(len, 'M')], trail);
  }
}
