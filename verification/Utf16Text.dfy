/** Text as the JavaScript runtime sees it: a sequence of UTF-16 code units.

    Models the text canonicalization shared by the brick digest and the actor module, and the
    surrogate check of the decode kernel. */
module Utf16Text {

  newtype CodeUnit = u: int | 0 <= u < 0x1_0000

  type Text = seq<CodeUnit>

  const BOM: CodeUnit := 0xFEFF
  const CR: CodeUnit := 0x0D
  const LF: CodeUnit := 0x0A

  // ---------------------------------------------------------------- canonicalization

  /** `value.replace(/^\uFEFF/, "")`: at most one leading byte order mark is removed. */
  function StripLeadingBom(t: Text): Text {
    if StartsWithBom(t) then t[1..] else t
  }

  predicate StartsWithBom(t: Text) {
    |t| > 0 && t[0] == BOM
  }

  predicate StartsWithTwoBoms(t: Text) {
    |t| > 1 && t[0] == BOM && t[1] == BOM
  }

  predicate NotLedByBom(t: Text) { !StartsWithBom(t) }

  predicate NotLedByTwoBoms(t: Text) { !StartsWithTwoBoms(t) }

  predicate NotLoneBom(t: Text) { t != [BOM] }

  predicate CrFree(t: Text) { CR !in t }

  predicate IsCanonical(t: Text) { CanonicalizeText(t) == t }

  /** `value.replace(/\r\n?/g, "\n")` */
  function NormalizeNewlines(t: Text): Text {
    if t == [] then []
    else if t[0] != CR then [t[0]] + NormalizeNewlines(t[1..])
    else if |t| > 1 && t[1] == LF then [LF] + NormalizeNewlines(t[2..])
    else [LF] + NormalizeNewlines(t[1..])
  }

  function CanonicalizeText(t: Text): Text {
    NormalizeNewlines(StripLeadingBom(t))
  }

  lemma {:induction false} NewlinesRemoveEveryCr(t: Text)
    ensures CR !in NormalizeNewlines(t)
  {
    if t != [] {
      NewlinesRemoveEveryCr(t[1..]);
      if |t| > 1 { NewlinesRemoveEveryCr(t[2..]); }
    }
  }

  lemma {:induction false} NewlinesFixCrFreeText(t: Text)
    requires CR !in t
    ensures NormalizeNewlines(t) == t
  {
    if t != [] {
      NewlinesFixCrFreeText(t[1..]);
    }
  }

  lemma NewlinesKeepBomAndEmptiness(t: Text)
    ensures StartsWithBom(NormalizeNewlines(t)) <==> StartsWithBom(t)
    ensures NormalizeNewlines(t) == [] <==> t == []
  {}

  /** Newline normalization works piecewise, except across a CR LF pair that the cut would split.
      With its values on one unit and on CR LF this determines the function. */
  lemma {:induction false} NewlinesSplitOutsideCrLf(a: Text, b: Text)
    requires a == [] || b == [] || a[|a| - 1] != CR || b[0] != LF
    ensures NormalizeNewlines(a + b) == NormalizeNewlines(a) + NormalizeNewlines(b)
  {
    if a == [] {
      assert a + b == b;
    } else {
      var skip := if a[0] == CR && |a| > 1 && a[1] == LF then 2 else 1;
      assert (a + b)[skip..] == a[skip..] + b;
      NewlinesSplitOutsideCrLf(a[skip..], b);
    }
  }

  /** A text is its own canonical form exactly when it has no CR and no leading BOM. */
  lemma CanonicalTextFixedIff(t: Text)
    ensures CanonicalizeText(t) == t <==> CR !in t && !StartsWithBom(t)
  {
    NewlinesRemoveEveryCr(StripLeadingBom(t));
    if CR !in t {
      NewlinesFixCrFreeText(StripLeadingBom(t));
    }
  }

  /** The canonical form is CR-free, and starts with a BOM exactly when two BOMs led the input. */
  lemma CanonicalTextShape(t: Text)
    ensures CR !in CanonicalizeText(t)
    ensures StartsWithBom(CanonicalizeText(t)) <==> StartsWithTwoBoms(t)
    ensures CanonicalizeText(t) == [] <==> t == [] || t == [BOM]
  {
    NewlinesRemoveEveryCr(StripLeadingBom(t));
    NewlinesKeepBomAndEmptiness(StripLeadingBom(t));
  }

  /** Canonicalization is not idempotent: it is so exactly on texts not led by two BOMs. */
  lemma CanonicalTextIdempotentIff(t: Text)
    ensures CanonicalizeText(CanonicalizeText(t)) == CanonicalizeText(t) <==> !StartsWithTwoBoms(t)
  {
    CanonicalTextShape(t);
    CanonicalTextFixedIff(CanonicalizeText(t));
  }

  lemma TwoBomsBreakIdempotence()
    ensures CanonicalizeText([BOM, BOM]) == [BOM]
    ensures CanonicalizeText(CanonicalizeText([BOM, BOM])) == []
  {
    assert StripLeadingBom([BOM, BOM]) == [BOM];
    assert NormalizeNewlines([BOM]) == [BOM] + NormalizeNewlines([]);
  }

  // ---------------------------------------------------------------- surrogates

  predicate IsHigh(u: CodeUnit) { 0xD800 <= u <= 0xDBFF }

  predicate IsLow(u: CodeUnit) { 0xDC00 <= u <= 0xDFFF }

  /** Well-formed UTF-16: every high surrogate is followed by a low one, no low one stands alone. */
  predicate WellFormedUtf16(t: Text) {
    if t == [] then true
    else if IsHigh(t[0]) then |t| > 1 && IsLow(t[1]) && WellFormedUtf16(t[2..])
    else !IsLow(t[0]) && WellFormedUtf16(t[1..])
  }

  /** What the scan accepts: well-formed text, possibly followed by one unpaired high surrogate. */
  predicate PassesSurrogateScan(t: Text) {
    || WellFormedUtf16(t)
    || (|t| > 0 && IsHigh(t[|t| - 1]) && WellFormedUtf16(t[..|t| - 1]))
  }

  lemma {:induction false} ScanStep(t: Text)
    requires t != []
    ensures PassesSurrogateScan(t) <==>
            if IsHigh(t[0]) then |t| == 1 || (IsLow(t[1]) && PassesSurrogateScan(t[2..]))
            else !IsLow(t[0]) && PassesSurrogateScan(t[1..])
  {
    var front := t[..|t| - 1];
    if IsHigh(t[0]) {
      if |t| > 2 {
        assert front[2..] == t[2..][..|t| - 3];
      } else if |t| == 1 {
        assert front == [];
      }
    } else if |t| > 1 {
      assert front[1..] == t[1..][..|t| - 2];
    }
  }

  /** The scan of the decode kernel. Reading past the end yields NaN, so a final high surrogate is
      let through: the scan decides `PassesSurrogateScan`, not well-formedness. */
  method HasLoneSurrogate(value: Text) returns (lone: bool)
    ensures lone <==> !PassesSurrogateScan(value)
  {
    var index := 0;
    while index < |value|
      invariant index <= |value| ==> (PassesSurrogateScan(value) <==> PassesSurrogateScan(value[index..]))
      invariant index > |value| ==> PassesSurrogateScan(value)
    {
      var code := value[index];
      var rest := value[index..];
      ScanStep(rest);
      if IsHigh(code) {
        if index + 1 < |value| {
          var next := value[index + 1];
          if next < 0xDC00 || next > 0xDFFF { return true; }
          assert rest[2..] == value[index + 2..];
        }
        index := index + 1;
      } else if IsLow(code) {
        return true;
      } else {
        assert rest[1..] == value[index + 1..];
      }
      index := index + 1;
    }
    return false;
  }

  /** The scan accepts exactly one family of ill-formed texts: a high surrogate as last unit. */
  lemma ScanMissesOnlyAFinalHighSurrogate(t: Text)
    ensures PassesSurrogateScan(t) && !WellFormedUtf16(t) <==>
            |t| > 0 && IsHigh(t[|t| - 1]) && WellFormedUtf16(t[..|t| - 1])
  {
    if |t| > 0 && IsHigh(t[|t| - 1]) && WellFormedUtf16(t) {
      HighNeverLast(t);
    }
  }

  lemma {:induction false} HighNeverLast(t: Text)
    requires t != [] && WellFormedUtf16(t)
    ensures !IsHigh(t[|t| - 1])
  {
    var skip := if IsHigh(t[0]) then 2 else 1;
    if |t| > skip {
      HighNeverLast(t[skip..]);
    }
  }

  /** Canonicalization never makes an accepted text unacceptable to the scan. */
  lemma CanonicalTextPassesScan(t: Text)
    requires PassesSurrogateScan(t)
    ensures PassesSurrogateScan(CanonicalizeText(t))
  {
    if t != [] {
      ScanStep(t);
    }
    NewlinesPassScan(StripLeadingBom(t));
  }

  lemma {:induction false} NewlinesPassScan(t: Text)
    requires PassesSurrogateScan(t)
    ensures PassesSurrogateScan(NormalizeNewlines(t))
  {
    if t != [] {
      ScanStep(t);
      var n := NormalizeNewlines(t);
      if IsHigh(t[0]) {
        if |t| > 1 {
          NewlinesPassScan(t[2..]);
          assert t[1..][1..] == t[2..];
          assert n == [t[0], t[1]] + NormalizeNewlines(t[2..]);
          assert n[2..] == NormalizeNewlines(t[2..]);
        } else {
          assert n == t;
        }
      } else {
        var skip := if t[0] == CR && |t| > 1 && t[1] == LF then 2 else 1;
        if skip == 2 {
          ScanStep(t[1..]);
          assert t[1..][1..] == t[2..];
        }
        NewlinesPassScan(t[skip..]);
        assert n[1..] == NormalizeNewlines(t[skip..]);
      }
      ScanStep(n);
    }
  }

  // ---------------------------------------------------------------- decimal numerals

  /** `String(n)` */
  function Decimal(n: nat): Text {
    (if n < 10 then [] else Decimal(n / 10)) + [(0x30 + n % 10) as CodeUnit]
  }

  lemma {:induction false} DecimalIsInjective(m: nat, n: nat)
    requires Decimal(m) == Decimal(n)
    ensures m == n
  {
    DecimalEnds(m);
    DecimalEnds(n);
    if m >= 10 && n >= 10 {
      assert Decimal(m)[..|Decimal(m)| - 1] == Decimal(m / 10) && Decimal(n)[..|Decimal(n)| - 1] == Decimal(n / 10);
      DecimalIsInjective(m / 10, n / 10);
    }
  }

  lemma DecimalEnds(n: nat)
    ensures Decimal(n) != [] && Decimal(n)[|Decimal(n)| - 1] as int == 0x30 + n % 10
    ensures n >= 10 ==> |Decimal(n)| >= 2
    ensures n < 10 ==> |Decimal(n)| == 1
  {
    if n >= 10 { DecimalEnds(n / 10); }
  }
}
