/** Decimal text, as used in segment file names and in generated task names. */
module Decimal {
  predicate IsDigit(c: char) {
    '0' <= c <= '9'
  }

  predicate AllDigits(s: string) {
    forall i :: 0 <= i < |s| ==> IsDigit(s[i])
  }

  function Digit(d: nat): (c: char)
    requires d < 10
    ensures IsDigit(c) && c as int - '0' as int == d
  {
    ('0' as int + d) as char
  }

  function Text(n: nat): (s: string)
    ensures |s| > 0 && AllDigits(s)
  {
    if n < 10 then [Digit(n)] else Text(n / 10) + [Digit(n % 10)]
  }

  /** The number a digit string denotes, leading zeros allowed. */
  function Value(s: string): nat
    requires AllDigits(s)
  {
    if |s| == 0 then 0
    else Value(s[..|s| - 1]) * 10 + (s[|s| - 1] as int - '0' as int)
  }

  lemma {:induction false} ValueOfText(n: nat)
    ensures Value(Text(n)) == n
  {
    if n >= 10 {
      var s := Text(n);
      assert s[..|s| - 1] == Text(n / 10);
      ValueOfText(n / 10);
    }
  }

  function Zeros(n: nat): (s: string)
    ensures |s| == n && AllDigits(s)
  {
    seq(n, _ => '0')
  }

  lemma {:induction false} ValueOfPadded(n: nat, s: string)
    requires AllDigits(s)
    ensures AllDigits(Zeros(n) + s)
    ensures Value(Zeros(n) + s) == Value(s)
  {
    var t := Zeros(n) + s;
    if |s| > 0 {
      ValueOfPadded(n, s[..|s| - 1]);
      assert t[..|t| - 1] == Zeros(n) + s[..|s| - 1];
    } else if n > 0 {
      assert t[..|t| - 1] == Zeros(n - 1) + s;
      ValueOfPadded(n - 1, s);
    }
  }

  lemma TextIsInjective(m: nat, n: nat)
    requires Text(m) == Text(n)
    ensures m == n
  {
    ValueOfText(m);
    ValueOfText(n);
  }
}

/** Names of segment files: a prefix, the index in at least six digits, a suffix. */
module SegmentNames {
  import opened Wrappers
  import D = Decimal

  const PREFIX := "segment-"
  const SUFFIX := ".pcm"
  const U64_LIMIT := 0x1_0000_0000_0000_0000

  function Padded(index: nat): (s: string)
    ensures |s| > 0 && D.AllDigits(s)
    ensures D.Value(s) == index
  {
    var text := D.Text(index);
    D.ValueOfText(index);
    D.ValueOfPadded(if |text| < 6 then 6 - |text| else 0, text);
    D.Zeros(if |text| < 6 then 6 - |text| else 0) + text
  }

  function SegmentName(index: nat): string {
    PREFIX + Padded(index) + SUFFIX
  }

  /** Unsigned 64-bit parsing: an optional plus sign, then digits, no overflow. */
  function ParseU64(s: string): Option<nat> {
    var digits := if |s| > 0 && s[0] == '+' then s[1..] else s;
    if |digits| == 0 || !D.AllDigits(digits) || D.Value(digits) >= U64_LIMIT then None
    else Some(D.Value(digits))
  }

  function SegmentIndexFromName(name: string): Option<nat> {
    if PREFIX <= name && |name| >= |PREFIX| + |SUFFIX| && name[|name| - |SUFFIX|..] == SUFFIX then
      ParseU64(name[|PREFIX|..|name| - |SUFFIX|])
    else None
  }

  lemma NameInner(index: nat)
    ensures var name := SegmentName(index);
            |name| >= |PREFIX| + |SUFFIX| && name[|PREFIX|..|name| - |SUFFIX|] == Padded(index)
  {
  }

  lemma NameRoundTrip(index: nat)
    requires index < U64_LIMIT
    ensures SegmentIndexFromName(SegmentName(index)) == Some(index)
  {
    NameInner(index);
    var name := SegmentName(index);
    assert name[|name| - |SUFFIX|..] == SUFFIX;
    assert PREFIX <= name;
    assert D.IsDigit(Padded(index)[0]);
  }

  /** A name in which digits, possibly behind a plus sign, stand for an index. */
  predicate Denotes(name: string, digits: string, index: nat) {
    && digits != "" && D.AllDigits(digits) && D.Value(digits) == index
    && (name == "segment-" + digits + ".pcm" || name == "segment-+" + digits + ".pcm")
  }

  /** A file is taken for a segment exactly if its name denotes an index that fits 64 bits. */
  lemma ParsesExactly(name: string)
    ensures SegmentIndexFromName(name).Some? <==>
            exists digits, index: nat :: Denotes(name, digits, index) && index < 0x1_0000_0000_0000_0000
    ensures forall digits, index: nat :: Denotes(name, digits, index) && index < 0x1_0000_0000_0000_0000 ==>
              SegmentIndexFromName(name) == Some(index)
  {
    if SegmentIndexFromName(name).Some? {
      var inner := name[|PREFIX|..|name| - |SUFFIX|];
      assert name == PREFIX + inner + SUFFIX;
      if inner[0] == '+' {
        assert inner == "+" + inner[1..] && name == "segment-+" + inner[1..] + ".pcm";
        assert Denotes(name, inner[1..], SegmentIndexFromName(name).value);
      } else {
        assert Denotes(name, inner, SegmentIndexFromName(name).value);
      }
    }
    forall digits, index: nat | Denotes(name, digits, index) && index < U64_LIMIT
      ensures SegmentIndexFromName(name) == Some(index)
    {
      DenotedIsParsed(name, digits, index);
    }
  }

  lemma DenotedIsParsed(name: string, digits: string, index: nat)
    requires Denotes(name, digits, index) && index < U64_LIMIT
    ensures SegmentIndexFromName(name) == Some(index)
  {
    var inner := if name == "segment-" + digits + ".pcm" then digits else "+" + digits;
    assert D.IsDigit(digits[0]);
    assert name == PREFIX + inner + SUFFIX;
    assert PREFIX <= name && name[|name| - |SUFFIX|..] == SUFFIX && name[|PREFIX|..|name| - |SUFFIX|] == inner;
    assert inner[0] == '+' ==> inner[1..] == digits;
  }

  /** An index is written with at least six digits, and more only if it needs them. */
  lemma NamesArePadded(index: nat)
    ensures var digits := Padded(index);
            Denotes(SegmentName(index), digits, index) && |digits| >= 6 && (|digits| > 6 ==> digits == D.Text(index))
  {
    if |D.Text(index)| >= 6 {
      assert D.Zeros(0) + D.Text(index) == D.Text(index);
    }
  }

  lemma NamesAreDistinct(i: nat, j: nat)
    requires SegmentName(i) == SegmentName(j)
    ensures i == j
  {
    NameInner(i);
    NameInner(j);
  }
}
