/**
 * String helpers shared by the controllers and patterns: the decimal text of an
 * integer (what C# `int.ToString()` and string interpolation of an `int` produce),
 * its inverse, ordinal substring search (`string.Contains`), and splitting on a
 * separator character (`string.Split(char)`).
 */
module Text {

  datatype Option<+T> = None | Some(value: T)

  predicate IsDigit(c: char) {
    '0' <= c <= '9'
  }

  predicate AllDigits(s: string) {
    forall i :: 0 <= i < |s| ==> IsDigit(s[i])
  }

  function DigitChar(d: nat): (c: char)
    requires d < 10
    ensures IsDigit(c)
  {
    (('0' as int) + d) as char
  }

  function DigitValue(c: char): (d: nat)
    requires IsDigit(c)
    ensures d < 10
  {
    (c as int) - ('0' as int)
  }

  /** Decimal digits of n, most significant first, no leading zeros. */
  function NatToText(n: nat): (s: string)
    ensures |s| >= 1 && AllDigits(s)
    ensures |s| > 1 ==> s[0] != '0'
    decreases n
  {
    if n < 10 then [DigitChar(n)] else NatToText(n / 10) + [DigitChar(n % 10)]
  }

  /** Culture-invariant decimal text of an integer, with a leading '-' when negative. */
  function IntToText(n: int): (s: string)
    ensures |s| >= 1
    ensures n < 0 <==> s[0] == '-'
  {
    if n < 0 then "-" + NatToText(-n) else NatToText(n)
  }

  /** The number a non-empty run of decimal digits denotes. */
  function DigitsValue(s: string): nat
    requires AllDigits(s)
    decreases |s|
  {
    if s == [] then 0 else DigitsValue(s[..|s| - 1]) * 10 + DigitValue(s[|s| - 1])
  }

  /** Reads an optional '-' followed by at least one decimal digit. */
  function ParseInt(s: string): Option<int>
  {
    if |s| >= 2 && s[0] == '-' && AllDigits(s[1..]) then Some(-(DigitsValue(s[1..]) as int))
    else if |s| >= 1 && AllDigits(s) then Some(DigitsValue(s))
    else None
  }

  lemma {:induction false} NatToTextValue(n: nat)
    ensures DigitsValue(NatToText(n)) == n
    decreases n
  {
    var s := NatToText(n);
    if n >= 10 {
      NatToTextValue(n / 10);
      assert s[..|s| - 1] == NatToText(n / 10);
      assert DigitValue(s[|s| - 1]) == n % 10;
    } else {
      assert DigitValue(s[|s| - 1]) == n;
    }
  }

  /** Parsing the decimal text of an integer gives the integer back. */
  lemma IntToTextRoundTrip(n: int)
    ensures ParseInt(IntToText(n)) == Some(n)
  {
    var s := IntToText(n);
    if n < 0 {
      NatToTextValue(-n);
      assert s[1..] == NatToText(-n);
    } else {
      NatToTextValue(n);
      assert s[0] != '-';
    }
  }

  /** Distinct integers have distinct decimal texts. */
  lemma IntToTextInjective(a: int, b: int)
    ensures IntToText(a) == IntToText(b) ==> a == b
  {
    IntToTextRoundTrip(a);
    IntToTextRoundTrip(b);
  }

  /** `width`-wide decimal text of n, left-padded with '0' (format strings such as "yyyy", "MM"). */
  function PadDigits(n: nat, width: nat): (s: string)
    ensures |s| >= width && AllDigits(s)
    ensures DigitsValue(s) == n
  {
    var t := NatToText(n);
    NatToTextValue(n);
    var pad := if |t| < width then width - |t| else 0;
    var r := seq(pad, _ => '0') + t;
    LeadingZerosValue(pad, t);
    r
  }

  function Pow10(k: nat): (p: nat)
    ensures p >= 1
  {
    if k == 0 then 1 else 10 * Pow10(k - 1)
  }

  /** A number below 10^width has at most `width` digits. */
  lemma {:induction false} NatToTextLength(n: nat, width: nat)
    requires width >= 1 && n < Pow10(width)
    ensures |NatToText(n)| <= width
    decreases n
  {
    if n >= 10 {
      assert width >= 2;
      NatToTextLength(n / 10, width - 1);
    }
  }

  /** Padding a number below 10^width gives exactly `width` digits. */
  lemma PadDigitsWidth(n: nat, width: nat)
    requires width >= 1 && n < Pow10(width)
    ensures |PadDigits(n, width)| == width
  {
    NatToTextLength(n, width);
  }

  /** Two paddings of the same width are equal only for the same number. */
  lemma PadDigitsInjective(a: nat, b: nat, width: nat)
    ensures PadDigits(a, width) == PadDigits(b, width) ==> a == b
  {
  }

  lemma {:induction false} LeadingZerosValue(k: nat, t: string)
    requires AllDigits(t)
    ensures AllDigits(seq(k, _ => '0') + t)
    ensures DigitsValue(seq(k, _ => '0') + t) == DigitsValue(t)
    decreases |t|
  {
    var z := seq(k, _ => '0');
    if t == [] {
      assert z + t == z;
      ZerosValue(k);
    } else {
      var init := t[..|t| - 1];
      assert (z + t)[..|z + t| - 1] == z + init;
      LeadingZerosValue(k, init);
    }
  }

  lemma {:induction false} ZerosValue(k: nat)
    ensures AllDigits(seq(k, _ => '0'))
    ensures DigitsValue(seq(k, _ => '0')) == 0
  {
    if k > 0 {
      var z := seq(k, _ => '0');
      assert z[..k - 1] == seq(k - 1, _ => '0');
      ZerosValue(k - 1);
    }
  }

  /** `sub` occurs in `s` starting at index i. */
  predicate OccursAt(s: string, sub: string, i: nat) {
    i + |sub| <= |s| && s[i..i + |sub|] == sub
  }

  /** Ordinal, case-sensitive substring test (C# `string.Contains(string)`). */
  function Contains(s: string, sub: string): bool
    decreases |s|
  {
    if |sub| > |s| then false
    else if s[..|sub|] == sub then true
    else Contains(s[1..], sub)
  }

  /** `Contains` holds exactly when the text occurs at some position, not only at the start. */
  lemma {:induction false} ContainsIff(s: string, sub: string)
    ensures Contains(s, sub) <==> exists i: nat :: OccursAt(s, sub, i)
    decreases |s|
  {
    if |sub| > |s| {
      forall i: nat ensures !OccursAt(s, sub, i) { }
    } else if s[..|sub|] == sub {
      assert OccursAt(s, sub, 0);
    } else {
      ContainsIff(s[1..], sub);
      if Contains(s[1..], sub) {
        var i: nat :| OccursAt(s[1..], sub, i);
        assert s[i + 1..i + 1 + |sub|] == s[1..][i..i + |sub|];
        assert OccursAt(s, sub, i + 1);
      } else {
        forall i: nat | OccursAt(s, sub, i) ensures false {
          assert i != 0;
          assert s[1..][i - 1..i - 1 + |sub|] == s[i..i + |sub|];
          assert OccursAt(s[1..], sub, i - 1);
        }
      }
    }
  }

  /** The text after `prefix`, when `line` starts with it. */
  function StripPrefix(line: string, prefix: string): (v: Option<string>)
    ensures v.Some? ==> line == prefix + v.value
  {
    if |line| >= |prefix| && line[..|prefix|] == prefix then Some(line[|prefix|..]) else None
  }

  lemma StripPrefixOf(prefix: string, v: string)
    ensures StripPrefix(prefix + v, prefix) == Some(v)
  {
    assert (prefix + v)[..|prefix|] == prefix;
  }

  /** Text of `sep`-separated pieces (C# `string.Split(char)`): always at least one piece. */
  function Split(s: string, sep: char): (pieces: seq<string>)
    ensures |pieces| >= 1
    ensures forall k :: 0 <= k < |pieces| ==> sep !in pieces[k]
    decreases |s|
  {
    if s == [] then [""]
    else
      var rest := Split(s[1..], sep);
      if s[0] == sep then [""] + rest
      else [[s[0]] + rest[0]] + rest[1..]
  }

  /** Pieces glued back together with `sep` between each pair (C# `string.Join`). */
  function Join(pieces: seq<string>, sep: char): string
    requires |pieces| >= 1
    decreases |pieces|
  {
    if |pieces| == 1 then pieces[0] else pieces[0] + [sep] + Join(pieces[1..], sep)
  }

  /** Splitting loses nothing: joining the pieces with the separator rebuilds the text. */
  lemma {:induction false} JoinSplit(s: string, sep: char)
    ensures Join(Split(s, sep), sep) == s
    decreases |s|
  {
    if s != [] {
      var rest := Split(s[1..], sep);
      JoinSplit(s[1..], sep);
      if s[0] == sep {
        assert Split(s, sep)[1..] == rest;
      } else {
        var p := Split(s, sep);
        if |rest| == 1 {
          assert p == [[s[0]] + rest[0]];
        } else {
          assert p[1..] == rest[1..];
          assert Join(rest, sep) == rest[0] + [sep] + Join(rest[1..], sep);
        }
      }
    }
  }

  /** A text without the separator is a single piece. */
  lemma {:induction false} SplitWithoutSeparator(s: string, sep: char)
    requires sep !in s
    ensures Split(s, sep) == [s]
    decreases |s|
  {
    if s != [] {
      SplitWithoutSeparator(s[1..], sep);
      assert [s[0]] + s[1..] == s;
    }
  }

  /** A separator-free first piece followed by the separator splits off as the first piece. */
  lemma {:induction false} SplitFirstPiece(a: string, sep: char, b: string)
    requires sep !in a
    ensures Split(a + [sep] + b, sep) == [a] + Split(b, sep)
    decreases |a|
  {
    if a == [] {
      assert a + [sep] + b == [sep] + b;
      assert ([sep] + b)[1..] == b;
    } else {
      SplitFirstPiece(a[1..], sep, b);
      assert (a + [sep] + b)[1..] == a[1..] + [sep] + b;
      assert [a[0]] + a[1..] == a;
    }
  }

  /** Each line followed by `sep`, as successive `AppendLine` calls write them. */
  function Terminated(lines: seq<string>, sep: char): string
    decreases |lines|
  {
    if lines == [] then "" else lines[0] + [sep] + Terminated(lines[1..], sep)
  }

  lemma {:induction false} TerminatedAppend(p: seq<string>, q: seq<string>, sep: char)
    ensures Terminated(p + q, sep) == Terminated(p, sep) + Terminated(q, sep)
    decreases |p|
  {
    if p != [] {
      TerminatedAppend(p[1..], q, sep);
      assert (p + q)[1..] == p[1..] + q;
    } else {
      assert p + q == q;
    }
  }

  /** Separator-free lines each ended by the separator split back into those lines and a final empty piece. */
  lemma {:induction false} SplitTerminated(lines: seq<string>, sep: char)
    requires forall k :: 0 <= k < |lines| ==> sep !in lines[k]
    ensures Split(Terminated(lines, sep), sep) == lines + [""]
    decreases |lines|
  {
    if lines != [] {
      SplitTerminated(lines[1..], sep);
      SplitFirstPiece(lines[0], sep, Terminated(lines[1..], sep));
      assert [lines[0]] + (lines[1..] + [""]) == lines + [""];
    }
  }

  /** Digits and a minus sign: the decimal text of a number never holds a newline or other separator. */
  lemma IntToTextHasNo(n: int, c: char)
    requires !IsDigit(c) && c != '-'
    ensures c !in IntToText(n)
  {
    var digits := NatToText(if n < 0 then -n else n);
    assert forall i :: 0 <= i < |digits| ==> digits[i] != c;
    if n < 0 {
      assert IntToText(n) == "-" + digits;
      assert forall i :: 0 <= i < |IntToText(n)| ==> IntToText(n)[i] != c by {
        forall i | 0 <= i < |IntToText(n)| ensures IntToText(n)[i] != c {
          if i > 0 { assert IntToText(n)[i] == digits[i - 1]; }
        }
      }
    }
  }
}
