/** String helpers shared by the model: ASCII case mapping, substring tests,
    splitting at a separator, decimal formatting and parsing, the
    byte-wise lexicographic order that Go's `sort.Strings` uses, and the
    UTF-8 bytes of a string (Go's `[]byte(s)`). */
module Text {
  import opened Wrappers

  /** An 8-bit byte, and a byte string. */
  newtype byte = b: int | 0 <= b < 256

  type Bytes = seq<byte>

  // ---------------------------------------------------------------------------
  // ASCII case mapping

  function LowerChar(c: char): char {
    if 'A' <= c <= 'Z' then (c as int + 32) as char else c
  }

  function UpperChar(c: char): char {
    if 'a' <= c <= 'z' then (c as int - 32) as char else c
  }

  function ToLower(s: string): (r: string)
    ensures |r| == |s|
    ensures forall i :: 0 <= i < |s| ==> r[i] == LowerChar(s[i])
  {
    seq(|s|, i requires 0 <= i < |s| => LowerChar(s[i]))
  }

  function ToUpper(s: string): (r: string)
    ensures |r| == |s|
    ensures forall i :: 0 <= i < |s| ==> r[i] == UpperChar(s[i])
  {
    seq(|s|, i requires 0 <= i < |s| => UpperChar(s[i]))
  }

  /** Lowercasing forgets any earlier change of case. */
  lemma LowerOfUpper(s: string)
    ensures ToLower(ToUpper(s)) == ToLower(s)
  {
    assert forall i :: 0 <= i < |s| ==> LowerChar(UpperChar(s[i])) == LowerChar(s[i]);
  }

  /** Lowercasing works character by character, so it distributes over concatenation. */
  lemma LowerAppend(a: string, b: string)
    ensures ToLower(a + b) == ToLower(a) + ToLower(b)
  {
  }

  lemma LowerIdempotent(s: string)
    ensures ToLower(ToLower(s)) == ToLower(s)
  {
  }

  // ---------------------------------------------------------------------------
  // Prefixes, suffixes, substrings

  predicate StartsWith(s: string, prefix: string) {
    |prefix| <= |s| && s[..|prefix|] == prefix
  }

  predicate EndsWith(s: string, suffix: string)
    ensures EndsWith(s, suffix) <==>
      |suffix| <= |s| && forall k :: 0 <= k < |suffix| ==> s[|s| - |suffix| + k] == suffix[k]
  {
    |suffix| <= |s| && s[|s| - |suffix|..] == suffix
  }

  predicate OccursAt(s: string, needle: string, i: int) {
    0 <= i <= |s| - |needle| && s[i..i + |needle|] == needle
  }

  /** `needle` occurs somewhere in `s` (Rust's `str::contains`): at the
      front, or somewhere after the first character. */
  predicate Contains(s: string, needle: string)
    ensures Contains(s, needle) ==> |needle| <= |s|
    ensures StartsWith(s, needle) ==> Contains(s, needle)
    decreases |s|
  {
    StartsWith(s, needle) || (|s| > 0 && Contains(s[1..], needle))
  }

  /** `Contains` holds exactly when the needle occurs at some index. */
  lemma {:induction false} ContainsIff(s: string, needle: string)
    ensures Contains(s, needle) <==> exists i :: OccursAt(s, needle, i)
    decreases |s|
  {
    if |s| > 0 {
      ContainsIff(s[1..], needle);
      if Contains(s[1..], needle) {
        var i :| OccursAt(s[1..], needle, i);
        assert OccursAt(s, needle, i + 1);
      }
      if i :| OccursAt(s, needle, i) && i > 0 {
        assert OccursAt(s[1..], needle, i - 1);
      }
    }
    if StartsWith(s, needle) {
      assert OccursAt(s, needle, 0);
    }
  }

  /** Rust's `trim_start_matches`: strips `prefix` from the front as often as it matches. */
  function TrimStartMatches(s: string, prefix: string): (r: string)
    ensures EndsWith(s, r)
    ensures |prefix| > 0 ==> !StartsWith(r, prefix)
    decreases |s|
  {
    if |prefix| > 0 && StartsWith(s, prefix) then TrimStartMatches(s[|prefix|..], prefix) else s
  }

  // ---------------------------------------------------------------------------
  // Splitting at a separator character

  /** The pieces between occurrences of `sep`, like Rust's `split` and Go's
      `strings.Split`; there is always at least one piece. */
  function Split(s: string, sep: char): (r: seq<string>)
    ensures |r| >= 1
    ensures forall k :: 0 <= k < |r| ==> sep !in r[k]
    decreases |s|
  {
    if |s| == 0 then [""]
    else
      var rest := Split(s[1..], sep);
      if s[0] == sep then [""] + rest else [[s[0]] + rest[0]] + rest[1..]
  }

  /** Joining the pieces with the separator gives the original string back. */
  function Join(pieces: seq<string>, sep: char): string
    requires |pieces| >= 1
    decreases |pieces|
  {
    if |pieces| == 1 then pieces[0] else pieces[0] + [sep] + Join(pieces[1..], sep)
  }

  lemma {:induction false} JoinSplit(s: string, sep: char)
    ensures Join(Split(s, sep), sep) == s
    decreases |s|
  {
    if |s| > 0 {
      JoinSplit(s[1..], sep);
      var rest := Split(s[1..], sep);
      if s[0] == sep {
        assert Split(s, sep)[1..] == rest;
      } else {
        var r := Split(s, sep);
        if |rest| == 1 {
          assert r == [[s[0]] + rest[0]];
        } else {
          assert r[1..] == rest[1..];
          assert Join(rest, sep) == rest[0] + [sep] + Join(rest[1..], sep);
        }
      }
    }
  }

  /** A string without the separator is a single piece. */
  lemma {:induction false} SplitNoSep(s: string, sep: char)
    requires sep !in s
    ensures Split(s, sep) == [s]
    decreases |s|
  {
    if |s| > 0 {
      assert sep !in s[1..];
      SplitNoSep(s[1..], sep);
      assert [s[0]] + s[1..] == s;
    }
  }

  /** The first piece ends at the first separator. */
  lemma {:induction false} SplitFirst(a: string, sep: char, b: string)
    requires sep !in a
    ensures Split(a + [sep] + b, sep) == [a] + Split(b, sep)
    decreases |a|
  {
    if |a| == 0 {
      assert a + [sep] + b == [sep] + b;
      assert ([sep] + b)[1..] == b;
    } else {
      assert (a + [sep] + b)[1..] == a[1..] + [sep] + b;
      assert sep !in a[1..];
      SplitFirst(a[1..], sep, b);
      assert [a[0]] + a[1..] == a;
    }
  }

  /** Splitting two strings joined by the separator gives the pieces of the
      first followed by the pieces of the second. */
  lemma {:induction false} SplitConcat(a: string, sep: char, b: string)
    ensures Split(a + [sep] + b, sep) == Split(a, sep) + Split(b, sep)
    decreases |a|
  {
    if |a| == 0 {
      assert a + [sep] + b == [sep] + b;
      assert ([sep] + b)[1..] == b;
    } else {
      assert (a + [sep] + b)[1..] == a[1..] + [sep] + b;
      SplitConcat(a[1..], sep, b);
    }
  }

  /** The last piece of a split: the text after the last separator. */
  lemma {:induction false} SplitLast(s: string, sep: char)
    ensures var r := Split(s, sep); var last := r[|r| - 1];
      EndsWith(s, last) && (sep in s ==> |last| < |s| && s[|s| - |last| - 1] == sep)
      && (sep !in s ==> last == s)
  {
    SplitLastSuffix(s, sep);
    if sep in s {
      SplitLastAfterSep(s, sep);
    } else {
      SplitNoSep(s, sep);
    }
  }

  /** The last piece of a split of `s` is the last piece of the split of its
      tail, unless the tail is a single piece that the first character joins. */
  lemma SplitLastStep(s: string, sep: char)
    requires |s| > 0
    ensures var r := Split(s, sep); var rest := Split(s[1..], sep);
      (s[0] == sep || |rest| > 1) ==> r[|r| - 1] == rest[|rest| - 1]
    ensures var r := Split(s, sep); var rest := Split(s[1..], sep);
      !(s[0] == sep || |rest| > 1) ==> r[|r| - 1] == s
  {
    var rest := Split(s[1..], sep);
    if !(s[0] == sep || |rest| > 1) {
      JoinSplit(s[1..], sep);
      assert [s[0]] + s[1..] == s;
    }
  }

  lemma {:induction false} SplitLastSuffix(s: string, sep: char)
    ensures var r := Split(s, sep); EndsWith(s, r[|r| - 1])
    decreases |s|
  {
    if |s| > 0 {
      SplitLastSuffix(s[1..], sep);
      SplitLastStep(s, sep);
      var rest := Split(s[1..], sep);
      if s[0] == sep || |rest| > 1 {
        EndsWithCons(s, rest[|rest| - 1]);
      }
    }
  }

  lemma {:induction false} SplitLastAfterSep(s: string, sep: char)
    requires sep in s
    ensures var r := Split(s, sep); var last := r[|r| - 1];
      |last| < |s| && s[|s| - |last| - 1] == sep
    decreases |s|
  {
    SplitLastSuffix(s, sep);
    SplitLastStep(s, sep);
    var rest := Split(s[1..], sep);
    var last := rest[|rest| - 1];
    SplitLastSuffix(s[1..], sep);
    if sep in s[1..] {
      SplitLastAfterSep(s[1..], sep);
      EndsWithCons(s, last);
    } else {
      SplitNoSep(s[1..], sep);
    }
  }

  /** A suffix of the tail of `s` is a proper suffix of `s`, and the
      character before it is the same in both. */
  lemma EndsWithCons(s: string, t: string)
    requires |s| > 0 && EndsWith(s[1..], t)
    ensures EndsWith(s, t) && |t| < |s|
    ensures |t| < |s| - 1 ==> s[|s| - |t| - 1] == s[1..][|s| - 1 - |t| - 1]
  {
    assert s[|s| - |t|..] == s[1..][|s| - 1 - |t|..];
  }

  // ---------------------------------------------------------------------------
  // Decimal numbers (Go's %d, Rust's {} on integers)

  function DigitChar(d: nat): (c: char)
    requires d < 10
    ensures '0' <= c <= '9' && c as int - '0' as int == d
  {
    (d + '0' as int) as char
  }

  predicate IsDigit(c: char) {
    '0' <= c <= '9'
  }

  function NatToString(n: nat): string
    decreases n
  {
    if n < 10 then [DigitChar(n)] else NatToString(n / 10) + [DigitChar(n % 10)]
  }

  function IntToString(i: int): string {
    if i < 0 then "-" + NatToString(-i) else NatToString(i)
  }

  /** The value of a string of decimal digits, most significant first. */
  function DigitsValue(s: string): nat
    requires forall k :: 0 <= k < |s| ==> IsDigit(s[k])
    decreases |s|
  {
    if |s| == 0 then 0
    else
      assert IsDigit(s[|s| - 1]);
      10 * DigitsValue(s[..|s| - 1]) + (s[|s| - 1] as int - '0' as int)
  }

  /** Parses what `NatToString` prints: a non-empty run of digits. */
  function ParseNat(s: string): Option<nat> {
    if |s| > 0 && forall k :: 0 <= k < |s| ==> IsDigit(s[k]) then Some(DigitsValue(s)) else None
  }

  /** Parses what `IntToString` prints: an optional minus sign and digits. */
  function ParseInt(s: string): Option<int> {
    if |s| > 0 && s[0] == '-' then
      match ParseNat(s[1..])
      case Some(n) => if n > 0 then Some(0 - n) else None
      case None => None
    else
      match ParseNat(s)
      case Some(n) => Some(n)
      case None => None
  }

  lemma {:induction false} NatToStringDigits(n: nat)
    ensures |NatToString(n)| > 0
    ensures forall k :: 0 <= k < |NatToString(n)| ==> IsDigit(NatToString(n)[k])
    ensures DigitsValue(NatToString(n)) == n
    decreases n
  {
    if n >= 10 {
      NatToStringDigits(n / 10);
      var s := NatToString(n);
      assert s[..|s| - 1] == NatToString(n / 10);
    }
  }

  /** Printing a natural number and parsing it back gives the same number. */
  lemma NatRoundTrip(n: nat)
    ensures ParseNat(NatToString(n)) == Some(n)
  {
    NatToStringDigits(n);
  }

  /** Printing an integer and parsing it back gives the same integer. */
  lemma IntRoundTrip(i: int)
    ensures ParseInt(IntToString(i)) == Some(i)
  {
    if i < 0 {
      NatToStringDigits(-i);
      assert IntToString(i)[1..] == NatToString(-i);
    } else {
      NatToStringDigits(i);
    }
  }

  lemma NoCharInNat(n: nat, c: char)
    requires !IsDigit(c)
    ensures c !in NatToString(n)
  {
    NatToStringDigits(n);
  }

  lemma NoCharInInt(i: int, c: char)
    requires !IsDigit(c) && c != '-'
    ensures c !in IntToString(i)
  {
    NoCharInNat(if i < 0 then -i else i, c);
  }

  // ---------------------------------------------------------------------------
  // Lexicographic order on strings (Go's `<` on strings; comparing code points
  // one by one orders strings exactly as comparing their UTF-8 bytes does)

  predicate LexLess(a: string, b: string)
    decreases |a|
  {
    if |a| == 0 then |b| > 0
    else if |b| == 0 then false
    else if a[0] != b[0] then a[0] < b[0]
    else LexLess(a[1..], b[1..])
  }

  predicate LexLessEq(a: string, b: string) {
    a == b || LexLess(a, b)
  }

  lemma {:induction false} LexIrreflexive(a: string)
    ensures !LexLess(a, a)
    decreases |a|
  {
    if |a| > 0 { LexIrreflexive(a[1..]); }
  }

  lemma {:induction false} LexTransitive(a: string, b: string, c: string)
    requires LexLess(a, b) && LexLess(b, c)
    ensures LexLess(a, c)
    decreases |a|
  {
    if |a| > 0 && |b| > 0 && |c| > 0 && a[0] == b[0] && b[0] == c[0] {
      LexTransitive(a[1..], b[1..], c[1..]);
    }
  }

  lemma {:induction false} LexTotal(a: string, b: string)
    ensures a == b || LexLess(a, b) || LexLess(b, a)
    decreases |a|
  {
    if |a| > 0 && |b| > 0 && a[0] == b[0] {
      LexTotal(a[1..], b[1..]);
      if a[1..] == b[1..] {
        assert a == [a[0]] + a[1..] && b == [b[0]] + b[1..];
      }
    }
  }

  lemma LexAsymmetric(a: string, b: string)
    requires LexLess(a, b)
    ensures !LexLess(b, a)
  {
    if LexLess(b, a) {
      LexTransitive(a, b, a);
      LexIrreflexive(a);
    }
  }

  // ---------------------------------------------------------------------------
  // UTF-8

  /** The UTF-8 encoding of one character: one byte below 128, otherwise a
      lead byte of at least 0xC0 and continuation bytes in 0x80..0xBF. */
  function Utf8Char(c: char): (r: Bytes)
    ensures 1 <= |r| <= 4
    ensures c as int < 128 <==> |r| == 1
    ensures |r| == 1 ==> r[0] as int == c as int
    ensures |r| > 1 ==> forall i :: 0 <= i < |r| ==> r[i] >= 0x80
  {
    var n := c as int;
    if n < 0x80 then [n as byte]
    else if n < 0x800 then [(0xC0 + n / 64) as byte, (0x80 + n % 64) as byte]
    else if n < 0x10000 then [(0xE0 + n / 4096) as byte, (0x80 + (n / 64) % 64) as byte, (0x80 + n % 64) as byte]
    else [(0xF0 + n / 262144) as byte, (0x80 + (n / 4096) % 64) as byte, (0x80 + (n / 64) % 64) as byte, (0x80 + n % 64) as byte]
  }

  /** `[]byte(s)`: the characters' encodings, in order. */
  function Utf8(s: string): Bytes
    decreases |s|
  {
    if |s| == 0 then [] else Utf8(s[..|s| - 1]) + Utf8Char(s[|s| - 1])
  }

  /** The encoding holds a zero byte exactly when the string holds NUL. */
  lemma {:induction false} Utf8Zero(s: string)
    ensures 0 in Utf8(s) <==> '\0' in s
    decreases |s|
  {
    if |s| > 0 {
      var init := s[..|s| - 1];
      Utf8Zero(init);
      var tail := Utf8Char(s[|s| - 1]);
      assert 0 in tail <==> s[|s| - 1] == '\0' by {
        if |tail| > 1 {
          assert forall i :: 0 <= i < |tail| ==> tail[i] >= 0x80;
        }
      }
      assert s == init + [s[|s| - 1]];
    }
  }

  /** All characters are ASCII. */
  predicate Ascii(s: string) {
    forall i :: 0 <= i < |s| ==> s[i] as int < 128
  }

  /** An ASCII string encodes to one byte per character, each its code. */
  lemma {:induction false} Utf8Ascii(s: string)
    requires Ascii(s)
    ensures |Utf8(s)| == |s|
    ensures forall i :: 0 <= i < |s| ==> Utf8(s)[i] as int == s[i] as int
    decreases |s|
  {
    if |s| > 0 {
      var init := s[..|s| - 1];
      assert Ascii(init) by {
        forall i | 0 <= i < |init| ensures init[i] as int < 128 {
          assert init[i] == s[i];
        }
      }
      Utf8Ascii(init);
    }
  }
}
