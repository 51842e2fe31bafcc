/** String operations with the meaning Python gives them: `str.strip()`
    emptiness, `str.split(sep)`, `sep.join(parts)`, `str(n)` for a natural
    number, and the code-point ordering `<` on `str`. */
module Text {

  // ---------------------------------------------------------------------------
  // Whitespace and blankness
  // ---------------------------------------------------------------------------

  /** The characters Python's `str.strip()` removes (those for which
      `str.isspace()` holds). */
  predicate IsSpace(c: char) {
    var n := c as int;
    (0x09 <= n <= 0x0D) || (0x1C <= n <= 0x20) || n == 0x85 || n == 0xA0
    || n == 0x1680 || (0x2000 <= n <= 0x200A) || n == 0x2028 || n == 0x2029
    || n == 0x202F || n == 0x205F || n == 0x3000
  }

  /** `not s or not s.strip()`: the string is empty or only whitespace. */
  predicate IsBlank(s: string) {
    forall i :: 0 <= i < |s| ==> IsSpace(s[i])
  }

  /** A string with one non-whitespace character is not blank, wherever it is
      concatenated. */
  lemma NotBlankAround(a: string, b: string, c: string)
    requires !IsBlank(a)
    ensures !IsBlank(b + a + c)
  {
    var i :| 0 <= i < |a| && !IsSpace(a[i]);
    assert (b + a + c)[|b| + i] == a[i];
  }

  /** In `a + b + c`, `b` starts right after `a`. */
  lemma MiddleSlice(a: string, b: string, c: string)
    ensures (a + b + c)[|a|..|a| + |b|] == b
  {
    assert (a + b + c)[|a|..|a| + |b|] == (a + b)[|a|..];
  }

  /** Where each of the three inserted strings lies in a seven-part template. */
  lemma TemplateSlices(h: string, x: string, m1: string, y: string, m2: string, z: string, t: string)
    ensures var p := h + x + m1 + y + m2 + z + t;
            var i := |h|; var j := i + |x| + |m1|; var k := j + |y| + |m2|;
            && k + |z| <= |p|
            && p[i..i + |x|] == x && p[j..j + |y|] == y && p[k..k + |z|] == z
  {
    var p := h + x + m1 + y + m2 + z + t;
    MiddleSlice(h, x, m1 + y + m2 + z + t);
    assert h + x + (m1 + y + m2 + z + t) == p;
    MiddleSlice(h + x + m1, y, m2 + z + t);
    assert h + x + m1 + y + (m2 + z + t) == p;
    MiddleSlice(h + x + m1 + y + m2, z, t);
  }

  /** A seven-part template whose head is not blank: the three inserts sit at
      their offsets and the whole is not blank. */
  lemma TemplateLayout(h: string, x: string, m1: string, y: string, m2: string, z: string, t: string)
    requires !IsBlank(h)
    ensures var p := h + x + m1 + y + m2 + z + t;
            var i := |h|; var j := i + |x| + |m1|; var k := j + |y| + |m2|;
            && k + |z| <= |p|
            && p[i..i + |x|] == x && p[j..j + |y|] == y && p[k..k + |z|] == z
            && !IsBlank(p)
  {
    TemplateSlices(h, x, m1, y, m2, z, t);
    PrefixNotBlank(h, x + m1 + y + m2 + z + t);
    assert h + (x + m1 + y + m2 + z + t) == h + x + m1 + y + m2 + z + t;
  }

  /** Where each part lies in a five-part concatenation. */
  lemma FiveParts(a: string, b: string, c: string, d: string, e: string)
    ensures var p := a + b + c + d + e;
            var i := |a|; var j := i + |b|; var k := j + |c|; var l := k + |d|;
            && l + |e| == |p|
            && p[..i] == a && p[i..j] == b && p[j..k] == c && p[k..l] == d && p[l..] == e
  {
    var p := a + b + c + d + e;
    MiddleSlice(a, b, c + d + e);
    assert a + b + (c + d + e) == p;
    MiddleSlice(a + b, c, d + e);
    assert a + b + c + (d + e) == p;
    MiddleSlice(a + b + c, d, e);
  }

  /** A slice of a slice is a slice of the whole. */
  lemma SliceWithin(f: string, s: nat, b: string, i: nat, j: nat)
    requires s + |b| <= |f| && f[s..s + |b|] == b && i <= j <= |b|
    ensures f[s + i..s + j] == b[i..j]
  {
    forall k | 0 <= k < j - i
      ensures f[s + i..s + j][k] == b[i..j][k]
    {
      assert f[s + i + k] == f[s..s + |b|][i + k];
    }
  }

  /** A non-blank prefix keeps the whole string non-blank. */
  lemma PrefixNotBlank(a: string, b: string)
    requires !IsBlank(a)
    ensures !IsBlank(a + b)
  {
    NotBlankAround(a, [], b);
    assert [] + a + b == a + b;
  }

  // ---------------------------------------------------------------------------
  // Suffixes
  // ---------------------------------------------------------------------------

  predicate EndsWith(s: string, suffix: string) {
    |suffix| <= |s| && s[|s| - |suffix|..] == suffix
  }

  // ---------------------------------------------------------------------------
  // Decimal rendering of natural numbers: `str(n)`
  // ---------------------------------------------------------------------------

  predicate IsDigits(s: string) {
    forall i :: 0 <= i < |s| ==> '0' <= s[i] <= '9'
  }

  function DigitChar(d: nat): (c: char)
    requires d < 10
    ensures '0' <= c <= '9' && c as int - '0' as int == d
  {
    (d + '0' as int) as char
  }

  /** `str(n)`: decimal digits, most significant first, no leading zero. */
  function NatToString(n: nat): (r: string)
    ensures |r| >= 1 && IsDigits(r)
    ensures |r| > 1 ==> r[0] != '0'
    decreases n
  {
    if n < 10 then [DigitChar(n)] else NatToString(n / 10) + [DigitChar(n % 10)]
  }

  /** `int(s)` for a string of decimal digits. */
  function ParseNat(s: string): nat
    requires IsDigits(s)
  {
    if |s| == 0 then 0
    else ParseNat(s[..|s| - 1]) * 10 + (s[|s| - 1] as int - '0' as int)
  }

  /** Reading back a rendered number gives the number. */
  lemma {:induction false} ParseNatToString(n: nat)
    ensures ParseNat(NatToString(n)) == n
    decreases n
  {
    var s := NatToString(n);
    if n >= 10 {
      assert s[..|s| - 1] == NatToString(n / 10);
      ParseNatToString(n / 10);
    } else {
      assert s[..|s| - 1] == [];
    }
  }

  /** Distinct numbers are rendered differently. */
  lemma NatToStringInjective(m: nat, n: nat)
    requires NatToString(m) == NatToString(n)
    ensures m == n
  {
    ParseNatToString(m);
    ParseNatToString(n);
  }

  // ---------------------------------------------------------------------------
  // `sep.join(parts)`
  // ---------------------------------------------------------------------------

  function Join(sep: string, parts: seq<string>): string
    decreases |parts|
  {
    if |parts| == 0 then ""
    else if |parts| == 1 then parts[0]
    else parts[0] + sep + Join(sep, parts[1..])
  }

  /** Where `parts[i]` starts in `Join(sep, parts)`. */
  function PartOffset(sep: string, parts: seq<string>, i: nat): nat
    requires i < |parts|
    decreases i
  {
    if i == 0 then 0 else |parts[0]| + |sep| + PartOffset(sep, parts[1..], i - 1)
  }

  /** Every part appears verbatim in the joined string, at its offset. */
  lemma {:induction false} JoinContainsPart(sep: string, parts: seq<string>, i: nat)
    requires i < |parts|
    ensures PartOffset(sep, parts, i) + |parts[i]| <= |Join(sep, parts)|
    ensures Join(sep, parts)[PartOffset(sep, parts, i)..PartOffset(sep, parts, i) + |parts[i]|] == parts[i]
    decreases i
  {
    if |parts| == 1 {
    } else if i == 0 {
      assert Join(sep, parts) == parts[0] + (sep + Join(sep, parts[1..]));
    } else {
      JoinContainsPart(sep, parts[1..], i - 1);
      var rest := Join(sep, parts[1..]);
      var k := |parts[0]| + |sep|;
      var o := PartOffset(sep, parts[1..], i - 1);
      assert Join(sep, parts) == (parts[0] + sep) + rest;
      assert Join(sep, parts)[k + o..k + o + |parts[i]|] == rest[o..o + |parts[i]|];
    }
  }

  // ---------------------------------------------------------------------------
  // `s.split(c)` and `s.count(c)`
  // ---------------------------------------------------------------------------

  /** `s.split(c)` for a one-character separator: the pieces between the
      occurrences of `c`, empty pieces included. */
  function Split(s: string, c: char): (r: seq<string>)
    ensures |r| >= 1
    decreases |s|
  {
    if |s| == 0 then [""]
    else
      var rest := Split(s[1..], c);
      if s[0] == c then [""] + rest else [[s[0]] + rest[0]] + rest[1..]
  }

  function Count(s: string, c: char): nat
    decreases |s|
  {
    if |s| == 0 then 0 else (if s[0] == c then 1 else 0) + Count(s[1..], c)
  }

  /** `len(s.split(c)) == s.count(c) + 1`. */
  lemma {:induction false} SplitLength(s: string, c: char)
    ensures |Split(s, c)| == Count(s, c) + 1
    decreases |s|
  {
    if |s| > 0 {
      SplitLength(s[1..], c);
    }
  }

  /** No piece of a split contains the separator. */
  lemma {:induction false} SplitPiecesFree(s: string, c: char)
    ensures forall k :: 0 <= k < |Split(s, c)| ==> c !in Split(s, c)[k]
    decreases |s|
  {
    if |s| > 0 {
      SplitPiecesFree(s[1..], c);
    }
  }

  /** Joining the pieces with the separator gives the string back. */
  lemma {:induction false} JoinSplit(s: string, c: char)
    ensures Join([c], Split(s, c)) == s
    decreases |s|
  {
    if |s| > 0 {
      JoinSplit(s[1..], c);
      var rest := Split(s[1..], c);
      if s[0] == c {
        assert Split(s, c) == [""] + rest;
        assert ([""] + rest)[1..] == rest;
        assert s == [c] + s[1..];
      } else {
        var parts := Split(s, c);
        assert parts == [[s[0]] + rest[0]] + rest[1..];
        if |rest| == 1 {
          assert s == [s[0]] + s[1..];
        } else {
          assert parts[1..] == rest[1..];
          assert Join([c], rest) == rest[0] + [c] + Join([c], rest[1..]);
          assert s == [s[0]] + s[1..];
        }
      }
    }
  }

  /** Splitting at a separator that follows a separator-free tail. */
  lemma {:induction false} SplitAppendPiece(a: string, c: char, n: string)
    requires c !in n
    ensures Split(a + [c] + n, c) == Split(a, c) + [n]
    decreases |a|
  {
    if |a| == 0 {
      assert [c] + n == a + [c] + n;
      SplitNoSeparator(n, c);
      assert Split([c] + n, c) == [""] + Split(n, c);
    } else {
      assert (a + [c] + n)[1..] == a[1..] + [c] + n;
      SplitAppendPiece(a[1..], c, n);
    }
  }

  /** A string without the separator splits into itself. */
  lemma {:induction false} SplitNoSeparator(s: string, c: char)
    requires c !in s
    ensures Split(s, c) == [s]
    decreases |s|
  {
    if |s| > 0 {
      SplitNoSeparator(s[1..], c);
      assert s == [s[0]] + s[1..];
    }
  }

  // ---------------------------------------------------------------------------
  // Code-point ordering of strings (Python's `<` on `str`)
  // ---------------------------------------------------------------------------

  predicate LexLess(a: string, b: string)
    decreases |a|
  {
    if |a| == 0 then |b| > 0
    else |b| > 0 && (a[0] < b[0] || (a[0] == b[0] && LexLess(a[1..], b[1..])))
  }

  predicate LexLe(a: string, b: string) {
    a == b || LexLess(a, b)
  }

  lemma {:induction false} LexLessIrreflexive(a: string)
    ensures !LexLess(a, a)
    decreases |a|
  {
    if |a| > 0 {
      LexLessIrreflexive(a[1..]);
    }
  }

  lemma {:induction false} LexLessTransitive(a: string, b: string, c: string)
    requires LexLess(a, b) && LexLess(b, c)
    ensures LexLess(a, c)
    decreases |a|
  {
    if |a| > 0 && a[0] == b[0] && b[0] == c[0] {
      LexLessTransitive(a[1..], b[1..], c[1..]);
    }
  }

  lemma {:induction false} LexLessTotal(a: string, b: string)
    requires a != b
    ensures LexLess(a, b) || LexLess(b, a)
    decreases |a|
  {
    if |a| > 0 && |b| > 0 && a[0] == b[0] {
      assert a == [a[0]] + a[1..] && b == [b[0]] + b[1..];
      LexLessTotal(a[1..], b[1..]);
    }
  }

  lemma LexLeAntisymmetric(a: string, b: string)
    requires LexLe(a, b) && LexLe(b, a)
    ensures a == b
  {
    if LexLess(a, b) {
      LexLessAsymmetric(a, b);
    }
  }

  lemma LexLessAsymmetric(a: string, b: string)
    requires LexLess(a, b)
    ensures !LexLess(b, a)
  {
    if LexLess(b, a) {
      LexLessTransitive(a, b, a);
      LexLessIrreflexive(a);
    }
  }
}
