/** String operations the fetchers rely on, written to match the Python
    built-ins they stand for (`in`, `split`, `strip`, `lower`, `str(int)`). */
module Text {
  import opened Wrappers

  /** The smallest k in [lo, hi) with P(k), if there is one. Every
      left-to-right search of the model (substring search, the regular
      expressions' leftmost match and lazy `.*?`) is an instance. */
  function FirstIndex(lo: nat, hi: nat, P: nat -> bool): (r: Option<nat>)
    decreases hi - lo
    ensures r.Some? ==> lo <= r.value < hi && P(r.value)
    ensures r.Some? ==> forall k :: lo <= k < r.value ==> !P(k)
    ensures r.None? ==> forall k :: lo <= k < hi ==> !P(k)
  {
    if lo >= hi then None
    else if P(lo) then Some(lo)
    else FirstIndex(lo + 1, hi, P)
  }

  // ---------------------------------------------------------------- chars

  /** Regular-expression `\d`, restricted to ASCII digits. */
  predicate IsDigit(c: char) { '0' <= c <= '9' }

  /** Python's `str.isspace()`: the characters `str.strip()` removes. */
  predicate IsSpace(c: char) {
    ('\t' <= c <= '\r') || ('\U{1C}' <= c <= ' ') || c == '\U{85}' || c == '\U{A0}'
    || c == '\U{1680}' || ('\U{2000}' <= c <= '\U{200A}') || c == '\U{2028}'
    || c == '\U{2029}' || c == '\U{202F}' || c == '\U{205F}' || c == '\U{3000}'
  }

  function LowerChar(c: char): char {
    if 'A' <= c <= 'Z' then (c as int + 32) as char else c
  }

  /** `s.lower()`, on ASCII letters: no upper-case letter is left, each
      one is replaced by its lower-case partner, and every other character
      is kept in place. */
  function Lower(s: string): (r: string)
    ensures |r| == |s|
    ensures forall i :: 0 <= i < |s| ==> !('A' <= r[i] <= 'Z')
    ensures forall i :: 0 <= i < |s| && !('A' <= s[i] <= 'Z') ==> r[i] == s[i]
    ensures forall i :: 0 <= i < |s| && 'A' <= s[i] <= 'Z' ==> r[i] as int == s[i] as int + 32
  {
    seq(|s|, i requires 0 <= i < |s| => LowerChar(s[i]))
  }

  /** Lower-casing twice is lower-casing once. */
  lemma LowerIdempotent(s: string)
    ensures Lower(Lower(s)) == Lower(s)
  {
    var l := Lower(s);
    forall i | 0 <= i < |s| ensures Lower(l)[i] == l[i] {
      assert !('A' <= l[i] <= 'Z');
    }
  }

  // ----------------------------------------------------------- substrings

  /** w occurs in s at position p. */
  predicate StartsAt(s: string, p: int, w: string) {
    0 <= p && p + |w| <= |s| && s[p..p + |w|] == w
  }

  /** Position of the first occurrence of w in s. */
  function Find(s: string, w: string): (r: Option<nat>)
    ensures r.Some? ==> StartsAt(s, r.value, w)
    ensures r.Some? ==> forall q :: 0 <= q < r.value ==> !StartsAt(s, q, w)
    ensures r.None? ==> forall q :: !StartsAt(s, q, w)
  {
    var P := (p: nat) => StartsAt(s, p, w);
    assert forall q: nat :: P(q) == StartsAt(s, q, w);
    FirstIndex(0, |s| + 1, P)
  }

  /** An occurrence of w + v is an occurrence of w followed by one of v. */
  lemma StartsAtSplit(s: string, p: int, w: string, v: string)
    requires StartsAt(s, p, w + v)
    ensures StartsAt(s, p, w) && StartsAt(s, p + |w|, v)
  {
    assert s[p..p + |w|] == s[p..p + |w + v|][..|w|];
    assert s[p + |w|..p + |w| + |v|] == s[p..p + |w + v|][|w|..];
  }

  /** Python's `w in s` on strings. */
  predicate Contains(s: string, w: string) {
    Find(s, w).Some?
  }

  lemma ContainsIff(s: string, w: string, p: int)
    requires StartsAt(s, p, w)
    ensures Contains(s, w)
  {
  }

  /** A lower-case word found in s is found in `s.lower()`. */
  lemma ContainsLower(s: string, w: string)
    requires Lower(w) == w && Contains(s, w)
    ensures Contains(Lower(s), w)
  {
    var p := Find(s, w).value;
    assert StartsAt(s, p, w);
    forall i | 0 <= i < |w| ensures Lower(s)[p..p + |w|][i] == w[i] {
      assert s[p + i] == w[i];
      assert Lower(w)[i] == LowerChar(w[i]);
    }
    assert StartsAt(Lower(s), p, w);
  }

  // ---------------------------------------------------------------- split

  function IndexOfChar(s: string, c: char): (i: nat)
    requires c in s
    ensures i < |s| && s[i] == c && c !in s[..i]
  {
    if s[0] == c then 0 else 1 + IndexOfChar(s[1..], c)
  }

  /** Inverse of Split: the pieces glued back with the separator. */
  function Join(pieces: seq<string>, sep: char): string {
    if |pieces| == 0 then ""
    else if |pieces| == 1 then pieces[0]
    else pieces[0] + [sep] + Join(pieces[1..], sep)
  }

  /** Python's `s.split(sep)` for a one-character separator. */
  function Split(s: string, sep: char): (r: seq<string>)
    decreases |s|
    ensures |r| >= 1
    ensures forall k :: 0 <= k < |r| ==> sep !in r[k]
    ensures Join(r, sep) == s
  {
    if sep !in s then [s]
    else
      var i := IndexOfChar(s, sep);
      var rest := Split(s[i + 1..], sep);
      assert s == s[..i] + [sep] + s[i + 1..];
      [s[..i]] + rest
  }

  /** The first piece of a split is the text up to the first separator. */
  lemma SplitHead(s: string, sep: char)
    ensures |Split(s, sep)[0]| <= |s| && Split(s, sep)[0] == s[..|Split(s, sep)[0]|]
    ensures |Split(s, sep)[0]| == |s| || s[|Split(s, sep)[0]|] == sep
  {
  }

  /** The first separator of s is at n. */
  lemma {:induction false} IndexOfCharAt(s: string, c: char, n: nat)
    requires n < |s| && s[n] == c && forall k :: 0 <= k < n ==> s[k] != c
    ensures c in s && IndexOfChar(s, c) == n
  {
    if n > 0 {
      assert s[1..][n - 1] == s[n];
      IndexOfCharAt(s[1..], c, n - 1);
    }
  }

  /** Text without the separator, followed by the end or by a separator,
      is the first piece of a split. */
  lemma SplitFirstPiece(w: string, rest: string, sep: char)
    requires sep !in w && (rest == [] || rest[0] == sep)
    ensures Split(w + rest, sep)[0] == w
  {
    var t := w + rest;
    if rest == [] {
      assert t == w;
    } else {
      IndexOfCharAt(t, sep, |w|);
      assert t[..|w|] == w;
    }
  }

  // ---------------------------------------------------------------- strip

  function StripLeft(s: string): (r: string)
    ensures |r| <= |s| && r == s[|s| - |r|..]
    ensures forall k :: 0 <= k < |s| - |r| ==> IsSpace(s[k])
    ensures |r| > 0 ==> !IsSpace(r[0])
  {
    if |s| > 0 && IsSpace(s[0]) then StripLeft(s[1..]) else s
  }

  function StripRight(s: string): (r: string)
    ensures |r| <= |s| && r == s[..|r|]
    ensures forall k :: |r| <= k < |s| ==> IsSpace(s[k])
    ensures |r| > 0 ==> !IsSpace(r[|r| - 1])
  {
    if |s| > 0 && IsSpace(s[|s| - 1]) then StripRight(s[..|s| - 1]) else s
  }

  /** r is s[a..b], everything before a and from b on is whitespace, and r
      neither begins nor ends with whitespace. */
  predicate TrimAt(r: string, s: string, a: nat, b: nat) {
    && a <= b <= |s| && r == s[a..b]
    && (forall i :: 0 <= i < a ==> IsSpace(s[i]))
    && (forall i :: b <= i < |s| ==> IsSpace(s[i]))
    && (|r| > 0 ==> !IsSpace(r[0]) && !IsSpace(r[|r| - 1]))
  }

  /** r is s with its leading and trailing whitespace removed. */
  predicate IsTrim(r: string, s: string) {
    exists a: nat, b: nat :: 0 <= a <= b <= |s| && TrimAt(r, s, a, b)
  }

  /** Python's `s.strip()`: s with the whitespace at both ends removed. */
  function Strip(s: string): (r: string)
    ensures IsTrim(r, s)
    ensures forall c :: c in r ==> c in s
    ensures |r| > 0 ==> !IsSpace(r[0]) && !IsSpace(r[|r| - 1])
  {
    var l := StripLeft(s);
    var r := StripRight(l);
    StripTrims(s, l, r);
    r
  }

  /** Dropping whitespace from the left of s and then from the right
      trims s. */
  lemma StripTrims(s: string, l: string, r: string)
    requires |l| <= |s| && l == s[|s| - |l|..] && forall k :: 0 <= k < |s| - |l| ==> IsSpace(s[k])
    requires |l| > 0 ==> !IsSpace(l[0])
    requires |r| <= |l| && r == l[..|r|] && forall k :: |r| <= k < |l| ==> IsSpace(l[k])
    requires |r| > 0 ==> !IsSpace(r[|r| - 1])
    ensures TrimAt(r, s, |s| - |l|, |s| - |l| + |r|) && IsTrim(r, s)
    ensures forall c :: c in r ==> c in s
    ensures |r| > 0 ==> !IsSpace(r[0]) && !IsSpace(r[|r| - 1])
  {
    var a := |s| - |l|;
    assert r == s[a..a + |r|];
    SliceChars(s, a, a + |r|);
    forall i | a + |r| <= i < |s| ensures IsSpace(s[i]) {
      assert s[i] == l[i - a];
    }
    if |r| > 0 {
      assert r[0] == l[0];
    }
    assert TrimAt(r, s, a, a + |r|);
  }

  /** A slice holds only characters of its string. */
  lemma SliceChars(s: string, a: nat, b: nat)
    requires a <= b <= |s|
    ensures forall c :: c in s[a..b] ==> c in s
  {
    forall c | c in s[a..b] ensures c in s {
      var i :| 0 <= i < b - a && s[a..b][i] == c;
      assert s[a + i] == c;
    }
  }

  /** The trim of a string is unique, so `IsTrim` pins `Strip` down. */
  lemma TrimUnique(r1: string, r2: string, s: string)
    requires IsTrim(r1, s) && IsTrim(r2, s)
    ensures r1 == r2
  {
    var a1: nat, b1: nat :| a1 <= b1 <= |s| && TrimAt(r1, s, a1, b1);
    var a2: nat, b2: nat :| a2 <= b2 <= |s| && TrimAt(r2, s, a2, b2);
    TrimAtUnique(r1, r2, s, a1, b1, a2, b2);
  }

  lemma TrimAtUnique(r1: string, r2: string, s: string, a1: nat, b1: nat, a2: nat, b2: nat)
    requires TrimAt(r1, s, a1, b1) && TrimAt(r2, s, a2, b2)
    ensures r1 == r2
  {
    if a1 < b1 && a2 < b2 {
      assert r1[0] == s[a1] && r2[0] == s[a2];
      assert r1[b1 - a1 - 1] == s[b1 - 1] && r2[b2 - a2 - 1] == s[b2 - 1];
      assert a1 == a2;
      assert b1 == b2;
    }
  }

  /** `[name.strip() for name in s.split(',')]`: the alias list of a client
      cell, one alias per comma-separated piece, each the piece with its
      whitespace trimmed; no alias holds a comma. */
  function Aliases(s: string): (r: seq<string>)
    ensures |r| == |Split(s, ',')| >= 1
    ensures forall k :: 0 <= k < |r| ==> IsTrim(r[k], Split(s, ',')[k])
    ensures forall k :: 0 <= k < |r| ==> ',' !in r[k]
    ensures forall k :: 0 <= k < |r| && |r[k]| > 0 ==> !IsSpace(r[k][0]) && !IsSpace(r[k][|r[k]| - 1])
  {
    var pieces := Split(s, ',');
    seq(|pieces|, k requires 0 <= k < |pieces| => Strip(pieces[k]))
  }

  /** Any list with one trimmed piece per comma-separated piece is the
      alias list. */
  lemma AliasesUnique(s: string, r: seq<string>)
    requires |r| == |Split(s, ',')|
    requires forall k :: 0 <= k < |r| ==> IsTrim(r[k], Split(s, ',')[k])
    ensures r == Aliases(s)
  {
    var al := Aliases(s);
    forall k | 0 <= k < |r| ensures r[k] == al[k] {
      TrimUnique(r[k], al[k], Split(s, ',')[k]);
    }
  }

  lemma AliasHasNoComma(s: string, k: nat)
    requires k < |Aliases(s)|
    ensures ',' !in Aliases(s)[k]
  {
  }

  /** Stripping twice is stripping once. */
  lemma StripIdempotent(s: string)
    ensures Strip(Strip(s)) == Strip(s)
  {
    var l := StripLeft(s);
    var y := StripRight(l);
    if |y| > 0 {
      assert y[0] == l[0];
    }
    assert StripLeft(y) == y;
  }

  /** An alias read again as a client cell is that one alias. */
  lemma AliasOfAlias(s: string, k: nat)
    requires k < |Aliases(s)|
    ensures Aliases(Aliases(s)[k]) == [Aliases(s)[k]]
  {
    var a := Aliases(s)[k];
    AliasHasNoComma(s, k);
    StripIdempotent(Split(s, ',')[k]);
    assert Split(a, ',') == [a];
  }

  // -------------------------------------------------------------- decimal

  function DigitChar(d: nat): (c: char)
    requires d < 10
    ensures IsDigit(c)
  {
    ('0' as int + d) as char
  }

  function DigitValue(c: char): nat
    requires IsDigit(c)
  {
    c as int - '0' as int
  }

  predicate AllDigits(s: string) {
    forall k :: 0 <= k < |s| ==> IsDigit(s[k])
  }

  /** Python's `str(n)` for a natural number. */
  function Decimal(n: nat): (r: string)
    ensures |r| >= 1 && AllDigits(r)
    ensures r[0] != '0' || n == 0
  {
    if n < 10 then [DigitChar(n)] else Decimal(n / 10) + [DigitChar(n % 10)]
  }

  function ParseDecimal(s: string): nat
    requires AllDigits(s)
  {
    if |s| == 0 then 0 else ParseDecimal(s[..|s| - 1]) * 10 + DigitValue(s[|s| - 1])
  }

  /** `int(str(n)) == n`. */
  lemma {:induction false} DecimalRoundTrip(n: nat)
    ensures ParseDecimal(Decimal(n)) == n
  {
    if n >= 10 {
      var s := Decimal(n);
      assert s[..|s| - 1] == Decimal(n / 10);
      DecimalRoundTrip(n / 10);
    }
  }

  lemma DecimalInjective(m: nat, n: nat)
    requires Decimal(m) == Decimal(n)
    ensures m == n
  {
    DecimalRoundTrip(m);
    DecimalRoundTrip(n);
  }
}
