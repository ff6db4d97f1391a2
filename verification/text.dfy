/** ASCII models of the Python string built-ins the extractors rely on:
    character classes, `upper`/`lower`/`title`, `isupper`/`istitle`,
    `strip`, `split`, `find`, slicing and integer formatting.
    Non-ASCII letters, digits and white space are not modelled. */
module Text {

  // ---------------------------------------------------------------------
  // Character classes
  // ---------------------------------------------------------------------

  /** `str.isdigit` on one ASCII character, and the `\d` regex class. */
  predicate IsDigit(c: char) { '0' <= c <= '9' }

  predicate IsLowerChar(c: char) { 'a' <= c <= 'z' }

  predicate IsUpperChar(c: char) { 'A' <= c <= 'Z' }

  /** ASCII letters are exactly the "cased" characters of Python. */
  predicate IsLetter(c: char) { IsLowerChar(c) || IsUpperChar(c) }

  /** `str.isspace` restricted to ASCII: space, \t \n \v \f \r and \x1c-\x1f. */
  predicate IsSpace(c: char) { c == ' ' || ('\t' <= c <= '\r') || ('\U{1C}' <= c <= '\U{1F}') }

  /** The `\w` regex class restricted to ASCII. */
  predicate IsWordChar(c: char) { IsLetter(c) || IsDigit(c) || c == '_' }

  function ToUpper(c: char): char { if IsLowerChar(c) then (c as int - 32) as char else c }

  function ToLower(c: char): char { if IsUpperChar(c) then (c as int + 32) as char else c }

  /** `str.upper` */
  function Upper(s: string): string { seq(|s|, i requires 0 <= i < |s| => ToUpper(s[i])) }

  /** `str.lower` */
  function Lower(s: string): string { seq(|s|, i requires 0 <= i < |s| => ToLower(s[i])) }

  // ---------------------------------------------------------------------
  // isupper / istitle / title
  // ---------------------------------------------------------------------

  predicate HasLetter(s: string) { exists i | 0 <= i < |s| :: IsLetter(s[i]) }

  /** `str.isupper`: at least one cased character and no lower-case one. */
  predicate IsUpper(s: string) { HasLetter(s) && forall i | 0 <= i < |s| :: !IsLowerChar(s[i]) }

  /** The ordering condition of `str.istitle`: an upper-case letter never
      follows a letter and a lower-case letter always follows one.
      `prevCased` says whether the character before `s` was a letter. */
  predicate TitleOrdered(s: string, prevCased: bool)
    decreases |s|
  {
    if s == [] then true
    else if IsUpperChar(s[0]) then !prevCased && TitleOrdered(s[1..], true)
    else if IsLowerChar(s[0]) then prevCased && TitleOrdered(s[1..], true)
    else TitleOrdered(s[1..], false)
  }

  /** `str.istitle` */
  predicate IsTitle(s: string) { HasLetter(s) && TitleOrdered(s, false) }

  /** `str.title` from a given state: a letter that follows a letter is
      lower-cased, any other letter is upper-cased. */
  function TitleFrom(s: string, prevCased: bool): (r: string)
    ensures |r| == |s|
    ensures forall k | 0 <= k < |s| :: r[k] == ToUpper(s[k]) || r[k] == ToLower(s[k])
    decreases |s|
  {
    if s == [] then []
    else [if prevCased then ToLower(s[0]) else ToUpper(s[0])] + TitleFrom(s[1..], IsLetter(s[0]))
  }

  /** `str.title` */
  function Title(s: string): string { TitleFrom(s, false) }

  /** Whatever `title` produces satisfies the ordering condition of `istitle`. */
  lemma {:induction false} TitleFromOrdered(s: string, prevCased: bool)
    ensures TitleOrdered(TitleFrom(s, prevCased), prevCased)
    decreases |s|
  {
    if s != [] {
      TitleFromOrdered(s[1..], IsLetter(s[0]));
      var t := TitleFrom(s, prevCased);
      assert t[1..] == TitleFrom(s[1..], IsLetter(s[0]));
    }
  }

  /** `s.title().istitle()` holds whenever `s` has a letter. */
  lemma TitleIsTitle(s: string)
    requires HasLetter(s)
    ensures IsTitle(Title(s))
  {
    TitleFromOrdered(s, false);
    var i :| 0 <= i < |s| && IsLetter(s[i]);
    assert IsLetter(Title(s)[i]);
  }

  /** Title-casing changes only the case of letters: upper-casing both gives
      the same string. */
  lemma UpperOfTitle(s: string)
    ensures Upper(Title(s)) == Upper(s)
  {
    var t := Title(s);
    forall k | 0 <= k < |s| ensures ToUpper(t[k]) == ToUpper(s[k]) {
    }
  }

  // ---------------------------------------------------------------------
  // Spans of characters, strip
  // ---------------------------------------------------------------------

  /** The end of the longest run of characters satisfying `p` that starts at `i`. */
  function Span(s: string, i: nat, p: char -> bool): (j: nat)
    requires i <= |s|
    ensures i <= j <= |s|
    ensures forall k | i <= k < j :: p(s[k])
    ensures j == |s| || !p(s[j])
    decreases |s| - i
  {
    if i == |s| || !p(s[i]) then i else Span(s, i + 1, p)
  }

  /** The start of the longest run of characters satisfying `p` that ends at
      `j`, not going below `lo`. */
  function SpanBack(s: string, lo: nat, j: nat, p: char -> bool): (k: nat)
    requires lo <= j <= |s|
    ensures lo <= k <= j
    ensures forall m | k <= m < j :: p(s[m])
    ensures k == lo || !p(s[k - 1])
    decreases j
  {
    if j == lo || !p(s[j - 1]) then j else SpanBack(s, lo, j - 1, p)
  }

  /** Number of white-space characters at the start of `s`. */
  function LeadingSpaces(s: string): nat { Span(s, 0, IsSpace) }

  /** `str.strip()`: the piece of `s` left after removing the white space at
      both ends. */
  function Strip(s: string): (r: string)
    ensures LeadingSpaces(s) + |r| <= |s|
    ensures r == s[LeadingSpaces(s)..LeadingSpaces(s) + |r|]
    ensures forall k | 0 <= k < LeadingSpaces(s) :: IsSpace(s[k])
    ensures forall k | LeadingSpaces(s) + |r| <= k < |s| :: IsSpace(s[k])
    ensures r == [] || (!IsSpace(r[0]) && !IsSpace(r[|r| - 1]))
  {
    var a := LeadingSpaces(s);
    var b := SpanBack(s, a, |s|, IsSpace);
    assert a < |s| ==> b > a;
    s[a..b]
  }

  // ---------------------------------------------------------------------
  // Digits, words, search
  // ---------------------------------------------------------------------

  /** `re.sub(r'[^\d]', '', s)`: the digits of `s`, in order. */
  function Digits(s: string): (r: string)
    ensures |r| <= |s|
    ensures forall k | 0 <= k < |r| :: IsDigit(r[k])
    ensures (forall k | 0 <= k < |s| :: IsDigit(s[k])) ==> r == s
    decreases |s|
  {
    if s == [] then []
    else if IsDigit(s[0]) then [s[0]] + Digits(s[1..])
    else Digits(s[1..])
  }

  /** `Digits(s)` holds each digit exactly as often as `s` does, and nothing
      else, so its length is the number of digits of `s`. */
  lemma {:induction false} DigitsCount(s: string)
    ensures forall c :: multiset(Digits(s))[c] == if IsDigit(c) then multiset(s)[c] else 0
    decreases |s|
  {
    if s != [] {
      DigitsCount(s[1..]);
      assert s == [s[0]] + s[1..];
    }
  }

  /** Number of maximal runs of non-space characters; `inWord` says whether
      the character before `s` was such a character. */
  function WordCountFrom(s: string, inWord: bool): nat
    decreases |s|
  {
    if s == [] then 0
    else if IsSpace(s[0]) then WordCountFrom(s[1..], false)
    else (if inWord then 0 else 1) + WordCountFrom(s[1..], true)
  }

  /** `len(s.split())` */
  function WordCount(s: string): nat { WordCountFrom(s, false) }

  /** Two strings with white space at the same positions have the same words count. */
  lemma {:induction false} SameSpacingSameWordCount(s: string, t: string, inWord: bool)
    requires |s| == |t|
    requires forall k | 0 <= k < |s| :: IsSpace(s[k]) == IsSpace(t[k])
    ensures WordCountFrom(s, inWord) == WordCountFrom(t, inWord)
    decreases |s|
  {
    if s != [] {
      SameSpacingSameWordCount(s[1..], t[1..], !IsSpace(s[0]));
    }
  }

  predicate OccursAt(s: string, p: string, k: int) { 0 <= k && k + |p| <= |s| && s[k..k + |p|] == p }

  /** `s.find(p, i)`: the first position at or after `i` where `p` occurs, or -1. */
  function FindFrom(s: string, p: string, i: nat): (r: int)
    requires i <= |s|
    ensures r == -1 || (i <= r && OccursAt(s, p, r))
    ensures forall k | i <= k && (r == -1 || k < r) :: !OccursAt(s, p, k)
    decreases |s| - i
  {
    if i + |p| > |s| then -1
    else if s[i..i + |p|] == p then i
    else FindFrom(s, p, i + 1)
  }

  /** `s.find(p)` */
  function Find(s: string, p: string): int { FindFrom(s, p, 0) }

  /** `p in s` for strings */
  predicate Contains(s: string, p: string) { Find(s, p) >= 0 }

  function Min(a: int, b: int): int { if a <= b then a else b }

  /** `s[:n]` */
  function Take(s: string, n: nat): string { if |s| <= n then s else s[..n] }

  // ---------------------------------------------------------------------
  // split / join
  // ---------------------------------------------------------------------

  /** The first index of `c` in `s`, or -1. */
  function IndexOf(s: string, c: char): (r: int)
    ensures r == -1 <==> c !in s
    ensures r >= 0 ==> r < |s| && s[r] == c && c !in s[..r]
    decreases |s|
  {
    if s == [] then -1
    else if s[0] == c then 0
    else
      var k := IndexOf(s[1..], c);
      if k < 0 then -1
      else
        assert s[..k + 1] == [s[0]] + s[1..][..k];
        k + 1
  }

  /** `sep.join(parts)` */
  function Join(parts: seq<string>, sep: string): string
    decreases |parts|
  {
    if |parts| == 0 then ""
    else if |parts| == 1 then parts[0]
    else parts[0] + sep + Join(parts[1..], sep)
  }

  /** `s.split(sep)` for a one-character separator: the pieces between the
      separators, which joined back give `s`. */
  function Split(s: string, sep: char): (r: seq<string>)
    ensures |r| >= 1
    ensures forall i | 0 <= i < |r| :: sep !in r[i]
    ensures Join(r, [sep]) == s
    decreases |s|
  {
    var k := IndexOf(s, sep);
    if k < 0 then [s]
    else
      var rest := Split(s[k + 1..], sep);
      var r := [s[..k]] + rest;
      assert r[1..] == rest;
      assert s == s[..k] + [sep] + s[k + 1..];
      r
  }

  // ---------------------------------------------------------------------
  // Decimal numbers
  // ---------------------------------------------------------------------

  function DigitChar(d: nat): char
    requires d < 10
  {
    ('0' as int + d) as char
  }

  /** The value of a string of decimal digits. */
  function ParseNat(s: string): nat
    requires forall k | 0 <= k < |s| :: IsDigit(s[k])
    decreases |s|
  {
    if s == [] then 0
    else
      assert IsDigit(s[|s| - 1]);
      10 * ParseNat(s[..|s| - 1]) + (s[|s| - 1] as int - '0' as int)
  }

  /** `str(n)` for a natural number: a non-empty string of digits that
      denotes `n`. */
  function NatToString(n: nat): (r: string)
    ensures |r| >= 1
    ensures forall k | 0 <= k < |r| :: IsDigit(r[k])
    ensures ParseNat(r) == n
    ensures |r| > 1 ==> r[0] != '0'
    decreases n
  {
    if n < 10 then [DigitChar(n)]
    else
      var front := NatToString(n / 10);
      var r := front + [DigitChar(n % 10)];
      assert r[..|r| - 1] == front;
      r
  }
}
