/** Contact details of a resume (parsing.py, `extract_contact_info`):
    the first e-mail address anywhere in the text, and a phone number
    searched for in the first 1000 characters, first right after a fixed
    list of keywords and then in the whole header block. */
module Contact {
  import opened Wrappers
  import opened Text

  /** The `{"email": ..., "phone": ...}` dictionary; `None` means not found. */
  datatype ContactInfo = ContactInfo(email: Option<string>, phone: Option<string>)

  // ---------------------------------------------------------------------
  // E-mail: the pattern [a-zA-Z0-9._%+-]+@[a-zA-Z0-9.-]+\.[a-zA-Z]{2,}
  // ---------------------------------------------------------------------

  /** The class `[a-zA-Z0-9._%+-]` of the local part. */
  predicate IsLocalChar(c: char) {
    IsLetter(c) || IsDigit(c) || c == '.' || c == '_' || c == '%' || c == '+' || c == '-'
  }

  /** The class `[a-zA-Z0-9.-]` of the domain part. */
  predicate IsDomainChar(c: char) { IsLetter(c) || IsDigit(c) || c == '.' || c == '-' }

  /** `w` is `local@domain.tld` with the '@' at `at` and the last dot at `dot`. */
  ghost predicate EmailShape(w: string, at: int, dot: int) {
    0 < at && at + 1 < dot && dot + 3 <= |w| &&
    w[at] == '@' && w[dot] == '.' &&
    (forall k | 0 <= k < at :: IsLocalChar(w[k])) &&
    (forall k | at < k < dot :: IsDomainChar(w[k])) &&
    (forall k | dot < k < |w| :: IsLetter(w[k]))
  }

  /** `w` as a whole matches the e-mail pattern. */
  ghost predicate IsEmail(w: string) {
    exists at, dot :: EmailShape(w, at, dot)
  }

  /** A '.' at `d` followed by at least two letters: where `\.[a-zA-Z]{2,}` can match. */
  predicate TldAt(s: string, d: nat)
    requires d < |s|
  {
    s[d] == '.' && Span(s, d + 1, IsLetter) >= d + 3
  }

  /** The last position `d` with `lo < d < j` where the top-level domain can
      start. The greedy `[a-zA-Z0-9.-]+` gives back characters from the right
      one at a time, so this is the dot the regular expression settles on. */
  function LastDot(s: string, lo: nat, j: nat): (r: Option<nat>)
    requires lo <= j <= |s|
    ensures r.Some? ==> lo < r.value < j && TldAt(s, r.value)
    ensures forall d | lo < d < j && (r.None? || r.value < d) :: !TldAt(s, d)
    decreases j
  {
    if j <= lo + 1 then None
    else if TldAt(s, j - 1) then Some(j - 1)
    else LastDot(s, lo, j - 1)
  }

  /** The end of the match of the e-mail pattern that starts at `i`, if
      one does. The local part is the run of local characters up to an '@',
      the domain part the run of domain characters after it, cut back to the
      last dot where the top-level domain can start. */
  function EmailMatchAt(s: string, i: nat): (r: Option<nat>)
    requires i <= |s|
    ensures r.Some? ==> i < r.value <= |s|
  {
    var at := Span(s, i, IsLocalChar);
    if at == i || at == |s| || s[at] != '@' then None
    else
      var e := Span(s, at + 1, IsDomainChar);
      match LastDot(s, at + 1, e)
      case None => None
      case Some(d) => Some(Span(s, d + 1, IsLetter))
  }

  /** What the scan finds does match the pattern. */
  lemma EmailMatchSound(s: string, i: nat)
    requires i <= |s| && EmailMatchAt(s, i).Some?
    ensures IsEmail(s[i..EmailMatchAt(s, i).value])
  {
    var at := Span(s, i, IsLocalChar);
    var e := Span(s, at + 1, IsDomainChar);
    var d := LastDot(s, at + 1, e).value;
    var end := Span(s, d + 1, IsLetter);
    assert EmailShape(s[i..end], at - i, d - i);
  }

  /** Every match of the pattern starting at `i` is found by the scan, which
      returns the longest of them. */
  lemma EmailMatchComplete(s: string, i: nat, b: nat)
    requires i < b <= |s| && IsEmail(s[i..b])
    ensures EmailMatchAt(s, i).Some? && b <= EmailMatchAt(s, i).value
  {
    var d' := EmailWitness(s, i, b);
    var at := Span(s, i, IsLocalChar);
    var e := Span(s, at + 1, IsDomainChar);
    var d := LastDot(s, at + 1, e).value;
    if d' < d {
      assert !IsLetter(s[d]);
    }
  }

  /** What a match `s[i..j]` of the pattern tells about the scan at `i`: the
      local part runs exactly to an '@', the domain run after it covers the
      match, and its last dot `d` is one where the top-level domain can start
      and reaches at least to `j`. */
  lemma EmailWitness(s: string, i: nat, j: nat) returns (d: nat)
    requires i < j <= |s| && IsEmail(s[i..j])
    ensures var at := Span(s, i, IsLocalChar);
            at < |s| && s[at] == '@' && at + 1 < d < Span(s, at + 1, IsDomainChar) && d < j &&
            TldAt(s, d) && j <= Span(s, d + 1, IsLetter)
  {
    var w := s[i..j];
    var at, dot :| EmailShape(w, at, dot);
    var a := Span(s, i, IsLocalChar);
    assert !IsLocalChar(s[i + at]);
    assert forall k | i <= k < i + at :: IsLocalChar(s[k]) by {
      forall k | i <= k < i + at ensures IsLocalChar(s[k]) { assert s[k] == w[k - i]; }
    }
    assert a == i + at;
    var e := Span(s, a + 1, IsDomainChar);
    assert forall k | a + 1 <= k < j :: IsDomainChar(s[k]) by {
      forall k | a + 1 <= k < j ensures IsDomainChar(s[k]) { assert s[k] == w[k - i]; }
    }
    d := i + dot;
    assert forall k | d + 1 <= k < j :: IsLetter(s[k]) by {
      forall k | d + 1 <= k < j ensures IsLetter(s[k]) { assert s[k] == w[k - i]; }
    }
  }

  /** The leftmost match at or after `i`, as a pair of positions. */
  function EmailSpanFrom(s: string, i: nat): (r: Option<(nat, nat)>)
    requires i <= |s|
    ensures r.Some? ==> i <= r.value.0 < r.value.1 <= |s| && IsEmail(s[r.value.0..r.value.1])
    ensures r.Some? ==> forall b | r.value.1 < b <= |s| :: !IsEmail(s[r.value.0..b])
    ensures forall a, b | i <= a < b <= |s| && (r.None? || a < r.value.0) :: !IsEmail(s[a..b])
    decreases |s| - i
  {
    if i == |s| then None
    else
      match EmailMatchAt(s, i)
      case Some(e) =>
        EmailMatchSound(s, i);
        assert forall b | e < b <= |s| :: !IsEmail(s[i..b]) by {
          forall b | e < b <= |s| && IsEmail(s[i..b]) ensures false {
            EmailMatchComplete(s, i, b);
          }
        }
        Some((i, e))
      case None =>
        assert forall b | i < b <= |s| :: !IsEmail(s[i..b]) by {
          forall b | i < b <= |s| && IsEmail(s[i..b]) ensures false {
            EmailMatchComplete(s, i, b);
          }
        }
        EmailSpanFrom(s, i + 1)
  }

  /** No match of the pattern starts before `a`, `s[a..b]` is one, and no
      longer one starts at `a`. */
  ghost predicate IsFirstEmail(s: string, a: int, b: int) {
    0 <= a < b <= |s| && IsEmail(s[a..b]) &&
    (forall b' | b < b' <= |s| :: !IsEmail(s[a..b'])) &&
    forall a', b' | 0 <= a' < a && a' < b' <= |s| :: !IsEmail(s[a'..b'])
  }

  /** `re.search(email_pattern, text)`: the text of the leftmost (and at that
      position longest) match, or `None` when the pattern matches nowhere. */
  function SearchEmail(s: string): (r: Option<string>)
    ensures r.None? <==> forall a, b | 0 <= a < b <= |s| :: !IsEmail(s[a..b])
    ensures r.Some? ==> exists a, b :: IsFirstEmail(s, a, b) && r.value == s[a..b]
  {
    match EmailSpanFrom(s, 0)
    case None => None
    case Some((a, b)) =>
      assert IsFirstEmail(s, a, b);
      Some(s[a..b])
  }

  // ---------------------------------------------------------------------
  // Phone
  // ---------------------------------------------------------------------

  /** Keywords searched for in the header block, in this order. */
  const PhoneKeywords: seq<string> := ["Phone:", "Tel:", "Contact:", "Mobile:", "Cell:", "phone", "mobile"]

  /** The header block is `text[:1000]`. */
  const HeaderLength: nat := 1000

  /** Characters inspected after a keyword. */
  const WindowLength: nat := 50

  /** `re.findall(phone_pattern, area)` for the pattern
      `(\+?\d{1,3}[-.\s]?)?(\(?\d{3}\)?[-.\s]?\d{3}[-.\s]?\d{4,5})`:
      the two capture groups of each match, in order. */
  type PhoneFinder = string -> seq<(string, string)>

  /** What `re.findall` guarantees of its result: the two groups of each
      match stand next to each other in the text searched. */
  ghost predicate FinderSound(find: PhoneFinder) {
    forall area: string, g | g in find(area) :: exists k :: OccursAt(area, g.0 + g.1, k)
  }

  /** `"".join(phone).strip()` */
  function Candidate(groups: (string, string)): string { Strip(groups.0 + groups.1) }

  /** A candidate is accepted when it holds between 10 and 15 digits. */
  predicate IsAcceptedPhone(p: string) { 10 <= |Digits(p)| <= 15 }

  /** The position of the first accepted candidate among `m[i..]`. */
  function FirstAcceptedFrom(m: seq<(string, string)>, i: nat): (r: Option<nat>)
    requires i <= |m|
    ensures r.Some? ==> i <= r.value < |m| && IsAcceptedPhone(Candidate(m[r.value]))
    ensures forall j | i <= j < |m| && (r.None? || j < r.value) :: !IsAcceptedPhone(Candidate(m[j]))
    decreases |m| - i
  {
    if i == |m| then None
    else if IsAcceptedPhone(Candidate(m[i])) then Some(i)
    else FirstAcceptedFrom(m, i + 1)
  }

  /** The first accepted candidate among the matches `m`. */
  function FirstAccepted(m: seq<(string, string)>): (r: Option<string>)
    ensures r.None? <==> forall j | 0 <= j < |m| :: !IsAcceptedPhone(Candidate(m[j]))
    ensures r.Some? ==> IsAcceptedPhone(r.value)
    ensures r.Some? ==>
              exists j | 0 <= j < |m| :: r.value == Candidate(m[j]) &&
                forall i | 0 <= i < j :: !IsAcceptedPhone(Candidate(m[i]))
  {
    match FirstAcceptedFrom(m, 0)
    case None => None
    case Some(j) => Some(Candidate(m[j]))
  }

  /** `area[start:start + 50]` where `start` is just after the first
      occurrence of `kw`, or `None` when `kw` does not occur. */
  function KeywordWindow(area: string, kw: string): (r: Option<string>)
    ensures r.None? <==> !Contains(area, kw)
    ensures r.Some? ==>
              var start := Find(area, kw) + |kw|;
              |r.value| <= WindowLength && start + |r.value| <= |area| &&
              r.value == area[start..start + |r.value|] &&
              (|r.value| < WindowLength ==> start + |r.value| == |area|)
  {
    if Contains(area, kw) then
      var start := Find(area, kw) + |kw|;
      Some(area[start..Min(start + WindowLength, |area|)])
    else None
  }

  /** What the `i`-th keyword yields: its first accepted candidate. */
  function KeywordHit(area: string, find: PhoneFinder, i: nat): Option<string>
    requires i < |PhoneKeywords|
  {
    match KeywordWindow(area, PhoneKeywords[i])
    case None => None
    case Some(w) => FirstAccepted(find(w))
  }

  /** The window of the `i`-th keyword spelt out. */
  lemma KeywordHitUnfold(area: string, find: PhoneFinder, i: nat)
    requires i < |PhoneKeywords|
    ensures var kw := PhoneKeywords[i];
      Contains(area, kw) ==> Find(area, kw) + |kw| <= |area|
    ensures var kw := PhoneKeywords[i];
      KeywordHit(area, find, i) ==
        if Contains(area, kw) then
          var start := Find(area, kw) + |kw|;
          FirstAccepted(find(area[start..Min(start + WindowLength, |area|)]))
        else None
  {
  }

  /** The position of the keyword that decides the keyword tier, looking
      from the `i`-th keyword on: the first one that yields a candidate. */
  function DecidingKeyword(area: string, find: PhoneFinder, i: nat): (r: Option<nat>)
    requires i <= |PhoneKeywords|
    ensures r.Some? ==> i <= r.value < |PhoneKeywords| && KeywordHit(area, find, r.value).Some?
    ensures forall j | i <= j < |PhoneKeywords| && (r.None? || j < r.value) :: KeywordHit(area, find, j).None?
    decreases |PhoneKeywords| - i
  {
    if i == |PhoneKeywords| then None
    else if KeywordHit(area, find, i).Some? then Some(i)
    else DecidingKeyword(area, find, i + 1)
  }

  /** The phone number reported for `text`: the candidate of the deciding
      keyword, or else the first accepted candidate of the header block. */
  function PhoneOf(text: string, find: PhoneFinder): (r: Option<string>)
    ensures r.Some? ==> IsAcceptedPhone(r.value)
  {
    var area := Take(text, HeaderLength);
    match DecidingKeyword(area, find, 0)
    case Some(k) => KeywordHit(area, find, k)
    case None => FirstAccepted(find(area))
  }

  /** The loop `for phone in found_phones` of both tiers: the first
      candidate whose digit count is between 10 and 15. */
  method FirstValidPhone(foundPhones: seq<(string, string)>) returns (validPhone: Option<string>)
    ensures validPhone == FirstAccepted(foundPhones)
  {
    validPhone := None;
    var j := 0;
    while j < |foundPhones|
      invariant 0 <= j <= |foundPhones|
      invariant FirstAcceptedFrom(foundPhones, 0) == FirstAcceptedFrom(foundPhones, j)
    {
      var phoneStr := Strip(foundPhones[j].0 + foundPhones[j].1);
      var cleanDigits := Digits(phoneStr);
      if 10 <= |cleanDigits| <= 15 {
        validPhone := Some(phoneStr);
        return;
      }
      j := j + 1;
    }
  }

  /** `extract_contact_info`: the loop over keywords returns as soon as one
      window holds an accepted candidate; only then is the header block
      searched as a whole. */
  method ExtractContactInfo(text: string, findPhones: PhoneFinder) returns (info: ContactInfo)
    ensures info.email == SearchEmail(text)
    ensures info.phone == PhoneOf(text, findPhones)
  {
    hide SearchEmail, KeywordHit;
    var email := SearchEmail(text);
    var searchArea := Take(text, HeaderLength);
    var i := 0;
    while i < |PhoneKeywords|
      invariant 0 <= i <= |PhoneKeywords|
      invariant DecidingKeyword(searchArea, findPhones, 0) == DecidingKeyword(searchArea, findPhones, i)
    {
      var keyword := PhoneKeywords[i];
      KeywordHitUnfold(searchArea, findPhones, i);
      if Contains(searchArea, keyword) {
        var startIndex := Find(searchArea, keyword) + |keyword|;
        var subArea := searchArea[startIndex..Min(startIndex + WindowLength, |searchArea|)];
        var validPhone := FirstValidPhone(findPhones(subArea));
        if validPhone.Some? {
          return ContactInfo(email, validPhone);
        }
      }
      i := i + 1;
    }

    var validPhone: Option<string> := None;
    if validPhone.None? {
      validPhone := FirstValidPhone(findPhones(searchArea));
    }
    info := ContactInfo(email, validPhone);
  }

  // ---------------------------------------------------------------------
  // Properties of the phone search
  // ---------------------------------------------------------------------

  /** Only the header block is searched: the text after its first 1000
      characters never changes the phone found. */
  lemma PhoneOnlyFromHeader(text: string, rest: string, find: PhoneFinder)
    requires |text| >= HeaderLength
    ensures PhoneOf(text + rest, find) == PhoneOf(text, find)
  {
    assert Take(text + rest, HeaderLength) == Take(text, HeaderLength);
  }

  /** The first keyword, in list order, whose window yields an accepted
      candidate decides the phone number; later keywords and the header
      block as a whole are not looked at. */
  lemma KeywordPrecedence(text: string, find: PhoneFinder, j: nat)
    requires j < |PhoneKeywords|
    requires KeywordHit(Take(text, HeaderLength), find, j).Some?
    requires forall k | 0 <= k < j :: KeywordHit(Take(text, HeaderLength), find, k).None?
    ensures PhoneOf(text, find) == KeywordHit(Take(text, HeaderLength), find, j)
  {
    hide KeywordHit, FirstAccepted;
    assert DecidingKeyword(Take(text, HeaderLength), find, 0) == Some(j);
  }

  /** The header block as a whole is searched only when no keyword window
      yields an accepted candidate. */
  lemma FallbackOnlyWithoutKeyword(text: string, find: PhoneFinder)
    requires forall k | 0 <= k < |PhoneKeywords| :: KeywordHit(Take(text, HeaderLength), find, k).None?
    ensures PhoneOf(text, find) == FirstAccepted(find(Take(text, HeaderLength)))
  {
  }

  // ---------------------------------------------------------------------
  // Where a reported phone number comes from
  // ---------------------------------------------------------------------

  /** Stripping a match leaves a piece that still occurs in the text. */
  lemma CandidateOccurs(area: string, g: (string, string), k: int)
    requires OccursAt(area, g.0 + g.1, k)
    ensures OccursAt(area, Candidate(g), k + LeadingSpaces(g.0 + g.1))
  {
    var w := g.0 + g.1;
    var a := LeadingSpaces(w);
    var c := Candidate(g);
    assert c == w[a..a + |c|];
    SliceOfSlice(area, k, k + |w|, a, a + |c|);
  }

  /** An occurrence in a slice of `area` is an occurrence in `area`. */
  lemma OccursInSlice(area: string, lo: nat, hi: nat, p: string, k: int)
    requires lo <= hi <= |area| && OccursAt(area[lo..hi], p, k)
    ensures OccursAt(area, p, lo + k)
  {
    SliceOfSlice(area, lo, hi, k, k + |p|);
  }

  /** A slice of a slice is a slice of the whole. */
  lemma SliceOfSlice(s: string, lo: nat, hi: nat, i: nat, j: nat)
    requires lo <= hi <= |s| && i <= j <= hi - lo
    ensures s[lo..hi][i..j] == s[lo + i..lo + j]
  {
    var x := s[lo..hi][i..j];
    var y := s[lo + i..lo + j];
    forall m | 0 <= m < |x| ensures x[m] == y[m] {
      assert x[m] == s[lo + i + m];
    }
  }

  /** With a sound finder, the first accepted candidate occurs in the text
      that was searched. */
  lemma FirstAcceptedOccurs(area: string, find: PhoneFinder)
    requires FinderSound(find)
    ensures FirstAccepted(find(area)).Some? ==>
              exists k :: OccursAt(area, FirstAccepted(find(area)).value, k)
  {
    var m := find(area);
    if FirstAccepted(m).Some? {
      var j :| 0 <= j < |m| && FirstAccepted(m).value == Candidate(m[j]) &&
               forall i | 0 <= i < j :: !IsAcceptedPhone(Candidate(m[i]));
      assert m[j] in find(area);
      var k :| OccursAt(area, m[j].0 + m[j].1, k);
      CandidateOccurs(area, m[j], k);
    }
  }

  /** A reported phone number is a piece of the header block `text[:1000]`,
      whichever tier found it. */
  lemma PhoneInHeader(text: string, find: PhoneFinder)
    requires FinderSound(find)
    ensures PhoneOf(text, find).Some? ==>
              exists k :: OccursAt(Take(text, HeaderLength), PhoneOf(text, find).value, k)
  {
    var area := Take(text, HeaderLength);
    match DecidingKeyword(area, find, 0)
    case None =>
      FirstAcceptedOccurs(area, find);
    case Some(i) =>
      var kw := PhoneKeywords[i];
      KeywordHitUnfold(area, find, i);
      var start := Find(area, kw) + |kw|;
      var hi := Min(start + WindowLength, |area|);
      FirstAcceptedOccurs(area[start..hi], find);
      var k :| OccursAt(area[start..hi], PhoneOf(text, find).value, k);
      OccursInSlice(area, start, hi, PhoneOf(text, find).value, k);
  }
}
