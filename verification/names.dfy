/** The candidate's name (parsing.py, `extract_name`): a qualifying line
    among the first ten, else the first acceptable PERSON entity of the
    language model, else the sentinel "Unknown Candidate". */
module Names {
  import opened Wrappers
  import opened Text
  import opened Nlp

  /** The sentinel returned when no name is found. */
  const UnknownCandidate: string := "Unknown Candidate"

  /** Section headings that disqualify a line or an entity. */
  const Blocklist: seq<string> := [
    "CURRICULUM VITAE", "RESUME", "PROFILE", "PROFESSIONAL SUMMARY",
    "WORK EXPERIENCE", "EDUCATION", "SKILLS", "CONTACT INFORMATION",
    "COMPUTER SCIENCE", "BACHELORS", "MASTERS"
  ]

  /** Number of lines the line heuristic looks at. */
  const HeuristicLines: nat := 10

  /** The language model only sees `text[:1000]`. */
  const NerHeaderLength: nat := 1000

  /** `any(term in s.upper() for term in blocklist)` */
  predicate Blocklisted(s: string) { exists t | t in Blocklist :: Contains(Upper(s), t) }

  /** `any(char.isdigit() for char in s)` */
  predicate HasDigitChar(s: string) { exists k | 0 <= k < |s| :: IsDigit(s[k]) }

  /** The line heuristic's test on a stripped line: non-empty, all upper-case
      or title-case, at least two words, no digit, no blocklisted heading. */
  predicate IsNameLine(s: string) {
    s != [] && (IsUpper(s) || IsTitle(s)) && WordCount(s) >= 2 && !HasDigitChar(s) && !Blocklisted(s)
  }

  /** The language-model fallback's test on an entity. */
  predicate IsAcceptablePerson(e: Entity) {
    e.kind == "PERSON" && !Blocklisted(e.text) && WordCount(e.text) >= 2 && !HasDigitChar(e.text)
  }

  /** `text.split('\n')[:10]` */
  function FirstLines(text: string): (r: seq<string>)
    ensures |r| <= HeuristicLines
    ensures r <= Split(text, '\n')
    ensures |r| < HeuristicLines ==> r == Split(text, '\n')
  {
    var lines := Split(text, '\n');
    if |lines| <= HeuristicLines then lines else lines[..HeuristicLines]
  }

  /** The position of the first line of `lines[i..]` that qualifies once stripped. */
  function FirstNameLineFrom(lines: seq<string>, i: nat): (r: Option<nat>)
    requires i <= |lines|
    ensures r.Some? ==> i <= r.value < |lines| && IsNameLine(Strip(lines[r.value]))
    ensures forall j | i <= j < |lines| && (r.None? || j < r.value) :: !IsNameLine(Strip(lines[j]))
    decreases |lines| - i
  {
    if i == |lines| then None
    else if IsNameLine(Strip(lines[i])) then Some(i)
    else FirstNameLineFrom(lines, i + 1)
  }

  /** The position of the first acceptable PERSON entity of `ents[i..]`. */
  function FirstPersonFrom(ents: seq<Entity>, i: nat): (r: Option<nat>)
    requires i <= |ents|
    ensures r.Some? ==> i <= r.value < |ents| && IsAcceptablePerson(ents[r.value])
    ensures forall j | i <= j < |ents| && (r.None? || j < r.value) :: !IsAcceptablePerson(ents[j])
    decreases |ents| - i
  {
    if i == |ents| then None
    else if IsAcceptablePerson(ents[i]) then Some(i)
    else FirstPersonFrom(ents, i + 1)
  }

  /** The name reported for `text`, tier by tier. */
  function NameOf(text: string, nlp: Option<Model>): string
  {
    var lines := FirstLines(text);
    match FirstNameLineFrom(lines, 0)
    case Some(i) => Title(Strip(lines[i]))
    case None =>
      if nlp.None? then UnknownCandidate
      else
        var ents := nlp.value.ents(Take(text, NerHeaderLength));
        match FirstPersonFrom(ents, 0)
        case Some(k) => Title(ents[k].text)
        case None => UnknownCandidate
  }

  /** `extract_name` */
  method ExtractName(text: string, nlp: Option<Model>) returns (name: string)
    ensures name == NameOf(text, nlp)
  {
    // The checks are only combined here, never looked into.
    hide IsUpper, IsTitle, HasDigitChar, Blocklisted, WordCount, Title;
    var lines := Split(text, '\n');
    var firstLines := if |lines| <= HeuristicLines then lines else lines[..HeuristicLines];
    var i := 0;
    while i < |firstLines|
      invariant 0 <= i <= |firstLines|
      invariant FirstNameLineFrom(firstLines, 0) == FirstNameLineFrom(firstLines, i)
    {
      var strippedLine := Strip(firstLines[i]);
      if strippedLine != [] {
        var isNameFormat := IsUpper(strippedLine) || IsTitle(strippedLine);
        var hasTwoWords := WordCount(strippedLine) >= 2;
        var hasNoDigits := !HasDigitChar(strippedLine);
        var isNotBlocklisted := !Blocklisted(strippedLine);
        if isNameFormat && hasTwoWords && hasNoDigits && isNotBlocklisted {
          return Title(strippedLine);
        }
      }
      assert !IsNameLine(strippedLine);
      i := i + 1;
    }

    if nlp.Some? {
      var headerText := Take(text, NerHeaderLength);
      var ents := nlp.value.ents(headerText);
      var k := 0;
      while k < |ents|
        invariant 0 <= k <= |ents|
        invariant FirstPersonFrom(ents, 0) == FirstPersonFrom(ents, k)
      {
        var ent := ents[k];
        if ent.kind == "PERSON" {
          var nameCandidate := ent.text;
          if Blocklisted(nameCandidate) {
            k := k + 1;
            continue;
          }
          if WordCount(nameCandidate) < 2 {
            k := k + 1;
            continue;
          }
          if HasDigitChar(nameCandidate) {
            k := k + 1;
            continue;
          }
          return Title(nameCandidate);
        }
        k := k + 1;
      }
    }
    return UnknownCandidate;
  }

  // ---------------------------------------------------------------------
  // Properties
  // ---------------------------------------------------------------------

  /** Title-casing keeps the word count, the digits and the blocklist test. */
  lemma TitleKeepsChecks(s: string)
    ensures |Title(s)| == |s|
    ensures WordCount(Title(s)) == WordCount(s)
    ensures HasDigitChar(Title(s)) == HasDigitChar(s)
    ensures Blocklisted(Title(s)) == Blocklisted(s)
  {
    var t := Title(s);
    SameSpacingSameWordCount(t, s, false);
    UpperOfTitle(s);
    if HasDigitChar(s) {
      var k :| 0 <= k < |s| && IsDigit(s[k]);
      assert IsDigit(t[k]);
    }
    if HasDigitChar(t) {
      var k :| 0 <= k < |t| && IsDigit(t[k]);
      assert IsDigit(s[k]);
    }
  }

  /** A qualifying line still qualifies once title-cased, and is then in
      title case. */
  lemma TitledNameLine(s: string)
    requires IsNameLine(s)
    ensures IsNameLine(Title(s)) && IsTitle(Title(s))
  {
    TitleKeepsChecks(s);
    assert HasLetter(s);
    TitleIsTitle(s);
  }

  /** A name found by the line heuristic is one of the first ten lines,
      stripped and title-cased, and the name itself passes the line test and
      is in title case. */
  lemma LineNameQualifies(text: string, nlp: Option<Model>)
    requires FirstNameLineFrom(FirstLines(text), 0).Some?
    ensures var i := FirstNameLineFrom(FirstLines(text), 0).value;
            i < HeuristicLines &&
            NameOf(text, nlp) == Title(Strip(FirstLines(text)[i])) &&
            IsNameLine(NameOf(text, nlp)) && IsTitle(NameOf(text, nlp))
  {
    var lines := FirstLines(text);
    var i := FirstNameLineFrom(lines, 0).value;
    TitledNameLine(Strip(lines[i]));
  }

  /** A name found by the language model is an entity labelled PERSON,
      title-cased, with at least two words, no digit and no blocklisted
      heading; no line among the first ten qualified. */
  lemma PersonNameQualifies(text: string, nlp: Option<Model>)
    requires FirstNameLineFrom(FirstLines(text), 0).None? && nlp.Some?
    requires FirstPersonFrom(nlp.value.ents(Take(text, NerHeaderLength)), 0).Some?
    ensures var ents := nlp.value.ents(Take(text, NerHeaderLength));
            var k := FirstPersonFrom(ents, 0).value;
            ents[k].kind == "PERSON" &&
            NameOf(text, nlp) == Title(ents[k].text) &&
            WordCount(NameOf(text, nlp)) >= 2 &&
            !HasDigitChar(NameOf(text, nlp)) && !Blocklisted(NameOf(text, nlp))
  {
    var ents := nlp.value.ents(Take(text, NerHeaderLength));
    var k := FirstPersonFrom(ents, 0).value;
    TitleKeepsChecks(ents[k].text);
  }

  /** The sentinel comes back when no line among the first ten qualifies and
      the language model is missing or offers no acceptable PERSON entity. */
  lemma UnknownWhenNothingQualifies(text: string, nlp: Option<Model>)
    requires forall j | 0 <= j < |FirstLines(text)| :: !IsNameLine(Strip(FirstLines(text)[j]))
    requires nlp.Some? ==>
               var ents := nlp.value.ents(Take(text, NerHeaderLength));
               forall k | 0 <= k < |ents| :: !IsAcceptablePerson(ents[k])
    ensures NameOf(text, nlp) == UnknownCandidate
  {
  }

  /** What the language model guarantees of `doc.ents`: every entity text is
      a piece of the text it was given. */
  ghost predicate EntitiesFromText(m: Model) {
    forall t: string, e | e in m.ents(t) :: exists k :: OccursAt(t, e.text, k)
  }

  /** With such a model, a name from the entity tier is the title-cased form
      of a piece of the header block `text[:1000]`. */
  lemma PersonNameFromHeader(text: string, nlp: Option<Model>)
    requires FirstNameLineFrom(FirstLines(text), 0).None? && nlp.Some? && EntitiesFromText(nlp.value)
    requires FirstPersonFrom(nlp.value.ents(Take(text, NerHeaderLength)), 0).Some?
    ensures exists p, k :: OccursAt(Take(text, NerHeaderLength), p, k) && NameOf(text, nlp) == Title(p)
  {
    var ents := nlp.value.ents(Take(text, NerHeaderLength));
    var i := FirstPersonFrom(ents, 0).value;
    PersonNameQualifies(text, nlp);
    assert ents[i] in ents;
    var k :| OccursAt(Take(text, NerHeaderLength), ents[i].text, k);
  }
}
