/** The tip engine (app.py, `generate_resume_tips`): a fixed cascade of
    rules builds a list of tips, which is replaced by a single message for an
    excellent match and is otherwise numbered 1..k and joined with `<br>`. */
module Tips {
  import opened Wrappers
  import opened Text
  import Names

  /** One tip of the cascade; `SkillGap` carries the skills it lists. */
  datatype Tip =
    | NameFailure
    | MissingEmail
    | MissingPhone
    | SkillGap(skills: seq<string>)
    | LowScore
    | Optimization
    | ProjectDetail
    | Readability

  /** The position of the rule producing each tip in the cascade. */
  function Rule(t: Tip): nat {
    match t
    case NameFailure => 1
    case MissingEmail => 2
    case MissingPhone => 3
    case SkillGap(_) => 4
    case LowScore => 5
    case Optimization => 6
    case ProjectDetail => 7
    case Readability => 8
  }

  /** The bold heading each tip starts with. */
  function Heading(t: Tip): string {
    match t
    case NameFailure => "Name Extraction Failure"
    case MissingEmail => "Missing Email"
    case MissingPhone => "Missing Phone"
    case SkillGap(_) => "Critical Skill Gap"
    case LowScore => "Low Match Score"
    case Optimization => "Optimization"
    case ProjectDetail => "Project Detail"
    case Readability => "Readability & ATS"
  }

  // The advice texts of the tips without parameters.
  const NameFailureAdvice: string :=
    "Your name was difficult to extract. Use a clear, **bold font** and place it explicitly on the first line."
  const MissingEmailAdvice: string :=
    "Your professional email address is missing or unclear. Ensure it is explicitly present and easy to read."
  const MissingPhoneAdvice: string :=
    "Your phone number was not easily found. Label it clearly (e.g., 'Mobile:') to ensure quick contact."
  const LowScoreAdvice: string :=
    "Your resume lacks fundamental keywords from the JD. Review the JD and integrate those specific technical skills and context (verbs, industry terms) into your bullet points to boost your score."
  const OptimizationAdvice: string :=
    "Your score is decent, but you must focus on **quantifying your achievements** (e.g., 'improved query speed by 25%', 'managed team of 5')."
  const ProjectDetailAdvice: string :=
    "Ensure you list the specific **technologies used** under each project/experience section for better parsing."
  const ReadabilityAdvice: string :=
    "Keep all bullet points concise (1-2 lines). Use strong **action verbs** at the start of every sentence (e.g., Developed, Managed, Implemented)."

  /** The advice that follows the heading; the skill-gap tip title-cases the
      comma-separated skills it names. */
  function Advice(t: Tip): string {
    match t
    case NameFailure => NameFailureAdvice
    case MissingEmail => MissingEmailAdvice
    case MissingPhone => MissingPhoneAdvice
    case SkillGap(skills) =>
      "You are missing key required skills like: **" + Title(Join(skills, ", ")) +
      "**. Update your resume to include projects or experience demonstrating these abilities."
    case LowScore => LowScoreAdvice
    case Optimization => OptimizationAdvice
    case ProjectDetail => ProjectDetailAdvice
    case Readability => ReadabilityAdvice
  }

  /** The text the source appends for each tip: `**Heading:** advice`. */
  function TipText(t: Tip): string { "**" + Heading(t) + ":** " + Advice(t) }

  /** The message returned alone for an excellent match. */
  const ExcellentMessage: string :=
    "\U{2705} " + "**Excellent Match!** Your resume is highly relevant and well-formatted. Focus on preparing interview questions that highlight your quantified achievements."

  /** Python truth value of an optional string: `None` and "" are false. */
  predicate Present(s: Option<string>) { s.Some? && s.value != "" }

  /** `order` lists every element of `s` once: a possible `list(s)`, whose
      order Python leaves unspecified. */
  predicate ListsSet(order: seq<string>, s: set<string>) {
    |order| == |s| &&
    (forall x | x in order :: x in s) && (forall x | x in s :: x in order) &&
    (forall i, j | 0 <= i < j < |order| :: order[i] != order[j])
  }

  /** The condition for the single excellent-match message. */
  predicate IsExcellent(name: string, email: Option<string>, phone: Option<string>, score: real,
                        current: set<string>, required: set<string>) {
    score >= 85.0 && required - current == {} && name != Names.UnknownCandidate && Present(email) && Present(phone)
  }

  /** The rules of `r` are strictly increasing and lie in `lo..hi`. */
  predicate RulesIn(r: seq<Tip>, lo: nat, hi: nat) {
    (forall i | 0 <= i < |r| :: lo <= Rule(r[i]) <= hi) &&
    (forall i, j | 0 <= i < j < |r| :: Rule(r[i]) < Rule(r[j]))
  }

  lemma RulesInConcat(a: seq<Tip>, b: seq<Tip>, lo: nat, mid: nat, hi: nat)
    requires lo <= mid + 1 && mid <= hi
    requires RulesIn(a, lo, mid) && RulesIn(b, mid + 1, hi)
    ensures RulesIn(a + b, lo, hi)
  {
    forall i | 0 <= i < |a + b| ensures lo <= Rule((a + b)[i]) <= hi {
      if i < |a| {
        assert (a + b)[i] == a[i];
      } else {
        assert (a + b)[i] == b[i - |a|];
      }
    }
  }

  /** A tip whose rule lies outside `lo..hi` is not in `r`. */
  lemma NotInRules(r: seq<Tip>, lo: nat, hi: nat, t: Tip)
    requires RulesIn(r, lo, hi) && !(lo <= Rule(t) <= hi)
    ensures t !in r
  {
  }

  /** Rule 1-3: the critical format flaws. */
  function FormatFlaws(name: string, email: Option<string>, phone: Option<string>): (r: seq<Tip>)
    ensures RulesIn(r, 1, 3) && |r| <= 3
    ensures NameFailure in r <==> name == Names.UnknownCandidate
    ensures name == Names.UnknownCandidate ==> r[0] == NameFailure
    ensures MissingEmail in r <==> !Present(email)
    ensures MissingPhone in r <==> !Present(phone)
  {
    (if name == Names.UnknownCandidate then [NameFailure] else []) +
    (if !Present(email) then [MissingEmail] else []) +
    (if !Present(phone) then [MissingPhone] else [])
  }

  /** Rule 4: the skill-gap tip, naming the first four of `order`, the
      listing of the missing skills. */
  function SkillGapTip(missing: set<string>, order: seq<string>): (r: seq<Tip>)
    requires ListsSet(order, missing)
    ensures RulesIn(r, 4, 4) && |r| <= 1
    ensures |r| == 1 <==> missing != {}
    ensures forall i | 0 <= i < |r| ::
              r[i].SkillGap? && |r[i].skills| == Min(4, |missing|) &&
              (forall k | 0 <= k < |r[i].skills| :: r[i].skills[k] in missing) &&
              (forall k, l | 0 <= k < l < |r[i].skills| :: r[i].skills[k] != r[i].skills[l])
  {
    if missing != {} then [SkillGap(order[..Min(4, |order|)])] else []
  }

  /** Rules 5-6: the match-score bands. */
  function ScoreBandTip(score: real): (r: seq<Tip>)
    ensures RulesIn(r, 5, 6) && |r| <= 1
    ensures LowScore in r <==> score < 40.0
    ensures Optimization in r <==> 40.0 <= score < 70.0
  {
    if score < 40.0 then [LowScore] else if 40.0 <= score < 70.0 then [Optimization] else []
  }

  /** `raw_tips` as the cascade leaves it, where `order` is `list(missing_skills)`:
      the tips come in rule order, and there are at most six of them. */
  function RawTips(name: string, email: Option<string>, phone: Option<string>, score: real,
                   current: set<string>, required: set<string>, order: seq<string>): (r: seq<Tip>)
    requires ListsSet(order, required - current)
    ensures 1 <= |r| <= 6
    ensures RulesIn(r, 1, 8)
    ensures SpecificTips(name, email, phone, score, current, required, order) <= r
  {
    var specific := SpecificTips(name, email, phone, score, current, required, order);
    var general := if |specific| < 5 then [Readability] else [];
    RulesInConcat(specific, general, 1, 7, 8);
    specific + general
  }

  lemma RawTipsUnfold(name: string, email: Option<string>, phone: Option<string>, score: real,
                      current: set<string>, required: set<string>, order: seq<string>)
    requires ListsSet(order, required - current)
    ensures var s := SpecificTips(name, email, phone, score, current, required, order);
            RawTips(name, email, phone, score, current, required, order) == s + (if |s| < 5 then [Readability] else [])
  {
  }

  lemma SpecificTipsUnfold(name: string, email: Option<string>, phone: Option<string>, score: real,
                           current: set<string>, required: set<string>, order: seq<string>)
    requires ListsSet(order, required - current)
    ensures SpecificTips(name, email, phone, score, current, required, order) ==
            FormatFlaws(name, email, phone) + SkillGapTip(required - current, order) + ScoreBandTip(score) +
            (if |current| < 5 then [ProjectDetail] else [])
  {
  }

  /** Rules 1-7, the tips specific to this candidate. */
  function SpecificTips(name: string, email: Option<string>, phone: Option<string>, score: real,
                        current: set<string>, required: set<string>, order: seq<string>): (r: seq<Tip>)
    requires ListsSet(order, required - current)
    ensures |r| <= 6
    ensures RulesIn(r, 1, 7)
    ensures FormatFlaws(name, email, phone) <= r
  {
    var flaws := FormatFlaws(name, email, phone);
    var gap := SkillGapTip(required - current, order);
    var band := ScoreBandTip(score);
    var detail := if |current| < 5 then [ProjectDetail] else [];
    RulesInConcat(flaws, gap, 1, 3, 4);
    RulesInConcat(flaws + gap, band, 1, 4, 6);
    RulesInConcat(flaws + gap + band, detail, 1, 6, 7);
    flaws + gap + band + detail
  }

  /** Apart from the readability tip, `raw_tips` holds what the specific rules give. */
  lemma InRawTips(name: string, email: Option<string>, phone: Option<string>, score: real,
                  current: set<string>, required: set<string>, order: seq<string>, t: Tip)
    requires ListsSet(order, required - current)
    requires t != Readability
    ensures t in RawTips(name, email, phone, score, current, required, order) <==>
            t in SpecificTips(name, email, phone, score, current, required, order)
  {
    var specific := SpecificTips(name, email, phone, score, current, required, order);
    var general: seq<Tip> := if |specific| < 5 then [Readability] else [];
    assert RawTips(name, email, phone, score, current, required, order) == specific + general;
  }

  /** A tip comes from the rule group its rule number belongs to. */
  lemma InSpecificTips(name: string, email: Option<string>, phone: Option<string>, score: real,
                       current: set<string>, required: set<string>, order: seq<string>, t: Tip)
    requires ListsSet(order, required - current)
    ensures t in SpecificTips(name, email, phone, score, current, required, order) <==>
            (Rule(t) <= 3 && t in FormatFlaws(name, email, phone)) ||
            (Rule(t) == 4 && t in SkillGapTip(required - current, order)) ||
            (5 <= Rule(t) <= 6 && t in ScoreBandTip(score)) ||
            (Rule(t) == 7 && |current| < 5)
  {
    var flaws := FormatFlaws(name, email, phone);
    var gap := SkillGapTip(required - current, order);
    var band := ScoreBandTip(score);
    var detail: seq<Tip> := if |current| < 5 then [ProjectDetail] else [];
    assert SpecificTips(name, email, phone, score, current, required, order) == flaws + gap + band + detail;
    if Rule(t) != 7 {
      assert RulesIn(detail, 7, 7);
      NotInRules(detail, 7, 7, t);
    }
    if Rule(t) > 3 {
      NotInRules(flaws, 1, 3, t);
    }
    if Rule(t) != 4 {
      NotInRules(gap, 4, 4, t);
    }
    if !(5 <= Rule(t) <= 6) {
      NotInRules(band, 5, 6, t);
    }
  }

  /** Each format flaw is reported exactly when it is present. */
  lemma RawTipsFlaws(name: string, email: Option<string>, phone: Option<string>, score: real,
                     current: set<string>, required: set<string>, order: seq<string>)
    requires ListsSet(order, required - current)
    ensures var r := RawTips(name, email, phone, score, current, required, order);
            (NameFailure in r <==> name == Names.UnknownCandidate) &&
            (MissingEmail in r <==> !Present(email)) &&
            (MissingPhone in r <==> !Present(phone))
  {
    InRawTips(name, email, phone, score, current, required, order, NameFailure);
    InRawTips(name, email, phone, score, current, required, order, MissingEmail);
    InRawTips(name, email, phone, score, current, required, order, MissingPhone);
    InSpecificTips(name, email, phone, score, current, required, order, NameFailure);
    InSpecificTips(name, email, phone, score, current, required, order, MissingEmail);
    InSpecificTips(name, email, phone, score, current, required, order, MissingPhone);
  }

  /** Without a name, the name-extraction tip is the first one. */
  lemma RawTipsNameFirst(email: Option<string>, phone: Option<string>, score: real,
                         current: set<string>, required: set<string>, order: seq<string>)
    requires ListsSet(order, required - current)
    ensures RawTips(Names.UnknownCandidate, email, phone, score, current, required, order)[0] == NameFailure
  {
    var flaws := FormatFlaws(Names.UnknownCandidate, email, phone);
    var specific := SpecificTips(Names.UnknownCandidate, email, phone, score, current, required, order);
    assert flaws[0] == specific[0];
  }

  /** The skill-gap tip appears exactly when a required skill is missing, and
      it names min(4, #missing) distinct missing skills. */
  lemma RawTipsSkillGap(name: string, email: Option<string>, phone: Option<string>, score: real,
                        current: set<string>, required: set<string>, order: seq<string>)
    requires ListsSet(order, required - current)
    ensures var r := RawTips(name, email, phone, score, current, required, order);
            ((exists i | 0 <= i < |r| :: r[i].SkillGap?) <==> required - current != {}) &&
            (forall i | 0 <= i < |r| && r[i].SkillGap? ::
               |r[i].skills| == Min(4, |required - current|) &&
               (forall k | 0 <= k < |r[i].skills| :: r[i].skills[k] in required - current) &&
               (forall k, l | 0 <= k < l < |r[i].skills| :: r[i].skills[k] != r[i].skills[l]))
  {
    var r := RawTips(name, email, phone, score, current, required, order);
    var gap := SkillGapTip(required - current, order);
    forall i | 0 <= i < |r| && r[i].SkillGap? ensures r[i] in gap {
      InRawTips(name, email, phone, score, current, required, order, r[i]);
      InSpecificTips(name, email, phone, score, current, required, order, r[i]);
    }
    if required - current != {} {
      InRawTips(name, email, phone, score, current, required, order, gap[0]);
      InSpecificTips(name, email, phone, score, current, required, order, gap[0]);
      var i :| 0 <= i < |r| && r[i] == gap[0];
      assert r[i].SkillGap?;
    }
  }

  /** The score band and the project-detail tip appear exactly under their
      conditions. */
  lemma RawTipsScoreAndDetail(name: string, email: Option<string>, phone: Option<string>, score: real,
                              current: set<string>, required: set<string>, order: seq<string>)
    requires ListsSet(order, required - current)
    ensures var r := RawTips(name, email, phone, score, current, required, order);
            (LowScore in r <==> score < 40.0) &&
            (Optimization in r <==> 40.0 <= score < 70.0) &&
            (ProjectDetail in r <==> |current| < 5)
  {
    InRawTips(name, email, phone, score, current, required, order, LowScore);
    InRawTips(name, email, phone, score, current, required, order, Optimization);
    InRawTips(name, email, phone, score, current, required, order, ProjectDetail);
    InSpecificTips(name, email, phone, score, current, required, order, LowScore);
    InSpecificTips(name, email, phone, score, current, required, order, Optimization);
    InSpecificTips(name, email, phone, score, current, required, order, ProjectDetail);
  }

  /** The readability tip is appended, last, exactly when fewer than five
      tips came before it. */
  lemma RawTipsReadability(name: string, email: Option<string>, phone: Option<string>, score: real,
                           current: set<string>, required: set<string>, order: seq<string>)
    requires ListsSet(order, required - current)
    ensures var r := RawTips(name, email, phone, score, current, required, order);
            (Readability in r ==> r[|r| - 1] == Readability && |r| <= 5) &&
            (Readability !in r ==> |r| >= 5)
  {
    var specific := SpecificTips(name, email, phone, score, current, required, order);
    var general: seq<Tip> := if |specific| < 5 then [Readability] else [];
    assert RawTips(name, email, phone, score, current, required, order) == specific + general;
    NotInRules(specific, 1, 7, Readability);
  }

  /** `f"**{n}.** {text}"` */
  function NumberedLine(n: nat, text: string): string { "**" + NatToString(n) + ".** " + text }

  /** The tips numbered 1..k in list order. */
  function NumberedLines(texts: seq<string>): (r: seq<string>)
    ensures |r| == |texts|
  {
    seq(|texts|, i requires 0 <= i < |texts| => NumberedLine(i + 1, texts[i]))
  }

  /** Every text starts with '*', the opening of its bold heading. */
  predicate StartWithStar(texts: seq<string>) {
    forall k | 0 <= k < |texts| :: texts[k] != [] && texts[k][0] == '*'
  }

  /** The texts of the tips, in order. */
  function TipTexts(tips: seq<Tip>): (r: seq<string>)
    ensures |r| == |tips|
    ensures StartWithStar(r)
  {
    var r := seq(|tips|, i requires 0 <= i < |tips| => TipText(tips[i]));
    assert StartWithStar(r) by {
      forall k | 0 <= k < |tips| ensures r[k] != [] && r[k][0] == '*' {
        TipTextStartsWithStar(tips[k]);
      }
    }
    r
  }

  /** What `generate_resume_tips` returns when `list(missing_skills)` is `order`. */
  function TipsOutput(name: string, email: Option<string>, phone: Option<string>, score: real,
                      current: set<string>, required: set<string>, order: seq<string>): string
    requires ListsSet(order, required - current)
  {
    if IsExcellent(name, email, phone, score, current, required) then ExcellentMessage
    else NumberedOutput(TipTexts(RawTips(name, email, phone, score, current, required, order)))
  }

  /** `"<br>".join(numbered_tips)` when every tip is kept: never the
      excellent-match message, since it starts with '*'. */
  function NumberedOutput(texts: seq<string>): (r: string)
    ensures texts != [] ==> r != [] && r[0] == '*' && r != ExcellentMessage
  {
    var lines := NumberedLines(texts);
    if texts == [] then Join(lines, "<br>")
    else
      NumberedLineShape(1, texts[0]);
      NumberedOutputIsNotExcellent(lines);
      Join(lines, "<br>")
  }

  lemma TipsOutputNumbered(name: string, email: Option<string>, phone: Option<string>, score: real,
                           current: set<string>, required: set<string>, order: seq<string>)
    requires ListsSet(order, required - current)
    requires !IsExcellent(name, email, phone, score, current, required)
    ensures TipsOutput(name, email, phone, score, current, required, order) ==
            NumberedOutput(TipTexts(RawTips(name, email, phone, score, current, required, order)))
  {
  }

  // ---------------------------------------------------------------------
  // The de-duplication test `tip not in [t.split('**', 1)[1] for t in numbered_tips]`
  // ---------------------------------------------------------------------

  /** `t.split(sep, 1)` */
  function SplitOnce(t: string, sep: string): (r: seq<string>)
    ensures !Contains(t, sep) ==> r == [t]
    ensures Contains(t, sep) ==>
              |r| == 2 && r[0] + sep + r[1] == t &&
              forall k | 0 <= k < |r[0]| :: !OccursAt(t, sep, k)
  {
    var k := Find(t, sep);
    if k < 0 then [t] else [t[..k], t[k + |sep|..]]
  }

  /** `[t.split('**', 1)[1] for t in numbered]`; it is defined only when every
      line holds "**" (otherwise Python raises IndexError). */
  function TailsAfterStars(numbered: seq<string>): seq<string>
    requires forall k | 0 <= k < |numbered| :: Contains(numbered[k], "**")
  {
    seq(|numbered|, k requires 0 <= k < |numbered| => SplitOnce(numbered[k], "**")[1])
  }

  /** The shape of every numbered line: "**" followed by a digit. */
  predicate IsNumberedLine(line: string) { |line| >= 3 && line[..2] == "**" && IsDigit(line[2]) }

  lemma NumberedLineShape(n: nat, text: string)
    ensures IsNumberedLine(NumberedLine(n, text))
  {
    var line := NumberedLine(n, text);
    assert line[2] == NatToString(n)[0];
  }

  /** After its first "**" a numbered line continues with a digit. */
  lemma TailOfNumberedLine(line: string)
    requires IsNumberedLine(line)
    ensures Contains(line, "**")
    ensures var tail := SplitOnce(line, "**")[1];
            tail != [] && IsDigit(tail[0])
  {
    assert OccursAt(line, "**", 0);
    assert Find(line, "**") == 0;
  }

  /** Every tip text starts with '*'. */
  lemma TipTextStartsWithStar(t: Tip)
    ensures TipText(t) != [] && TipText(t)[0] == '*'
  {
  }

  /** The de-duplication test never drops a tip: a tip starts with '*' and
      what follows the first "**" of a numbered line starts with a digit. */
  lemma TipNeverSeen(numbered: seq<string>, tip: string)
    requires forall k | 0 <= k < |numbered| :: IsNumberedLine(numbered[k])
    requires tip != [] && tip[0] == '*'
    ensures forall k | 0 <= k < |numbered| :: Contains(numbered[k], "**")
    ensures tip !in TailsAfterStars(numbered)
  {
    forall k | 0 <= k < |numbered| ensures Contains(numbered[k], "**") {
      TailOfNumberedLine(numbered[k]);
    }
    forall k | 0 <= k < |numbered| ensures TailsAfterStars(numbered)[k] != tip {
      TailOfNumberedLine(numbered[k]);
    }
  }

  // ---------------------------------------------------------------------
  // The engine
  // ---------------------------------------------------------------------

  /** `list(s)`: the elements of `s`, each once, in an order the model does
      not fix. */
  method ListOfSet(s: set<string>) returns (order: seq<string>)
    ensures ListsSet(order, s)
  {
    order := [];
    var rest := s;
    while rest != {}
      invariant rest <= s
      invariant forall x :: x in order <==> x in s && x !in rest
      invariant forall i, j | 0 <= i < j < |order| :: order[i] != order[j]
      invariant |order| + |rest| == |s|
      decreases |rest|
    {
      var x :| x in rest;
      order := order + [x];
      rest := rest - {x};
    }
  }

  /** `generate_resume_tips`: the excellent-match message when every check
      passes, and otherwise the numbered tips of the cascade, where `order` is
      the order `list(missing_skills)` happened to give. */
  method GenerateResumeTips(name: string, email: Option<string>, phone: Option<string>, matchScore: real,
                            currentSkills: set<string>, requiredSkills: set<string>)
    returns (tips: string, ghost order: seq<string>)
    ensures tips == ExcellentMessage <==> IsExcellent(name, email, phone, matchScore, currentSkills, requiredSkills)
    ensures ListsSet(order, requiredSkills - currentSkills)
    ensures tips == TipsOutput(name, email, phone, matchScore, currentSkills, requiredSkills, order)
  {
    var rawTips;
    rawTips, order := CollectRawTips(name, email, phone, matchScore, currentSkills, requiredSkills);
    var missingSkills := requiredSkills - currentSkills;

    // Final conclusion for a perfect match
    if matchScore >= 85.0 && missingSkills == {} && name != Names.UnknownCandidate && Present(email) && Present(phone) {
      return ExcellentMessage, order;
    }

    // Dynamic numbering
    tips := NumberTips(TipTexts(rawTips));
    TipsOutputNumbered(name, email, phone, matchScore, currentSkills, requiredSkills, order);
  }

  /** The rule cascade of `generate_resume_tips`, appending to `raw_tips`. */
  method CollectRawTips(name: string, email: Option<string>, phone: Option<string>, matchScore: real,
                        currentSkills: set<string>, requiredSkills: set<string>)
    returns (rawTips: seq<Tip>, ghost order: seq<string>)
    ensures 1 <= |rawTips| <= 6 && RulesIn(rawTips, 1, 8)
    ensures ListsSet(order, requiredSkills - currentSkills)
    ensures rawTips == RawTips(name, email, phone, matchScore, currentSkills, requiredSkills, order)
  {
    hide RawTips, SpecificTips, RulesIn;
    rawTips := [];

    // Critical format flaws
    rawTips := rawTips + (if name == Names.UnknownCandidate then [NameFailure] else []);
    rawTips := rawTips + (if !Present(email) then [MissingEmail] else []);
    rawTips := rawTips + (if !Present(phone) then [MissingPhone] else []);
    assert rawTips == FormatFlaws(name, email, phone);

    // Skill gap
    var missingSkills := requiredSkills - currentSkills;
    order := [];
    if missingSkills != {} {
      var missingList := ListOfSet(missingSkills);
      order := missingList;
      var topMissing := missingList[..Min(4, |missingList|)];
      rawTips := rawTips + [SkillGap(topMissing)];
    }
    assert rawTips == FormatFlaws(name, email, phone) + SkillGapTip(missingSkills, order);

    // Match score bands
    rawTips := rawTips + (if matchScore < 40.0 then [LowScore]
                          else if 40.0 <= matchScore < 70.0 then [Optimization]
                          else []);

    // General best practice
    rawTips := rawTips + (if |currentSkills| < 5 then [ProjectDetail] else []);
    SpecificTipsUnfold(name, email, phone, matchScore, currentSkills, requiredSkills, order);
    rawTips := rawTips + (if |rawTips| < 5 then [Readability] else []);
    RawTipsUnfold(name, email, phone, matchScore, currentSkills, requiredSkills, order);
  }

  /** The numbering loop of `generate_resume_tips`, with its de-duplication
      test, and the final join: every tip is kept and numbered by its position. */
  method NumberTips(texts: seq<string>) returns (tips: string)
    requires StartWithStar(texts)
    ensures tips == NumberedOutput(texts)
  {
    var numberedTips := [];
    var i := 0;
    while i < |texts|
      invariant 0 <= i <= |texts|
      invariant |numberedTips| == i
      invariant forall k | 0 <= k < i :: numberedTips[k] == NumberedLine(k + 1, texts[k])
      invariant forall k | 0 <= k < i :: IsNumberedLine(numberedTips[k])
    {
      var tip := texts[i];
      TipNeverSeen(numberedTips, tip);
      if tip !in TailsAfterStars(numberedTips) {
        NumberedLineShape(i + 1, tip);
        numberedTips := numberedTips + [NumberedLine(i + 1, tip)];
      }
      i := i + 1;
    }
    assert numberedTips == NumberedLines(texts);
    tips := Join(numberedTips, "<br>");
  }

  // ---------------------------------------------------------------------
  // Properties
  // ---------------------------------------------------------------------

  /** A join of at least one part starts with the first part. */
  lemma JoinStartsWithFirst(parts: seq<string>, sep: string)
    requires |parts| >= 1
    ensures parts[0] <= Join(parts, sep)
  {
  }

  /** A numbered list of at least one tip is never the excellent message: it
      starts with '*'. */
  lemma NumberedOutputIsNotExcellent(lines: seq<string>)
    requires |lines| >= 1 && IsNumberedLine(lines[0])
    ensures Join(lines, "<br>") != ExcellentMessage
    ensures Join(lines, "<br>")[0] == '*'
  {
    hide Join;
    JoinStartsWithFirst(lines, "<br>");
    assert ExcellentMessage[0] == '\U{2705}';
  }

  /** The excellent message comes back, alone, exactly when the score is at
      least 85, no required skill is missing, a name was found and both
      e-mail and phone are present. */
  lemma ExcellentIff(name: string, email: Option<string>, phone: Option<string>, score: real,
                     current: set<string>, required: set<string>, order: seq<string>)
    requires ListsSet(order, required - current)
    ensures TipsOutput(name, email, phone, score, current, required, order) == ExcellentMessage
            <==> IsExcellent(name, email, phone, score, current, required)
  {
    if !IsExcellent(name, email, phone, score, current, required) {
      TipsOutputNumbered(name, email, phone, score, current, required, order);
    }
  }

  /** Without a name the result is never the excellent message, and the
      first numbered tip is the name-extraction tip. */
  lemma UnknownNameComesFirst(email: Option<string>, phone: Option<string>, score: real,
                              current: set<string>, required: set<string>, order: seq<string>)
    requires ListsSet(order, required - current)
    ensures var out := TipsOutput(Names.UnknownCandidate, email, phone, score, current, required, order);
            out != ExcellentMessage &&
            NumberedLine(1, TipText(NameFailure)) <= out
  {
    var raw := RawTips(Names.UnknownCandidate, email, phone, score, current, required, order);
    RawTipsNameFirst(email, phone, score, current, required, order);
    TipsOutputNumbered(Names.UnknownCandidate, email, phone, score, current, required, order);
    var texts := TipTexts(raw);
    assert texts[0] == TipText(NameFailure);
    var lines := NumberedLines(texts);
    assert lines[0] == NumberedLine(1, TipText(NameFailure));
    assert NumberedOutput(texts) == Join(lines, "<br>");
    JoinStartsWithFirst(lines, "<br>");
  }
}
