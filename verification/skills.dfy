/** Skill sets: the skills found in a resume (parsing.py, `extract_skills`)
    and the skills a job description requires (app.py, lines 165-166). Both
    intersect a set of word tokens with the fixed skill vocabulary, but with
    different tokenizers. */
module Skills {
  import opened Wrappers
  import opened Text
  import opened Nlp

  /** `SKILLS_DB`, the skill vocabulary. */
  const SkillsDb: seq<string> := [
    "python", "java", "c++", "sql", "machine learning", "data analysis",
    "communication", "project management", "streamlit", "react", "html", "css",
    "javascript", "git", "github", "leetcode", "bootstrap", "nlp", "django", "next.js",
    "aws", "docker", "kubernetes", "tensorflow", "pytorch", "sass", "typescript"
  ]

  /** `extract_skills(text, skills_db)`: the texts of the tokens of
      `nlp(text.lower())` that are entries of `skills_db`; nothing at all
      when the language model is missing. */
  function ExtractSkills(text: string, skillsDb: seq<string>, nlp: Option<Model>): (r: set<string>)
    ensures nlp.None? ==> r == {}
    ensures nlp.Some? ==> forall s | s in r :: s in skillsDb && s in nlp.value.tokens(Lower(text))
    ensures nlp.Some? ==> forall t | t in nlp.value.tokens(Lower(text)) && t in skillsDb :: t in r
  {
    if nlp.None? then {}
    else
      var docTokens := set t | t in nlp.value.tokens(Lower(text));
      docTokens * (set s | s in skillsDb)
  }

  // ---------------------------------------------------------------------
  // re.findall(r'\b\w+\b', s)
  // ---------------------------------------------------------------------

  /** `s[i..j]` is a maximal run of word characters. */
  predicate IsMaximalRun(s: string, i: int, j: int) {
    0 <= i < j <= |s| &&
    (forall k | i <= k < j :: IsWordChar(s[k])) &&
    (i == 0 || !IsWordChar(s[i - 1])) &&
    (j == |s| || !IsWordChar(s[j]))
  }

  /** A non-empty string of word characters: what `\w+` matches. */
  predicate IsWord(s: string) { s != [] && forall k | 0 <= k < |s| :: IsWordChar(s[k]) }

  /** `re.findall(r'\b\w+\b', s)`: the maximal runs of word characters, in
      order. */
  function WordTokens(s: string): (r: seq<string>)
    ensures forall k | 0 <= k < |r| :: IsWord(r[k])
    decreases |s|
  {
    if s == [] then []
    else if !IsWordChar(s[0]) then WordTokens(s[1..])
    else
      var n := Span(s, 0, IsWordChar);
      [s[..n]] + WordTokens(s[n..])
  }

  /** Every maximal run of word characters is one of the tokens. */
  lemma {:induction false} MaximalRunIsToken(s: string, i: nat, j: nat)
    requires IsMaximalRun(s, i, j)
    ensures s[i..j] in WordTokens(s)
    decreases |s|
  {
    if !IsWordChar(s[0]) {
      assert i > 0;
      var t := s[1..];
      assert t[i - 1..j - 1] == s[i..j];
      assert IsMaximalRun(t, i - 1, j - 1);
      MaximalRunIsToken(t, i - 1, j - 1);
      assert WordTokens(s) == WordTokens(t);
    } else {
      var n := Span(s, 0, IsWordChar);
      assert WordTokens(s) == [s[..n]] + WordTokens(s[n..]);
      if i == 0 {
        assert j == n;
        assert s[i..j] == s[..n];
      } else {
        assert i > n;
        var t := s[n..];
        assert forall k | 0 <= k < j - i :: t[i - n..j - n][k] == s[i..j][k];
        assert t[i - n..j - n] == s[i..j];
        assert IsMaximalRun(t, i - n, j - n);
        MaximalRunIsToken(t, i - n, j - n);
      }
    }
  }

  /** A maximal run of `s[n..]` is one of `s`, unless it starts right after
      a word character at `n - 1`. */
  lemma RunOfSuffix(s: string, n: nat, i: nat, j: nat)
    requires n <= |s| && IsMaximalRun(s[n..], i, j)
    requires i > 0 || n == 0 || !IsWordChar(s[n - 1])
    ensures IsMaximalRun(s, i + n, j + n) && s[n..][i..j] == s[i + n..j + n]
  {
    var t := s[n..];
    assert forall k | i + n <= k < j + n :: s[k] == t[k - n];
  }

  /** Every token is a maximal run of word characters. */
  lemma {:induction false} TokenIsMaximalRun(s: string, k: nat)
    requires k < |WordTokens(s)|
    ensures exists i, j :: IsMaximalRun(s, i, j) && WordTokens(s)[k] == s[i..j]
    decreases |s|
  {
    if !IsWordChar(s[0]) {
      var t := s[1..];
      assert WordTokens(s) == WordTokens(t);
      TokenIsMaximalRun(t, k);
      var i, j :| IsMaximalRun(t, i, j) && WordTokens(t)[k] == t[i..j];
      RunOfSuffix(s, 1, i, j);
    } else {
      var n := Span(s, 0, IsWordChar);
      var t := s[n..];
      assert WordTokens(s) == [s[..n]] + WordTokens(t);
      if k == 0 {
        assert IsMaximalRun(s, 0, n);
        assert s[0..n] == s[..n];
      } else {
        TokenIsMaximalRun(t, k - 1);
        var i, j :| IsMaximalRun(t, i, j) && WordTokens(t)[k - 1] == t[i..j];
        RunOfSuffix(s, n, i, j);
      }
    }
  }

  /** `{s.lower() for s in SKILLS_DB}` */
  function LowerAll(db: seq<string>): set<string> { set s | s in db :: Lower(s) }

  /** Required skills of a job description: its word tokens, lower-cased,
      that are entries of the lower-cased vocabulary. */
  function RequiredSkills(jd: string, skillsDb: seq<string>): (r: set<string>)
    ensures r <= LowerAll(skillsDb)
    ensures forall s | s in r :: s in WordTokens(Lower(jd))
    ensures forall s | s in r :: IsWord(s)
    ensures forall t | t in WordTokens(Lower(jd)) && t in LowerAll(skillsDb) :: t in r
  {
    (set t | t in WordTokens(Lower(jd))) * LowerAll(skillsDb)
  }

  /** A string holding a character outside `\w` is never a required skill. */
  lemma NonWordNeverRequired(jd: string, skillsDb: seq<string>, s: string, k: nat)
    requires k < |s| && !IsWordChar(s[k])
    ensures s !in RequiredSkills(jd, skillsDb)
  {
  }

  /** The entries of `SKILLS_DB` with a character outside `\w` ("c++",
      "next.js" and the three two-word skills) are never required, whatever
      the job description says (and whatever the rest of the vocabulary). */
  lemma MultiWordSkillsNeverRequired(jd: string, skillsDb: seq<string>)
    ensures "c++" !in RequiredSkills(jd, skillsDb)
    ensures "next.js" !in RequiredSkills(jd, skillsDb)
    ensures "machine learning" !in RequiredSkills(jd, skillsDb)
    ensures "data analysis" !in RequiredSkills(jd, skillsDb)
    ensures "project management" !in RequiredSkills(jd, skillsDb)
  {
    hide RequiredSkills, WordTokens, LowerAll, Lower, IsWord;
    NonWordNeverRequired(jd, skillsDb, "c++", 1);
    NonWordNeverRequired(jd, skillsDb, "next.js", 4);
    NonWordNeverRequired(jd, skillsDb, "machine learning", 7);
    NonWordNeverRequired(jd, skillsDb, "data analysis", 4);
    NonWordNeverRequired(jd, skillsDb, "project management", 7);
  }

  /** A job description that shares no token with the vocabulary requires no skill. */
  lemma NoOverlapNoRequiredSkills(jd: string, skillsDb: seq<string>)
    requires forall t | t in WordTokens(Lower(jd)) :: t !in LowerAll(skillsDb)
    ensures RequiredSkills(jd, skillsDb) == {}
  {
  }
}
