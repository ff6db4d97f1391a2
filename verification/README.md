# Resume parser and ranker: a Dafny model

The system is a Streamlit page. It reads resumes uploaded as PDF or DOCX
files and scores each against a pasted job description. For every candidate
it extracts a name, an e-mail address, a phone number and a set of skills,
then computes a bag-of-words match score. From these it produces improvement
tips and one row of a ranking table. This project models the logic behind
those rows:

- `contact.dfy`: `extract_contact_info`.
  - The e-mail pattern `[a-zA-Z0-9._%+-]+@[a-zA-Z0-9.-]+\.[a-zA-Z]{2,}` is
    scanned directly. The scan is proved equal to the leftmost match that a
    separate whole-match predicate describes.
  - The phone search is modelled in two tiers. The first tier looks at the
    50 characters after each keyword of a fixed list, in list order. The
    second tier is the whole 1000-character header block. A candidate is
    accepted only when it has 10 to 15 digits.
- `names.dfy`: `extract_name`.
  - First, a line heuristic over the first ten lines: upper-case or
    title-case, at least two words, no digit, no blocklisted heading.
  - Then the language model's first acceptable PERSON entity.
  - Otherwise the sentinel "Unknown Candidate".
- `skills.dfy`: the two skill sets.
  - `extract_skills` intersects the language model's tokens with the
    vocabulary.
  - The required skills of a job description are its `\w+` tokens,
    lower-cased, intersected with the lower-cased vocabulary `SKILLS_DB`.
- `tips.dfy`: `generate_resume_tips`.
  - It is a rule cascade that appends tips: format flaws, the skill gap
    naming up to four missing skills, score bands, project detail and
    readability.
  - It short-circuits to an "Excellent Match" message.
  - Otherwise it numbers the tips, applies a de-duplication test that never
    fires, and joins them with `<br>`.
- `pipeline.dfy`: the page's own bookkeeping.
  - `Session` is the upload list kept in the session state. It never holds
    two files with the same name.
  - `ProcessFiles` is the loop that turns every listed file into a row. It
    is memoised by file name and skips the files whose processing raises.
- `text.dfy`: ASCII models of the Python string operations these use:
  `upper`, `lower`, `title`, `isupper`, `istitle`, `strip`, `split`, `find`,
  slicing and `str(n)`.
- `wrappers.dfy`: `Option` and `Result`.
- `nlp.dfy`: the interface of the spaCy language model. It offers entities
  and tokens of a text.

Some parts are not modelled and are passed in instead. The language model,
the phone regular expression, text extraction from file bytes and the cosine
score are parameters (`Services`, `PhoneFinder`, `Model`). Text extraction
and scoring return a `Result`, and their `Err` stands for the exception that
makes the page skip the file. The language model and the phone finder are
total functions. What the regular expression and spaCy guarantee about their
results is stated as predicates on them (`FinderSound`, `EntitiesFromText`).
Lemmas that need those guarantees require them.

The skill-gap tip names `list(missing)[:4]`. That list takes the set's
iteration order, which Python leaves unspecified. `GenerateResumeTips`
returns that order as the ghost result `order`, and every property is proved
for any order.

## Model

| member | source | states |
|---|---|---|
| Text.TitleFrom | parsing.py:105 | `title()` keeps the length and only changes the case of each character |
| Text.TitleFromOrdered | parsing.py:105 | the output of `title()` satisfies the case-ordering condition of `istitle()` |
| Text.TitleIsTitle | parsing.py:105 | a string with a letter is `istitle()` once title-cased |
| Text.UpperOfTitle | parsing.py:102-105 | upper-casing a title-cased string gives the upper-cased original, so the blocklist test is unchanged |
| Text.Strip | parsing.py:94 | `strip()` is the middle piece of the string: only white space is cut at both ends, and the result neither starts nor ends with white space |
| Text.Digits | parsing.py:59 | `re.sub(r'[^\d]', '', s)` is made of digits only, is never longer than `s`, and leaves an all-digit string unchanged |
| Text.DigitsCount | parsing.py:59-61 | `re.sub(r'[^\d]', '', s)` holds each digit exactly as often as `s` does and nothing else, so the 10-15 test counts the digits of the candidate |
| Text.FindFrom | parsing.py:52 | `find` returns the first occurrence at or after the start, or -1 when there is none |
| Text.Split | parsing.py:92 | `split('\n')` yields at least one piece, no piece holds the separator, and joining the pieces back gives the text |
| Text.NatToString | app.py:114 | `str(n)` is a non-empty string of digits, without a leading zero, that parses back to `n` |
| Contact.LastDot | parsing.py:38 | the dot the greedy domain part backs off to is the last one followed by two or more letters |
| Contact.EmailMatchSound | parsing.py:38-39 | what the scan at a position returns matches the e-mail pattern |
| Contact.EmailMatchComplete | parsing.py:38-39 | every match of the pattern at a position is found by the scan, which returns the longest one |
| Contact.EmailWitness | parsing.py:38-39 | a match pins down the '@', the domain run and a possible top-level-domain dot that the scan sees |
| Contact.EmailSpanFrom | parsing.py:39 | the leftmost match at or after a position, longest at that start; no match starts before it |
| Contact.SearchEmail | parsing.py:38-40 | the e-mail is `None` exactly when the pattern matches nowhere, and otherwise the text of the leftmost match, taken as long as the pattern allows at that start |
| Contact.FirstAcceptedFrom | parsing.py:57-61 | the first candidate with 10 to 15 digits, and none before it is accepted |
| Contact.FirstAccepted | parsing.py:57-63 | `None` exactly when no candidate has 10 to 15 digits; otherwise the joined and stripped candidate of some match, which is accepted, with no accepted candidate before it |
| Contact.KeywordWindow | parsing.py:51-53 | no window when the keyword is absent; otherwise the at most 50 characters right after its first occurrence, cut at the end of the area |
| Contact.DecidingKeyword | parsing.py:50-63 | the first keyword, in list order, whose window yields an accepted candidate; no earlier one does |
| Contact.PhoneOf | parsing.py:43-76 | a phone number that is returned has 10 to 15 digits |
| Contact.FirstValidPhone | parsing.py:57-63 | the loop over the matches returns the first accepted candidate |
| Contact.ExtractContactInfo | parsing.py:33-76 | the method returns `SearchEmail` and `PhoneOf` of the text |
| Contact.PhoneOnlyFromHeader | parsing.py:47 | text after the first 1000 characters never changes the phone number |
| Contact.KeywordPrecedence | parsing.py:50-63 | the first keyword whose window yields a candidate decides the phone number |
| Contact.FallbackOnlyWithoutKeyword | parsing.py:65-74 | the whole header block is searched only when no keyword window yields a candidate |
| Contact.CandidateOccurs | parsing.py:58 | stripping a match that occurs in the text leaves a piece that still occurs there |
| Contact.OccursInSlice | parsing.py:53-55 | a piece of the keyword window is a piece of the header block |
| Contact.FirstAcceptedOccurs | parsing.py:55-61 | with a finder whose matches occur in the text searched, the accepted candidate occurs in that text |
| Contact.PhoneInHeader | parsing.py:45-76 | with such a finder, a reported phone number is a piece of `text[:1000]`, whichever tier found it |
| Names.FirstLines | parsing.py:92-93 | at most the first ten lines, in order, and all lines when there are fewer than ten |
| Names.FirstNameLineFrom | parsing.py:93-105 | the first line that qualifies once stripped; no earlier line does |
| Names.FirstPersonFrom | parsing.py:112-124 | the first acceptable PERSON entity; no earlier entity is acceptable |
| Names.ExtractName | parsing.py:80-126 | the two loops and their early returns compute `NameOf`: line tier, then entity tier, then the sentinel |
| Names.TitleKeepsChecks | parsing.py:100-105 | title-casing keeps the length, the word count, the presence of digits and the blocklist test |
| Names.TitledNameLine | parsing.py:98-105 | a qualifying line still qualifies after `title()` and is then in title case |
| Names.LineNameQualifies | parsing.py:91-105 | a name from the line tier is one of the first ten lines, stripped and title-cased, and passes every line check |
| Names.PersonNameQualifies | parsing.py:107-124 | a name from the entity tier is a title-cased PERSON entity with two or more words, no digit and no blocklisted heading |
| Names.UnknownWhenNothingQualifies | parsing.py:107-126 | "Unknown Candidate" comes back when no line qualifies and there is no model or no acceptable entity |
| Names.PersonNameFromHeader | parsing.py:108-124 | with a model whose entities are pieces of its input, a name from the entity tier is the title-cased form of a piece of `text[:1000]` |
| Skills.ExtractSkills | parsing.py:129-138 | nothing without a model; otherwise exactly the tokens of the lower-cased text that are vocabulary entries |
| Skills.WordTokens | app.py:165 | every token of `re.findall(r'\b\w+\b', s)` is a non-empty run of word characters |
| Skills.TokenIsMaximalRun | app.py:165 | every token is a maximal run of word characters of the text |
| Skills.MaximalRunIsToken | app.py:165 | every maximal run of word characters is a token |
| Skills.RequiredSkills | app.py:165-166 | a string is required exactly when it is a token of the lower-cased job description and a lower-cased vocabulary entry; every required skill is made of word characters |
| Skills.NonWordNeverRequired | app.py:165-166 | a string holding a non-word character is never required |
| Skills.MultiWordSkillsNeverRequired | app.py:165-166 | "c++", "next.js", "machine learning", "data analysis" and "project management" are never required |
| Skills.NoOverlapNoRequiredSkills | app.py:165-169 | a job description sharing no token with the vocabulary requires nothing |
| Tips.FormatFlaws | app.py:66-75 | each of the three format tips is present exactly when its flaw is, in rule order, with the name tip first |
| Tips.SkillGapTip | app.py:78-83 | one skill-gap tip exactly when a skill is missing; it names min(4, #missing) distinct missing skills |
| Tips.ScoreBandTip | app.py:85-91 | the low-score tip exactly below 40, the optimisation tip exactly in [40, 70), neither at 70 or above |
| Tips.SpecificTips | app.py:64-98 | at most six tips of rules 1-7 in rule order, starting with the format flaws |
| Tips.RawTips | app.py:64-103 | between one and six tips, in rule order, the specific tips first |
| Tips.InRawTips | app.py:100-103 | apart from the readability tip, `raw_tips` holds exactly the specific tips |
| Tips.InSpecificTips | app.py:66-98 | a tip is present exactly when the rule group of its number puts it there |
| Tips.RawTipsFlaws | app.py:66-75 | the name, e-mail and phone tips appear exactly when the name is the sentinel, the e-mail is absent or empty, and the phone is absent or empty |
| Tips.RawTipsNameFirst | app.py:67-69 | without a name, the name-extraction tip is the first tip |
| Tips.RawTipsSkillGap | app.py:78-83 | a skill-gap tip is present exactly when a required skill is missing, and names min(4, #missing) distinct missing skills |
| Tips.RawTipsScoreAndDetail | app.py:85-98 | the score tips and the project-detail tip appear exactly under their conditions |
| Tips.RawTipsReadability | app.py:100-103 | the readability tip is present exactly when fewer than five tips precede it, and it is then the last |
| Tips.NumberedLines | app.py:110-114 | one numbered line per tip |
| Tips.TipTexts | app.py:68-103 | one text per tip, each starting with the '*' of its bold heading |
| Tips.NumberedOutput | app.py:110-118 | a joined numbered list of at least one tip starts with '*' and is never the excellent message |
| Tips.TipsOutputNumbered | app.py:105-118 | a candidate who is not an excellent match gets the numbered, joined tips |
| Tips.SplitOnce | app.py:113 | `split('**', 1)` gives the text unchanged when the separator does not occur, and otherwise the text before its first occurrence and the text after it |
| Tips.NumberedLineShape | app.py:114 | every numbered line starts with "**" and a digit |
| Tips.TailOfNumberedLine | app.py:113-114 | what follows the first "**" of a numbered line starts with a digit |
| Tips.TipTextStartsWithStar | app.py:68-103 | every tip text starts with '*' |
| Tips.TipNeverSeen | app.py:111-114 | the uniqueness test never drops a tip: no tip equals the tail of a numbered line |
| Tips.ListOfSet | app.py:81 | `list(s)` lists every element of the set exactly once |
| Tips.CollectRawTips | app.py:64-103 | the appends of the cascade build `RawTips` for the order `list(missing)` gave: one to six tips in rule order |
| Tips.NumberTips | app.py:109-118 | the numbering loop keeps every tip, numbers it by position and joins with `<br>` |
| Tips.GenerateResumeTips | app.py:59-118 | the excellent message exactly when all five conditions hold, and otherwise the numbered tips of the cascade |
| Tips.NumberedOutputIsNotExcellent | app.py:105-118 | a numbered list starts with '*' and so is never the excellent message |
| Tips.ExcellentIff | app.py:106-107 | the output is the excellent message if and only if the score is at least 85, nothing is missing, a name was found, and e-mail and phone are present |
| Tips.UnknownNameComesFirst | app.py:67-114 | without a name, the output is never the excellent message and starts with the numbered name-extraction tip |
| Pipeline.NewUploadsSound | app.py:137-142 | files that join have distinct names, none already listed, and every uploaded name ends up listed |
| Pipeline.NewUploadsFirstOfItsName | app.py:139-142 | each file that joins is the first file of the upload with its name |
| Pipeline.NothingNewWhenAllPresent | app.py:139-142 | files whose names are all listed add nothing |
| Pipeline.UploadAgainAddsNothing | app.py:137-142 | handing the same upload over again on a re-run adds nothing |
| Pipeline.Session.constructor | app.py:132-133 | the upload list starts empty |
| Pipeline.Session.AddUploads | app.py:137-142 | the list grows by exactly the new files of the upload and keeps its names distinct |
| Pipeline.Session.AddTestResume | app.py:148-154 | the test resume is appended exactly when its name is not listed |
| Pipeline.ProcessResume | app.py:178-215 | `Err` exactly when extraction or scoring raises; otherwise the row of the file's name, contact, skills, score and tips |
| Pipeline.ResultIndices | app.py:173-212 | the indices of the files that get a row lie below the bound |
| Pipeline.MemoNamesMeaning | app.py:173-212 | a name is memoised after n files exactly when one of them has it and processes without error |
| Pipeline.ResultIndicesMeaning | app.py:173-212 | rows come in list order, one for each file that has a result |
| Pipeline.FirstSuccessFrom | app.py:173-212 | the first file of a name, from a position on, whose processing succeeds |
| Pipeline.FirstSuccessAt | app.py:173-212 | a file whose name is not yet memoised and which succeeds is the first success of its name |
| Pipeline.ProcessFiles | app.py:158-215 | no rows without a job description; otherwise one row per file that has a result, in list order, each built from the first file of its name that processes, so files of the same name share their row |
| Pipeline.DistinctNamesOwnResult | app.py:173-215 | on a list with distinct names a file has a row exactly when its own processing succeeds, and that row is built from the file itself |

## Left out

- Text extraction from PDF and DOCX bytes (utils.py) is a parameter of `Services` that returns text or `Err`. It calls foreign libraries.
- The match score (app.py:188-191) is a parameter that returns a real or `Err`. CountVectorizer and the floating-point cosine are foreign code. The score is only compared with constants.
- The language model (parsing.py:8-26) is an `Option<Model>` of entity and token functions. spaCy's internals are foreign code.
- The phone regular expression (parsing.py:43, 55, 67) is a `PhoneFinder` that returns the two capture groups of each match. Joining and stripping them is modelled.
- The fixture `create_in_memory_resume` and `MockUploadedFile` (app.py:29-54) use reportlab to draw a PDF. `AddTestResume` takes the resulting file as an argument.
- The Streamlit, pandas and altair display (app.py:123-135, 217-267) is left out. This includes the sort by score, which runs on floating point. The `st.info`, `st.warning` and `st.error` messages are left out too.
- Exceptions raised by the language model or the regular expressions are left out. `Model` and `PhoneFinder` are total, so a spaCy error, for example on text longer than its `max_length`, which makes the page skip the file at app.py:214, is not modelled.
- Skills.WordTokens: the tokens are not stated to come in text order. The page turns them into a set at app.py:165, so their order is never read.
- Non-ASCII characters are left out. Character classes, case mapping and white space are ASCII only.
- Skills.ExtractSkills returns a set, not the list `list(set(...))`. The list's order is Python's hash order, which is unspecified.
- Pipeline.ProcessFiles keeps the found skills as a set in each row. The row's "Skills Found" string (`", ".join(raw_skills)`) depends on that unspecified order.
- Pipeline.ProcessFiles takes the vocabulary as an argument. The page passes `SKILLS_DB` (`Skills.SkillsDb`).
- Names.ExtractName: a resume line that title-cases to "Unknown Candidate" yields the sentinel itself. So "the name is the sentinel" does not imply "no name was found".
- Tips.GenerateResumeTips does not fix which four missing skills are named. Python's set order decides, so every property is proved for each possible order.
