/** The ranking page (app.py): the upload list kept across re-runs of the
    page, which never holds two files with the same name, and the loop that
    turns every listed file into one candidate row, memoised by file name,
    skipping the files whose processing raises. */
module Pipeline {
  import opened Wrappers
  import opened Nlp
  import opened Contact
  import opened Names
  import opened Skills
  import opened Tips

  /** An uploaded resume: its bytes, its file name and its MIME type. */
  datatype UploadedFile = UploadedFile(data: seq<bv8>, name: string, mimeType: string)

  /** One row of the ranking table. */
  datatype CandidateResult = CandidateResult(
    name: string,
    email: Option<string>,
    phone: Option<string>,
    skills: set<string>,
    score: real,
    tips: string)

  /** What the page calls but this model does not look into: the language
      model, the phone regex, text extraction from PDF/DOCX bytes and the
      bag-of-words cosine similarity (in percent). `Err` stands for an
      exception, such as CountVectorizer's on an empty vocabulary. */
  datatype Services = Services(
    nlp: Option<Model>,
    findPhones: PhoneFinder,
    extractText: UploadedFile -> Result<string>,
    matchScore: (string, string) -> Result<real>)

  // ---------------------------------------------------------------------
  // The upload list
  // ---------------------------------------------------------------------

  function NamesOf(files: seq<UploadedFile>): (r: seq<string>)
    ensures |r| == |files|
    ensures forall k | 0 <= k < |files| :: r[k] == files[k].name
  {
    seq(|files|, k requires 0 <= k < |files| => files[k].name)
  }

  predicate DistinctNames(files: seq<UploadedFile>) {
    forall i, j | 0 <= i < j < |files| :: files[i].name != files[j].name
  }

  /** `files[i]` is the first file of `files` with its name. */
  predicate FirstOfItsName(files: seq<UploadedFile>, i: int) {
    0 <= i < |files| && forall j | 0 <= j < i :: files[j].name != files[i].name
  }

  /** The files of one upload that join a list whose names are `present`:
      those whose name is neither present nor taken by an earlier file of
      the same upload. */
  function NewUploads(present: seq<string>, files: seq<UploadedFile>): seq<UploadedFile>
    decreases |files|
  {
    if files == [] then []
    else if files[0].name in present then NewUploads(present, files[1..])
    else [files[0]] + NewUploads(present + [files[0].name], files[1..])
  }

  /** The files that join have distinct names, none of them present, and
      every file of the upload ends up listed. */
  lemma {:induction false} NewUploadsSound(present: seq<string>, files: seq<UploadedFile>)
    ensures var r := NewUploads(present, files);
      DistinctNames(r) &&
      (forall k | 0 <= k < |r| :: r[k].name !in present) &&
      (forall i | 0 <= i < |files| :: files[i].name in present || files[i].name in NamesOf(r))
    decreases |files|
  {
    if files != [] {
      if files[0].name in present {
        NewUploadsSound(present, files[1..]);
      } else {
        var rest := NewUploads(present + [files[0].name], files[1..]);
        NewUploadsSound(present + [files[0].name], files[1..]);
        assert NamesOf([files[0]] + rest) == [files[0].name] + NamesOf(rest);
      }
    }
  }

  /** One step of NewUploads: the first file joins unless its name is present. */
  lemma NewUploadsStep(present: seq<string>, files: seq<UploadedFile>)
    ensures NewUploads(present, files) ==
      if files == [] then []
      else if files[0].name in present then NewUploads(present, files[1..])
      else [files[0]] + NewUploads(present + [files[0].name], files[1..])
  {
  }

  /** Every file that joins is the first file of the upload with its name:
      `files[i]` for the returned `i`. */
  lemma {:induction false} NewUploadsFirstOfItsName(present: seq<string>, files: seq<UploadedFile>, k: nat)
    returns (i: nat)
    requires k < |NewUploads(present, files)|
    ensures i < |files| && files[i] == NewUploads(present, files)[k] && FirstOfItsName(files, i)
    decreases |files|
  {
    var r := NewUploads(present, files);
    if files[0].name in present {
      assert r == NewUploads(present, files[1..]);
      var i' := NewUploadsFirstOfItsName(present, files[1..], k);
      i := i' + 1;
      NewUploadsSound(present, files);
      assert r[k].name !in present;
    } else if k == 0 {
      i := 0;
    } else {
      var present' := present + [files[0].name];
      var rest := NewUploads(present', files[1..]);
      assert r == [files[0]] + rest;
      var i' := NewUploadsFirstOfItsName(present', files[1..], k - 1);
      i := i' + 1;
      NewUploadsSound(present', files[1..]);
      assert r[k].name !in present';
    }
  }

  /** A file whose name is already present never joins. */
  lemma {:induction false} NothingNewWhenAllPresent(present: seq<string>, files: seq<UploadedFile>)
    requires forall i | 0 <= i < |files| :: files[i].name in present
    ensures NewUploads(present, files) == []
    decreases |files|
  {
    if files != [] {
      NothingNewWhenAllPresent(present, files[1..]);
    }
  }

  /** The page re-runs on every interaction and hands the same upload over
      again: the second time nothing is added. */
  lemma UploadAgainAddsNothing(present: seq<string>, files: seq<UploadedFile>)
    ensures NewUploads(present + NamesOf(NewUploads(present, files)), files) == []
  {
    var added := NewUploads(present, files);
    NewUploadsSound(present, files);
    NothingNewWhenAllPresent(present + NamesOf(added), files);
  }

  /** `st.session_state`, holding the upload list across re-runs. */
  class Session {
    var uploadedFiles: seq<UploadedFile>

    ghost predicate Valid()
      reads this
    {
      DistinctNames(uploadedFiles)
    }

    /** The first run: `uploaded_files_list = []`. */
    constructor ()
      ensures Valid()
      ensures uploadedFiles == []
    {
      uploadedFiles := [];
    }

    /** Lines 137-142: append each uploaded file whose name is not yet listed. */
    method AddUploads(files: seq<UploadedFile>)
      requires Valid()
      modifies this
      ensures Valid()
      ensures uploadedFiles == old(uploadedFiles) + NewUploads(NamesOf(old(uploadedFiles)), files)
    {
      if files == [] {
        return;
      }
      hide NewUploads;
      var currentNames := NamesOf(uploadedFiles);
      var i := 0;
      while i < |files|
        invariant 0 <= i <= |files|
        invariant currentNames == NamesOf(uploadedFiles)
        invariant DistinctNames(uploadedFiles)
        invariant uploadedFiles + NewUploads(currentNames, files[i..])
               == old(uploadedFiles) + NewUploads(NamesOf(old(uploadedFiles)), files)
      {
        var file := files[i];
        assert files[i..][0] == file && files[i..][1..] == files[i + 1..];
        NewUploadsStep(currentNames, files[i..]);
        if file.name !in currentNames {
          uploadedFiles := uploadedFiles + [file];
          currentNames := currentNames + [file.name];
        }
        i := i + 1;
      }
      assert files[i..] == [];
      NewUploadsStep(currentNames, []);
    }

    /** Lines 150-154: the test resume is appended unless its name is listed. */
    method AddTestResume(testResume: UploadedFile) returns (added: bool)
      requires Valid()
      modifies this
      ensures Valid()
      ensures added <==> testResume.name !in NamesOf(old(uploadedFiles))
      ensures uploadedFiles == if added then old(uploadedFiles) + [testResume] else old(uploadedFiles)
    {
      added := testResume.name !in NamesOf(uploadedFiles);
      if added {
        uploadedFiles := uploadedFiles + [testResume];
      }
    }
  }

  // ---------------------------------------------------------------------
  // Processing the listed files
  // ---------------------------------------------------------------------

  /** The `try` block runs to its end for `file`: text extraction and scoring
      do not raise. */
  predicate Succeeds(file: UploadedFile, jd: string, env: Services) {
    env.extractText(file).Ok? && env.matchScore(env.extractText(file).value, jd).Ok?
  }

  /** The required skills of the job description that the resume text lacks. */
  function MissingSkills(text: string, jd: string, skillsDb: seq<string>, env: Services): set<string> {
    RequiredSkills(jd, skillsDb) - ExtractSkills(text, skillsDb, env.nlp)
  }

  /** The row built from a resume text and its score, the missing skills
      being listed in the order `order`. */
  function RowFor(text: string, score: real, jd: string, skillsDb: seq<string>, env: Services, order: seq<string>): CandidateResult
    requires ListsSet(order, MissingSkills(text, jd, skillsDb, env))
  {
    hide NameOf, SearchEmail, PhoneOf, TipsOutput;
    var name := NameOf(text, env.nlp);
    var email := SearchEmail(text);
    var phone := PhoneOf(text, env.findPhones);
    var skills := ExtractSkills(text, skillsDb, env.nlp);
    CandidateResult(name, email, phone, skills, score,
                    TipsOutput(name, email, phone, score, skills, RequiredSkills(jd, skillsDb), order))
  }

  /** `r` is a row the `try` block can build for `file`: the one for the
      file's text and score, with the missing skills in some order. */
  ghost predicate Describes(r: CandidateResult, file: UploadedFile, jd: string, skillsDb: seq<string>, env: Services) {
    Succeeds(file, jd, env) &&
    var text := env.extractText(file).value;
    exists order :: ListsSet(order, MissingSkills(text, jd, skillsDb, env)) &&
      r == RowFor(text, env.matchScore(text, jd).value, jd, skillsDb, env, order)
  }

  /** Lines 178-212, the `try` block for one file: `Err` exactly when text
      extraction or scoring raises, and otherwise the file's row. */
  method ProcessResume(file: UploadedFile, jd: string, skillsDb: seq<string>, requiredSkills: set<string>, env: Services)
    returns (result: Result<CandidateResult>)
    requires requiredSkills == RequiredSkills(jd, skillsDb)
    ensures result.Ok? <==> Succeeds(file, jd, env)
    ensures result.Ok? ==> Describes(result.value, file, jd, skillsDb, env)
  {
    hide NameOf, SearchEmail, PhoneOf, ExtractSkills, RequiredSkills, TipsOutput, ListsSet;
    var extracted := env.extractText(file);
    if extracted.Err? {
      return Err(extracted.error);
    }
    var text := extracted.value;
    var contact := ExtractContactInfo(text, env.findPhones);
    var name := ExtractName(text, env.nlp);
    var rawSkills := ExtractSkills(text, skillsDb, env.nlp);
    var scored := env.matchScore(text, jd);
    if scored.Err? {
      return Err(scored.error);
    }
    var matchPercentage := scored.value;
    var tips;
    ghost var order;
    tips, order := GenerateResumeTips(name, contact.email, contact.phone, matchPercentage, rawSkills, requiredSkills);
    var row := CandidateResult(name, contact.email, contact.phone, rawSkills, matchPercentage, tips);
    assert row == RowFor(text, matchPercentage, jd, skillsDb, env, order);
    result := Ok(row);
  }

  /** The names of the files among the first `n` whose processing
      succeeds: the keys of `processed_files_map` after `n` files. */
  function MemoNames(files: seq<UploadedFile>, n: nat, jd: string, env: Services): set<string>
    requires n <= |files|
    decreases n
  {
    if n == 0 then {}
    else MemoNames(files, n - 1, jd, env) + (if Succeeds(files[n - 1], jd, env) then {files[n - 1].name} else {})
  }

  /** `files[i]` gets a row: it, or an earlier file of the same name,
      processes without error. */
  predicate HasResult(files: seq<UploadedFile>, i: nat, jd: string, env: Services)
    requires i < |files|
  {
    files[i].name in MemoNames(files, i + 1, jd, env)
  }

  /** The indices below `n` of the files that get a row, in list order. */
  function ResultIndices(files: seq<UploadedFile>, n: nat, jd: string, env: Services): (r: seq<nat>)
    requires n <= |files|
    ensures forall k | 0 <= k < |r| :: r[k] < n
    decreases n
  {
    if n == 0 then []
    else ResultIndices(files, n - 1, jd, env) + (if HasResult(files, n - 1, jd, env) then [n - 1] else [])
  }

  /** The memo and the rows before the first file. */
  lemma MemoStart(files: seq<UploadedFile>, jd: string, env: Services)
    ensures MemoNames(files, 0, jd, env) == {}
    ensures ResultIndices(files, 0, jd, env) == []
  {
  }

  /** The memo and the rows after one more file. */
  lemma MemoStep(files: seq<UploadedFile>, i: nat, jd: string, env: Services)
    requires i < |files|
    ensures MemoNames(files, i + 1, jd, env) ==
      MemoNames(files, i, jd, env) + (if Succeeds(files[i], jd, env) then {files[i].name} else {})
    ensures ResultIndices(files, i + 1, jd, env) ==
      ResultIndices(files, i, jd, env) + (if files[i].name in MemoNames(files, i + 1, jd, env) then [i] else [])
  {
  }

  /** A name is memoised after `n` files exactly when one of them has it and
      processes without error. */
  lemma {:induction false} MemoNamesMeaning(files: seq<UploadedFile>, n: nat, jd: string, env: Services)
    requires n <= |files|
    ensures forall nm :: nm in MemoNames(files, n, jd, env) <==>
      exists j | 0 <= j < n :: files[j].name == nm && Succeeds(files[j], jd, env)
    decreases n
  {
    if n > 0 {
      MemoNamesMeaning(files, n - 1, jd, env);
    }
  }

  /** The rows come in list order, one per file that has a result. */
  lemma {:induction false} ResultIndicesMeaning(files: seq<UploadedFile>, n: nat, jd: string, env: Services)
    requires n <= |files|
    ensures forall k, l | 0 <= k < l < |ResultIndices(files, n, jd, env)| ::
      ResultIndices(files, n, jd, env)[k] < ResultIndices(files, n, jd, env)[l]
    ensures forall j | 0 <= j < n :: j in ResultIndices(files, n, jd, env) <==> HasResult(files, j, jd, env)
    decreases n
  {
    if n > 0 {
      ResultIndicesMeaning(files, n - 1, jd, env);
    }
  }

  /** The index of the first file at or after `j` named `nm` whose
      processing succeeds. */
  function FirstSuccessFrom(files: seq<UploadedFile>, nm: string, j: nat, jd: string, env: Services): (r: Option<nat>)
    requires j <= |files|
    ensures r.Some? ==> j <= r.value < |files| && files[r.value].name == nm && Succeeds(files[r.value], jd, env)
    ensures forall m | j <= m < |files| && (r.None? || m < r.value) ::
      files[m].name != nm || !Succeeds(files[m], jd, env)
    decreases |files| - j
  {
    if j == |files| then None
    else if files[j].name == nm && Succeeds(files[j], jd, env) then Some(j)
    else FirstSuccessFrom(files, nm, j + 1, jd, env)
  }

  /** The first file named `nm` whose processing succeeds: the one whose row
      the memo hands out for that name. */
  function FirstSuccess(files: seq<UploadedFile>, nm: string, jd: string, env: Services): Option<nat> {
    FirstSuccessFrom(files, nm, 0, jd, env)
  }

  /** A name that is not yet memoised after `i` files is first processed
      successfully at `files[i]` when that file succeeds. */
  lemma FirstSuccessAt(files: seq<UploadedFile>, i: nat, jd: string, env: Services)
    requires i < |files|
    requires files[i].name !in MemoNames(files, i, jd, env)
    requires Succeeds(files[i], jd, env)
    ensures FirstSuccess(files, files[i].name, jd, env) == Some(i)
  {
    MemoNamesMeaning(files, i, jd, env);
  }

  /** Lines 161-215 without the display, over the vocabulary `skillsDb`
      (`SKILLS_DB` on the page): nothing without files or a job description;
      otherwise one row per file that has a result, in list order (`pos[k]`
      is the file of row `k`). Each row is the one built for the first file
      of its name that processes, so files of the same name share their row. */
  method ProcessFiles(files: seq<UploadedFile>, jd: string, skillsDb: seq<string>, env: Services)
    returns (results: seq<CandidateResult>, ghost pos: seq<nat>)
    ensures |results| == if jd == [] then 0 else |ResultIndices(files, |files|, jd, env)|
    ensures pos == if jd == [] then [] else ResultIndices(files, |files|, jd, env)
    ensures |results| == |pos|
    ensures forall k | 0 <= k < |pos| ::
      pos[k] < |files| && FirstSuccess(files, files[pos[k]].name, jd, env).Some? &&
      Describes(results[k], files[FirstSuccess(files, files[pos[k]].name, jd, env).value], jd, skillsDb, env)
    ensures forall k, l | 0 <= k < |pos| && 0 <= l < |pos| ::
      files[pos[k]].name == files[pos[l]].name ==> results[k] == results[l]
  {
    // The loop only passes rows around: it needs no function definition
    // beyond the one step of the memo that MemoStep states.
    hide *;
    MemoStart(files, jd, env);
    results, pos := [], [];
    if files == [] || jd == [] {
      return;
    }
    var requiredSkills := RequiredSkills(jd, skillsDb);
    var processed: map<string, CandidateResult> := map[];
    ghost var srcOf: map<string, nat> := map[];

    for i := 0 to |files|
      invariant pos == ResultIndices(files, i, jd, env)
      invariant |results| == |pos|
      invariant processed.Keys == srcOf.Keys == MemoNames(files, i, jd, env)
      invariant forall nm | nm in srcOf ::
        srcOf[nm] < |files| && FirstSuccess(files, nm, jd, env) == Some(srcOf[nm]) &&
        Describes(processed[nm], files[srcOf[nm]], jd, skillsDb, env)
      invariant forall k | 0 <= k < |pos| ::
        files[pos[k]].name in processed && processed[files[pos[k]].name] == results[k]
    {
      MemoStep(files, i, jd, env);
      var file := files[i];
      if file.name in processed {
        results := results + [processed[file.name]];
        pos := pos + [i];
        continue;
      }
      var outcome := ProcessResume(file, jd, skillsDb, requiredSkills, env);
      if outcome.Err? {
        // except Exception: the error is shown and the file skipped
        continue;
      }
      FirstSuccessAt(files, i, jd, env);
      results := results + [outcome.value];
      pos := pos + [i];
      processed := processed[file.name := outcome.value];
      srcOf := srcOf[file.name := i];
    }
  }

  /** On a list without repeated names, as the session keeps it, the memo
      never answers: a file has a row exactly when its own processing
      succeeds, whatever happens to the other files, and the row is built
      from that file. */
  lemma DistinctNamesOwnResult(files: seq<UploadedFile>, i: nat, jd: string, env: Services)
    requires DistinctNames(files)
    requires i < |files|
    ensures HasResult(files, i, jd, env) <==> Succeeds(files[i], jd, env)
    ensures Succeeds(files[i], jd, env) ==> FirstSuccess(files, files[i].name, jd, env) == Some(i)
  {
    MemoNamesMeaning(files, i, jd, env);
    MemoNamesMeaning(files, i + 1, jd, env);
    if Succeeds(files[i], jd, env) {
      FirstSuccessAt(files, i, jd, env);
    }
  }
}
