/** The code-review job behind the `/code-review` endpoint (`run_review`): it picks the code files
    of the repository tree, asks OpenAI to review at most five of them, adds up the findings,
    recommendations and scores of the replies that parse, falls back to a fixed mock review when
    an OpenAI call fails or no file was reviewed, and stores the final record under the
    operation id. GitLab, OpenAI and the JSON decoder are oracles. */
module CodeReview {
  import opened Wrappers
  import opened Json
  import opened Strings
  import opened GitLab
  import opened BaseAgent
  import opened OperationStore

  // ---------------------------------------------------------------- which files are reviewed

  /** A tree entry worth reviewing: a file whose path does not start with ".git",
      "node_modules" or "__pycache__". */
  predicate IsCandidate(item: TreeItem) {
    item.kind == "blob" && !StartsWith(item.path, ".git")
    && !StartsWith(item.path, "node_modules") && !StartsWith(item.path, "__pycache__")
  }

  /** `code_files`: the candidates, in tree order. */
  function Candidates(tree: seq<TreeItem>): (r: seq<TreeItem>)
    ensures |r| <= |tree|
    ensures forall x :: x in r <==> x in tree && IsCandidate(x)
    ensures (forall i :: 0 <= i < |tree| ==> IsCandidate(tree[i])) ==> r == tree
    decreases |tree|
  {
    if |tree| == 0 then []
    else
      assert forall x :: x in tree <==> x == tree[0] || x in tree[1..];
      assert forall i :: 1 <= i < |tree| ==> tree[1..][i - 1] == tree[i];
      (if IsCandidate(tree[0]) then [tree[0]] else []) + Candidates(tree[1..])
  }

  /** The candidates of two pieces of a tree are the candidates of each, in order. */
  lemma {:induction false} CandidatesAppend(a: seq<TreeItem>, b: seq<TreeItem>)
    ensures Candidates(a + b) == Candidates(a) + Candidates(b)
    decreases |a|
  {
    if |a| == 0 {
      assert a + b == b;
    } else {
      assert (a + b)[0] == a[0];
      assert (a + b)[1..] == a[1..] + b;
      CandidatesAppend(a[1..], b);
    }
  }

  const MaxFiles: nat := 5

  /** `code_files[:5]`: the first five candidates, or all of them when there are fewer. */
  function Attempted(tree: seq<TreeItem>): (r: seq<TreeItem>)
    ensures |r| <= MaxFiles && forall x :: x in r ==> x in tree && IsCandidate(x)
    ensures |r| == MaxFiles || r == Candidates(tree)
    ensures |r| == (if |Candidates(tree)| < MaxFiles then |Candidates(tree)| else MaxFiles)
    ensures r == Candidates(tree)[..|r|]
  {
    var c := Candidates(tree);
    if |c| <= MaxFiles then c else c[..MaxFiles]
  }

  // ---------------------------------------------------------------- one file

  /** The oracles of the review: the file fetch on the requested branch (its decoded text, or the
      exception raised), the OpenAI completion of a prompt, `json.loads`, and the order in which a
      decoded JSON object yields its keys. */
  datatype Services = Services(fetch: string -> Result<string, string>,
                               complete: string -> Result<string, string>,
                               parse: string -> Result<Value, string>,
                               keyOrder: map<string, Value> -> seq<string>)

  /** `content[:2000]`. */
  function Snippet(content: string): (r: string)
    ensures |r| <= 2000 && StartsWith(content, r)
    ensures |content| <= 2000 ==> r == content
    ensures |content| > 2000 ==> r == content[..2000]
  {
    if |content| <= 2000 then content else content[..2000]
  }

  const ReviewTasks: string := ") for:\n1. Code quality and best practices\n2. Potential bugs or issues\n3. Security concerns\n4. Performance improvements\n5. Maintainability\n\nFocus areas: "
  const ReviewFormat: string := "\n\nProvide the review strictly as a valid JSON object with the following keys: \"findings\" (list of strings), \"recommendations\" (list of strings), and \"score\" (number between 0 and 10).\n\nCode:\n"
  const ReviewTail: string := "  # Limit content length\n"

  /** The review prompt of one file: its path, the focus areas and the head of its text. */
  function ReviewPrompt(path: string, focus: seq<string>, content: string): string {
    "Review this code file (" + path + ReviewTasks + Join(focus, ", ") + ReviewFormat
    + Snippet(content) + ReviewTail
  }

  /** `total_score`: an int until a float is added to it. */
  datatype Number = IntN(i: int) | FloatN(x: real) {
    function Real(): real {
      match this
      case IntN(i) => i as real
      case FloatN(x) => x
    }

    function PyType(): string {
      if IntN? then "int" else "float"
    }
  }

  /** `total += v`: ints (and bools) keep an int total an int, a float makes it a float, and
      anything else raises a TypeError. */
  function AddScore(total: Number, v: Value): (r: Result<Number, string>)
    ensures r.Success? <==> v.Int? || v.Bool? || v.Float?
    ensures r.Success? ==> r.value.Real() == total.Real() + (match v
                                                           case Int(i) => i as real
                                                           case Bool(b) => if b then 1.0 else 0.0
                                                           case Float(x) => x
                                                           case _ => 0.0)
    ensures r.Success? ==> (r.value.IntN? <==> total.IntN? && !v.Float?)
  {
    match v
    case Int(i) => Success(if total.IntN? then IntN(total.i + i) else FloatN(total.x + i as real))
    case Bool(b) =>
      var i := if b then 1 else 0;
      Success(if total.IntN? then IntN(total.i + i) else FloatN(total.x + i as real))
    case Float(x) => Success(FloatN(total.Real() + x))
    case _ => Failure("unsupported operand type(s) for +=: '" + total.PyType() + "' and '"
                      + TypeName(v) + "'")
  }

  /** What `list.extend(v)` appends: the items of a list, the characters of a string, the keys
      of a dict; anything else raises a TypeError. */
  function Extension(v: Value, keyOrder: map<string, Value> -> seq<string>): (r: Result<seq<Value>, string>)
    ensures r.Success? <==> v.Arr? || v.Str? || v.Obj?
    ensures v.Arr? ==> r == Success(v.items)
    ensures v.Str? ==> r.Success? && |r.value| == |v.s|
                       && forall i :: 0 <= i < |v.s| ==> r.value[i] == Str([v.s[i]])
    ensures v.Obj? ==> r == Success(Strs(keyOrder(v.fields)))
  {
    match v
    case Arr(items) => Success(items)
    case Str(s) => Success(seq(|s|, i requires 0 <= i < |s| => Str([s[i]])))
    case Obj(fields) => Success(Strs(keyOrder(fields)))
    case _ => Failure("'" + TypeName(v) + "' object is not iterable")
  }

  /** `d.get(key, default)` on a dict. */
  function Get(fields: map<string, Value>, key: string, default: Value): Value {
    if key in fields then fields[key] else default
  }

  /** What a decoded reply adds: its findings, its recommendations and the new total, or the
      exception raised on the way (a reply that is not a dict has no `get`). */
  function ReviewOf(data: Value, total: Number, keyOrder: map<string, Value> -> seq<string>)
    : (r: Result<(seq<Value>, seq<Value>, Number), string>)
    ensures !data.Obj? ==> r == Failure("'" + TypeName(data) + "' object has no attribute 'get'")
    ensures data.Obj? && (forall k :: k in data.fields ==> data.fields[k].Arr?) && "score" !in data.fields ==>
      r == Success((Get(data.fields, "findings", Arr([])).items,
                    Get(data.fields, "recommendations", Arr([])).items, total))
    ensures data.Obj? ==>
      var f := Extension(Get(data.fields, "findings", Arr([])), keyOrder);
      var c := Extension(Get(data.fields, "recommendations", Arr([])), keyOrder);
      var n := AddScore(total, Get(data.fields, "score", Int(0)));
      (r.Success? <==> f.Success? && c.Success? && n.Success?)
      && (r.Success? ==> r.value == (f.value, c.value, n.value))
      && (f.Failure? ==> r == Failure(f.error))
      && (f.Success? && c.Failure? ==> r == Failure(c.error))
      && (f.Success? && c.Success? && n.Failure? ==> r == Failure(n.error))
  {
    if !data.Obj? then Failure("'" + TypeName(data) + "' object has no attribute 'get'")
    else
      match Extension(Get(data.fields, "findings", Arr([])), keyOrder)
      case Failure(e) => Failure(e)
      case Success(findings) =>
        match Extension(Get(data.fields, "recommendations", Arr([])), keyOrder)
        case Failure(e) => Failure(e)
        case Success(recommendations) =>
          match AddScore(total, Get(data.fields, "score", Int(0)))
          case Failure(e) => Failure(e)
          case Success(total') => Success((findings, recommendations, total'))
  }

  /** The finding recorded for a reply that is not valid JSON. */
  function MalformedFinding(path: string): Value {
    Obj(map["type" := Str("error"), "severity" := Str("low"),
            "description" := Str("Failed to parse review for " + path
                                 + " due to invalid JSON response from AI."),
            "location" := Str(path)])
  }

  /** The finding recorded for a file that could not be reviewed. */
  function FailedFinding(path: string, error: string): Value {
    Obj(map["type" := Str("error"), "severity" := Str("medium"),
            "description" := Str("Error reviewing " + path + ": " + error),
            "location" := Str(path)])
  }

  /** The accumulators of the loop. `failure` is the text of the exception that stopped it
      (`openai_failed` and `openai_error_message`). */
  datatype Tally = Tally(findings: seq<Value>, recommendations: seq<Value>, total: Number,
                         reviewed: nat, failure: Option<string>)

  const Start: Tally := Tally([], [], IntN(0), 0, None)

  /** One turn of the loop: a fetch failure (or a missing focus list, which `join` refuses) adds
      a medium finding; a failed completion, or a decoded reply that cannot be added, stops the
      loop; a reply that is not JSON adds a low finding; a reply that is added counts as
      reviewed. The accumulators only ever grow at their end. */
  function ReviewFile(t: Tally, file: TreeItem, focus: Option<seq<string>>, s: Services): (r: Tally)
    requires t.failure.None?
    ensures r.reviewed <= t.reviewed + 1
    ensures r.failure.None? ==>
      |r.findings| + r.reviewed >= |t.findings| + t.reviewed + 1
      && |t.findings| <= |r.findings| && r.findings[..|t.findings|] == t.findings
      && |t.recommendations| <= |r.recommendations|
      && r.recommendations[..|t.recommendations|] == t.recommendations
    ensures s.fetch(file.path).Failure? ==>
      r == t.(findings := t.findings + [FailedFinding(file.path, s.fetch(file.path).error)])
    ensures s.fetch(file.path).Success? && focus.None? ==>
      r == t.(findings := t.findings + [FailedFinding(file.path, "can only join an iterable")])
    ensures s.fetch(file.path).Success? && focus.Some? ==>
      var reply := s.complete(ReviewPrompt(file.path, focus.value, s.fetch(file.path).value));
      (reply.Failure? ==> r == t.(failure := Some(reply.error)))
      && (reply.Success? && s.parse(reply.value).Failure? ==>
            r == t.(findings := t.findings + [MalformedFinding(file.path)]))
  {
    match s.fetch(file.path)
    case Failure(e) => t.(findings := t.findings + [FailedFinding(file.path, e)])
    case Success(content) =>
      if focus.None? then t.(findings := t.findings + [FailedFinding(file.path, "can only join an iterable")])
      else
        match s.complete(ReviewPrompt(file.path, focus.value, content))
        case Failure(e) => t.(failure := Some(e))
        case Success(reply) =>
          match s.parse(reply)
          case Failure(_) => t.(findings := t.findings + [MalformedFinding(file.path)])
          case Success(data) =>
            match ReviewOf(data, t.total, s.keyOrder)
            case Failure(e) => t.(failure := Some(e))
            case Success(added) =>
              assert (t.findings + added.0)[..|t.findings|] == t.findings;
              assert (t.recommendations + added.1)[..|t.recommendations|] == t.recommendations;
              Tally(t.findings + added.0, t.recommendations + added.1, added.2, t.reviewed + 1, None)
  }

  /** The accumulators after the loop has gone over `files`, stopping at the first failure.
      Without a failure, every file either counts as reviewed or leaves a finding. */
  function Reviewed(files: seq<TreeItem>, focus: Option<seq<string>>, s: Services): (r: Tally)
    ensures r.reviewed <= |files|
    ensures r.failure.None? ==> |r.findings| + r.reviewed >= |files|
    decreases |files|
  {
    if |files| == 0 then Start
    else
      var t := Reviewed(files[..|files| - 1], focus, s);
      if t.failure.Some? then t else ReviewFile(t, files[|files| - 1], focus, s)
  }

  /** A reply that decodes is added when `ReviewOf` accepts it (the file then counts as
      reviewed and the total is replaced), and stops the loop with the exception text otherwise. */
  lemma ReviewFileParsed(t: Tally, file: TreeItem, focus: seq<string>, s: Services, data: Value)
    requires t.failure.None? && s.fetch(file.path).Success?
    requires var reply := s.complete(ReviewPrompt(file.path, focus, s.fetch(file.path).value));
             reply.Success? && s.parse(reply.value) == Success(data)
    ensures var r := ReviewFile(t, file, Some(focus), s);
            match ReviewOf(data, t.total, s.keyOrder)
            case Failure(e) => r == t.(failure := Some(e))
            case Success(a) => r == Tally(t.findings + a.0, t.recommendations + a.1, a.2, t.reviewed + 1, None)
  {
  }

  /** What one file adds does not depend on the tally it is added to: the file stops the loop
      or not whatever came before, and otherwise appends the same findings and recommendations
      as it would to an empty tally. */
  lemma ReviewFileFrom(t: Tally, file: TreeItem, focus: Option<seq<string>>, s: Services)
    requires t.failure.None?
    ensures var r := ReviewFile(t, file, focus, s);
            var u := ReviewFile(Start, file, focus, s);
            (r.failure.None? <==> u.failure.None?)
            && (r.failure.None? ==>
                  r.findings == t.findings + u.findings
                  && r.recommendations == t.recommendations + u.recommendations
                  && r.reviewed == t.reviewed + u.reviewed)
  {
    assert Start.findings == [] && Start.recommendations == [];
  }

  /** Each file's own findings and recommendations, in file order. */
  function Gathered(files: seq<TreeItem>, focus: Option<seq<string>>, s: Services): (seq<Value>, seq<Value>)
    decreases |files|
  {
    if |files| == 0 then ([], [])
    else
      var g := Gathered(files[..|files| - 1], focus, s);
      var u := ReviewFile(Start, files[|files| - 1], focus, s);
      (g.0 + u.findings, g.1 + u.recommendations)
  }

  /** When no OpenAI call failed, the loop's findings and recommendations are those of each file
      on its own, concatenated in file order. */
  lemma {:induction false} ReviewedGathers(files: seq<TreeItem>, focus: Option<seq<string>>, s: Services)
    ensures var r := Reviewed(files, focus, s);
            r.failure.None? ==> (r.findings, r.recommendations) == Gathered(files, focus, s)
    decreases |files|
  {
    if |files| > 0 {
      var prefix := files[..|files| - 1];
      ReviewedGathers(prefix, focus, s);
      var t := Reviewed(prefix, focus, s);
      if t.failure.None? {
        ReviewFileFrom(t, files[|files| - 1], focus, s);
      }
    }
  }

  lemma ReviewedKeeps(files: seq<TreeItem>, i: nat, focus: Option<seq<string>>, s: Services)
    requires i < |files| && Reviewed(files[..i], focus, s).failure.Some?
    ensures Reviewed(files[..i + 1], focus, s) == Reviewed(files[..i], focus, s)
  {
    assert files[..i + 1][..i] == files[..i];
  }

  /** Once the loop has stopped, later files change nothing. */
  lemma {:induction false} ReviewedStops(files: seq<TreeItem>, j: nat, k: nat, focus: Option<seq<string>>, s: Services)
    requires j <= k <= |files| && Reviewed(files[..j], focus, s).failure.Some?
    ensures Reviewed(files[..k], focus, s) == Reviewed(files[..j], focus, s)
    decreases k - j
  {
    if j < k {
      ReviewedKeeps(files, j, focus, s);
      ReviewedStops(files, j + 1, k, focus, s);
    }
  }

  lemma ReviewedStep(files: seq<TreeItem>, i: nat, focus: Option<seq<string>>, s: Services)
    requires i < |files| && Reviewed(files[..i], focus, s).failure.None?
    ensures Reviewed(files[..i + 1], focus, s) == ReviewFile(Reviewed(files[..i], focus, s), files[i], focus, s)
  {
    assert files[..i + 1][..i] == files[..i];
  }

  // ---------------------------------------------------------------- the record

  const MockFindings: seq<Value> := [
    Obj(map["type" := Str("mock_review"), "severity" := Str("info"),
            "description" := Str("OpenAI review failed or quota exceeded. This is a mock code review."),
            "location" := Str("N/A")])]

  const MockRecommendations: seq<Value> := [
    Str("Add more tests to your codebase."),
    Str("Follow best practices for code structure."),
    Str("Ensure proper error handling.")]

  const Completed: string := "Code review completed"
  const CompletedWithMock: string := "Code review completed with mock fallback due to OpenAI error."
  const NoIssues: string := "No significant issues found in the reviewed files."

  /** The mock review replaces the results when the loop stopped or reviewed nothing. */
  predicate Fallback(t: Tally) {
    t.failure.Some? || t.reviewed == 0
  }

  /** `openai_error_message or 'Unknown error'`. */
  function ErrorText(failure: Option<string>): (r: string)
    ensures r != []
  {
    if failure.Some? && failure.value != [] then failure.value else "Unknown error"
  }

  /** The summary text: the mock note, the OpenAI summary of the results (or the note that it
      failed), or the note that there was nothing to summarise. */
  function Summary(t: Tally, summarize: (seq<Value>, seq<Value>) -> Result<string, string>): (r: string)
    ensures Fallback(t) ==>
      r == "OpenAI review failed: " + ErrorText(t.failure) + ". Returned mock review."
    ensures !Fallback(t) && t.findings == [] && t.recommendations == [] ==> r == NoIssues
    ensures !Fallback(t) && (t.findings != [] || t.recommendations != []) ==>
      match summarize(t.findings, t.recommendations)
      case Success(text) => r == text
      case Failure(e) => r == "OpenAI summary failed: " + e + "."
  {
    if Fallback(t) then "OpenAI review failed: " + ErrorText(t.failure) + ". Returned mock review."
    else if t.findings != [] || t.recommendations != [] then
      match summarize(t.findings, t.recommendations)
      case Success(text) => text
      case Failure(e) => "OpenAI summary failed: " + e + "."
    else NoIssues
  }

  /** The record stored when the review ran: the mock results with score 50 after a fallback,
      the gathered results with the mean score otherwise; the message names the mock fallback
      exactly when an OpenAI call failed. */
  function FinalRecord(id: string, t: Tally, summarize: (seq<Value>, seq<Value>) -> Result<string, string>)
    : (v: Value)
    ensures Field(v, "review_id") == Some(Str(id)) && Field(v, "status") == Some(Str("completed"))
    ensures Field(v, "message") == Some(Str(if t.failure.Some? then CompletedWithMock else Completed))
    ensures Fallback(t) ==>
      Field(v, "findings") == Some(Arr(MockFindings)) && |MockFindings| == 1
      && Field(v, "recommendations") == Some(Arr(MockRecommendations)) && |MockRecommendations| == 3
      && Field(v, "score") == Some(Int(50))
    ensures !Fallback(t) ==>
      Field(v, "findings") == Some(Arr(t.findings))
      && Field(v, "recommendations") == Some(Arr(t.recommendations))
      && Field(v, "score") == Some(Float(t.total.Real() / t.reviewed as real))
    ensures Field(v, "summary") == Some(Str(Summary(t, summarize)))
  {
    var fallback := Fallback(t);
    Obj(map["review_id" := Str(id), "status" := Str("completed"),
            "message" := Str(if t.failure.Some? then CompletedWithMock else Completed),
            "findings" := Arr(if fallback then MockFindings else t.findings),
            "recommendations" := Arr(if fallback then MockRecommendations else t.recommendations),
            "score" := if fallback then Int(50) else Float(t.total.Real() / t.reviewed as real),
            "summary" := Str(Summary(t, summarize))])
  }

  /** The record stored when the analysis failed. */
  function ErrorRecord(id: string, message: string): (v: Value)
    ensures Field(v, "review_id") == Some(Str(id))
    ensures Field(v, "status") == Some(Str("error")) && Field(v, "message") == Some(Str(message))
    ensures Field(v, "findings") == Some(Arr([])) && Field(v, "recommendations") == Some(Arr([]))
    ensures Field(v, "score") == Some(Int(0)) && Field(v, "summary").None?
  {
    Obj(map["review_id" := Str(id), "status" := Str("error"), "message" := Str(message),
            "findings" := Arr([]), "recommendations" := Arr([]), "score" := Int(0)])
  }

  /** A repository with nothing to review gets the mock review, under the plain "completed"
      message but with a summary that blames OpenAI. */
  lemma NothingToReviewIsMock(id: string, tree: seq<TreeItem>, focus: Option<seq<string>>, s: Services,
                              summarize: (seq<Value>, seq<Value>) -> Result<string, string>)
    requires Candidates(tree) == []
    ensures var v := FinalRecord(id, Reviewed(Attempted(tree), focus, s), summarize);
      Field(v, "message") == Some(Str(Completed)) && Field(v, "score") == Some(Int(50))
      && Field(v, "summary") == Some(Str("OpenAI review failed: " + "Unknown error" + ". Returned mock review."))
  {
    assert Attempted(tree) == [];
  }

  // ---------------------------------------------------------------- the job

  /** One turn of the loop of `run_review`: the body of its `try`, on the accumulators. */
  method ReviewOne(t: Tally, file: TreeItem, focus: Option<seq<string>>, s: Services) returns (r: Tally)
    requires t.failure.None?
    ensures r == ReviewFile(t, file, focus, s)
  {
    var content := s.fetch(file.path);
    if content.Failure? {
      return t.(findings := t.findings + [FailedFinding(file.path, content.error)]);
    }
    if focus.None? {
      return t.(findings := t.findings + [FailedFinding(file.path, "can only join an iterable")]);
    }
    var review := s.complete(ReviewPrompt(file.path, focus.value, content.value));
    if review.Failure? {
      return t.(failure := Some(review.error));
    }
    var data := s.parse(review.value);
    if data.Failure? {
      return t.(findings := t.findings + [MalformedFinding(file.path)]);
    }
    var added := ReviewOf(data.value, t.total, s.keyOrder);
    if added.Failure? {
      return t.(failure := Some(added.error));
    }
    r := Tally(t.findings + added.value.0, t.recommendations + added.value.1, added.value.2,
               t.reviewed + 1, None);
  }

  /** The loop of `run_review` over the attempted files, which stops at the first failure. */
  method ReviewFiles(files: seq<TreeItem>, focus: Option<seq<string>>, s: Services) returns (t: Tally)
    ensures t == Reviewed(files, focus, s)
  {
    t := Start;
    var i := 0;
    while i < |files|
      invariant 0 <= i <= |files| && t.failure.None?
      invariant t == Reviewed(files[..i], focus, s)
    {
      ReviewedStep(files, i, focus, s);
      t := ReviewOne(t, files[i], focus, s);
      if t.failure.Some? {
        ReviewedStops(files, i + 1, |files|, focus, s);
        assert files[..|files|] == files;
        return;
      }
      i := i + 1;
    }
    assert files[..|files|] == files;
  }

  /** The end of `run_review`: the fallback to the mock review, the score, the summary and the
      record written. */
  method Conclude(id: string, t: Tally, summarize: (seq<Value>, seq<Value>) -> Result<string, string>)
    returns (record: Value)
    ensures record == FinalRecord(id, t, summarize)
  {
    var findings, recommendations, totalScore, filesReviewed := t.findings, t.recommendations, t.total, t.reviewed;
    var openaiFailed := t.failure.Some?;
    var score: Value;
    var summary: string;
    if openaiFailed || filesReviewed == 0 {
      findings := MockFindings;
      recommendations := MockRecommendations;
      score := Int(50);
      summary := "OpenAI review failed: " + ErrorText(t.failure) + ". Returned mock review.";
    } else {
      score := Float(totalScore.Real() / filesReviewed as real);
      if findings != [] || recommendations != [] {
        var reply := summarize(findings, recommendations);
        summary := if reply.Success? then reply.value else "OpenAI summary failed: " + reply.error + ".";
      } else {
        summary := NoIssues;
      }
    }
    assert summary == Summary(t, summarize);
    record := Obj(map["review_id" := Str(id), "status" := Str("completed"),
                      "message" := Str(if openaiFailed then CompletedWithMock else Completed),
                      "findings" := Arr(findings), "recommendations" := Arr(recommendations),
                      "score" := score, "summary" := Str(summary)]);
  }

  /** `run_review`. `analysis` is the reply of the analysis agent; `tree` is the repository tree
      of the requested branch, or the exception raised while getting the project or its tree
      (which ends the job without a record). */
  method RunReview(store: Store, id: string, analysis: Reply, tree: Result<seq<TreeItem>, string>,
                   focus: Option<seq<string>>, s: Services,
                   summarize: (seq<Value>, seq<Value>) -> Result<string, string>)
    modifies store
    ensures analysis.status == "error" ==>
      store.Operations() == old(store.Operations())[id := ErrorRecord(id, analysis.message)]
    ensures analysis.status != "error" && tree.Failure? ==> store.file == old(store.file)
    ensures analysis.status != "error" && tree.Success? ==>
      store.Operations()
        == old(store.Operations())[id := FinalRecord(id, Reviewed(Attempted(tree.value), focus, s), summarize)]
  {
    if analysis.status == "error" {
      store.Set(id, ErrorRecord(id, analysis.message));
      return;
    }
    if tree.Failure? {
      return;
    }
    var codeFiles := Candidates(tree.value);
    var files := if |codeFiles| <= MaxFiles then codeFiles else codeFiles[..MaxFiles];
    var t := ReviewFiles(files, focus, s);
    var record := Conclude(id, t, summarize);
    store.Set(id, record);
  }
}
