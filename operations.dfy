/** The endpoints' bookkeeping: the ids under which background operations store their records,
    the status poll that reads them back, and the generation job that feeds the analysis to the
    template pipeline agent. */
module Operations {
  import opened Wrappers
  import opened Json
  import opened BaseAgent
  import opened OperationStore
  import CodeAnalysis
  import PipelineTemplate

  // ---------------------------------------------------------------- operation ids

  /** The five kinds of background operation, one per endpoint. */
  datatype Kind = Analyze | Generate | Validate | Deploy | Review {
    function Name(): (r: string)
      ensures |r| > 0 && '_' !in r
    {
      match this
      case Analyze => "analyze"
      case Generate => "generate"
      case Validate => "validate"
      case Deploy => "deploy"
      case Review => "review"
    }
  }

  /** The fields of `datetime.now()` that `strftime('%Y%m%d_%H%M%S')` prints. */
  datatype Stamp = Stamp(year: int, month: int, day: int, hour: int, minute: int, second: int)

  /** The ranges a `datetime` keeps its fields in. */
  predicate ValidStamp(st: Stamp) {
    1 <= st.year <= 9999 && 1 <= st.month <= 12 && 1 <= st.day <= 31
    && 0 <= st.hour < 24 && 0 <= st.minute < 60 && 0 <= st.second < 60
  }

  function Pow10(w: nat): (p: nat)
    ensures p > 0
  {
    if w == 0 then 1 else 10 * Pow10(w - 1)
  }

  /** `n` printed in exactly `w` decimal digits, zero-padded on the left. */
  function Digits(n: nat, w: nat): (r: string)
    ensures |r| == w && forall i :: 0 <= i < w ==> '0' <= r[i] <= '9'
  {
    if w == 0 then [] else Digits(n / 10, w - 1) + [('0' as int + n % 10) as char]
  }

  /** The number a string of decimal digits spells. */
  function DigitsValue(s: string): nat
    requires forall i :: 0 <= i < |s| ==> '0' <= s[i] <= '9'
  {
    if |s| == 0 then 0 else 10 * DigitsValue(s[..|s| - 1]) + (s[|s| - 1] as int - '0' as int)
  }

  lemma {:induction false} DigitsRoundTrip(n: nat, w: nat)
    requires n < Pow10(w)
    ensures DigitsValue(Digits(n, w)) == n
  {
    if w > 0 {
      var q, r := n / 10, n % 10;
      assert n == 10 * q + r && 0 <= r < 10;
      assert q < Pow10(w - 1) by {
        assert Pow10(w) == 10 * Pow10(w - 1);
      }
      DigitsRoundTrip(q, w - 1);
      var d := Digits(n, w);
      assert d == Digits(q, w - 1) + [('0' as int + r) as char];
      assert d[..|d| - 1] == Digits(q, w - 1);
      assert d[|d| - 1] as int - '0' as int == r;
    }
  }

  /** Three numbers printed in 4 (or 2), 2 and 2 digits: `%Y%m%d` and `%H%M%S`. */
  function Triple(a: nat, b: nat, c: nat, w: nat): (r: string)
    ensures |r| == w + 4 && forall i :: 0 <= i < w + 4 ==> '0' <= r[i] <= '9'
  {
    Digits(a, w) + Digits(b, 2) + Digits(c, 2)
  }

  function TripleValue(s: string, w: nat): (nat, nat, nat)
    requires |s| == w + 4 && forall i :: 0 <= i < w + 4 ==> '0' <= s[i] <= '9'
  {
    (DigitsValue(s[..w]), DigitsValue(s[w..w + 2]), DigitsValue(s[w + 2..]))
  }

  lemma TripleRoundTrip(a: nat, b: nat, c: nat, w: nat)
    requires a < Pow10(w) && b < 100 && c < 100
    ensures TripleValue(Triple(a, b, c, w), w) == (a, b, c)
  {
    var s := Triple(a, b, c, w);
    assert s[..w] == Digits(a, w) && s[w..w + 2] == Digits(b, 2) && s[w + 2..] == Digits(c, 2);
    DigitsRoundTrip(a, w);
    DigitsRoundTrip(b, 2);
    DigitsRoundTrip(c, 2);
  }

  /** `strftime('%Y%m%d_%H%M%S')`: fifteen characters, the "_" in the middle. */
  function FormatStamp(st: Stamp): (r: string)
    requires ValidStamp(st)
    ensures |r| == 15 && r[8] == '_'
  {
    Triple(st.year, st.month, st.day, 4) + "_" + Triple(st.hour, st.minute, st.second, 2)
  }

  /** Reads a printed stamp back. */
  function ParseStamp(s: string): Option<Stamp> {
    if |s| == 15 && s[8] == '_'
       && (forall i :: 0 <= i < 8 ==> '0' <= s[..8][i] <= '9')
       && (forall i :: 0 <= i < 6 ==> '0' <= s[9..][i] <= '9')
    then
      var date := TripleValue(s[..8], 4);
      var time := TripleValue(s[9..], 2);
      Some(Stamp(date.0, date.1, date.2, time.0, time.1, time.2))
    else None
  }

  lemma StampRoundTrip(st: Stamp)
    requires ValidStamp(st)
    ensures ParseStamp(FormatStamp(st)) == Some(st)
  {
    var date := Triple(st.year, st.month, st.day, 4);
    var time := Triple(st.hour, st.minute, st.second, 2);
    var s := FormatStamp(st);
    assert s[..8] == date && s[9..] == time;
    TripleRoundTrip(st.year, st.month, st.day, 4);
    TripleRoundTrip(st.hour, st.minute, st.second, 2);
  }

  /** `f"{kind}_{datetime.now().strftime('%Y%m%d_%H%M%S')}"`. */
  function OperationId(kind: Kind, st: Stamp): (id: string)
    requires ValidStamp(st)
    ensures |id| == |kind.Name()| + 16 && id[|kind.Name()|] == '_'
  {
    kind.Name() + "_" + FormatStamp(st)
  }

  /** The kind whose name opens an id: the five names start with five different letters. */
  function KindOf(c: char): Option<Kind> {
    match c
    case 'a' => Some(Analyze)
    case 'g' => Some(Generate)
    case 'v' => Some(Validate)
    case 'd' => Some(Deploy)
    case 'r' => Some(Review)
    case _ => None
  }

  lemma KindOfName(kind: Kind)
    ensures KindOf(kind.Name()[0]) == Some(kind)
  {
  }

  /** Splits an id into its kind and its stamp. */
  function ParseOperationId(id: string): Option<(Kind, Stamp)> {
    if |id| == 0 || KindOf(id[0]).None? then None
    else
      var kind := KindOf(id[0]).value;
      var n := |kind.Name()|;
      if |id| > n && id[..n] == kind.Name() && id[n] == '_' then
        match ParseStamp(id[n + 1..])
        case Some(st) => Some((kind, st))
        case None => None
      else None
  }

  /** An id names its kind and its second, and nothing else. */
  lemma OperationIdRoundTrip(kind: Kind, st: Stamp)
    requires ValidStamp(st)
    ensures ParseOperationId(OperationId(kind, st)) == Some((kind, st))
  {
    var name, stamp := kind.Name(), FormatStamp(st);
    var id := name + "_" + stamp;
    assert id[0] == name[0] && id[..|name|] == name && id[|name|] == '_' && id[|name| + 1..] == stamp;
    KindOfName(kind);
    StampRoundTrip(st);
  }

  /** Two operations get the same id exactly when they are of the same kind and start in the
      same second; the later one's record then replaces the earlier one's in the store. */
  lemma SameIdIffSameKindAndSecond(k1: Kind, s1: Stamp, k2: Kind, s2: Stamp)
    requires ValidStamp(s1) && ValidStamp(s2)
    ensures OperationId(k1, s1) == OperationId(k2, s2) <==> k1 == k2 && s1 == s2
  {
    OperationIdRoundTrip(k1, s1);
    OperationIdRoundTrip(k2, s2);
  }

  // ---------------------------------------------------------------- polling

  /** An HTTP error response: its status code and its detail. */
  datatype HttpError = HttpError(code: int, detail: string)

  /** What `GET /status/{id}` answers: the stored record when it is truthy, 404 otherwise. */
  function Status(file: BackingFile, id: string): (r: Result<Value, HttpError>)
    ensures r.Success? <==> Truthy(Lookup(file, id))
    ensures r.Success? ==> r.value == Read(file)[id]
    ensures r.Failure? ==> r.error == HttpError(404, "Operation not found")
  {
    var op := Lookup(file, id);
    if Truthy(op) then Success(op) else Failure(HttpError(404, "Operation not found"))
  }

  /** `get_operation_status`: one read of the store, which it leaves as it was. */
  method GetOperationStatus(store: Store, id: string) returns (r: Result<Value, HttpError>)
    ensures r == Status(store.file, id)
  {
    var op := store.Get(id);
    if !Truthy(op) {
      return Failure(HttpError(404, "Operation not found"));
    }
    r := Success(op);
  }

  /** A record that was stored is what the poll answers, as long as it is not empty. */
  lemma PollAfterSet(file: BackingFile, id: string, data: Value)
    requires Truthy(data)
    ensures Status(AfterSet(file, id, data), id) == Success(data)
  {
  }

  /** An empty record reads as no record at all. */
  lemma EmptyRecordIsNotFound(file: BackingFile, id: string)
    ensures Status(AfterSet(file, id, Obj(map[])), id) == Failure(HttpError(404, "Operation not found"))
  {
  }

  /** Before any operation was stored, every poll is a 404. */
  lemma NothingStoredIsNotFound(id: string)
    ensures Status(Missing, id).Failure?
  {
  }

  /** A record an agent returns is never empty, so once written it is what the poll answers. */
  lemma PollAfterTask(file: BackingFile, id: string, r: Reply)
    ensures Status(AfterSet(file, id, r.ToValue()), id) == Success(r.ToValue())
  {
    assert "status" in r.ToValue().fields;
  }

  /** No record is written when a task is scheduled: until its write lands, an id that was never
      stored polls as 404, not as "processing". */
  lemma UnwrittenIsNotFound(file: BackingFile, id: string)
    requires id !in Read(file)
    ensures Status(file, id) == Failure(HttpError(404, "Operation not found"))
  {
  }

  /** The background task of the analyze, validate and deploy endpoints: the agent's reply is
      stored under the operation id, and every other operation keeps its record. */
  method RecordTask(store: Store, id: string, result: Reply)
    modifies store
    ensures store.Operations() == old(store.Operations())[id := result.ToValue()]
    ensures Status(store.file, id) == Success(result.ToValue())
  {
    store.Set(id, result.ToValue());
    PollAfterTask(old(store.file), id, result);
  }

  // ---------------------------------------------------------------- the generation job

  /** The context the generate endpoint hands to the template pipeline agent, as written: the
      whole data of the analysis reply goes under "analysis". */
  function PipelineContextAsWritten(data: Value, repoUrl: string, branch: Value): map<string, Value> {
    map["analysis" := data, "repo_url" := Str(repoUrl), "branch" := branch]
  }

  /** As written, the agent never sees the detected language: the analysis data holds
      "structure", "dependencies" and "analysis", but no "language", so every repository gets
      the default pipeline, although a detected language from the tables has its own image. */
  lemma GenerationIgnoresDetectedLanguage(structure: CodeAnalysis.Structure, deps: seq<(string, string)>,
                                          analysis: CodeAnalysis.Analysis, repoUrl: string, branch: Value)
    ensures PipelineTemplate.Execute(PipelineContextAsWritten(
              CodeAnalysis.ResultData(structure, deps, analysis), repoUrl, branch))
            == PipelineTemplate.Generated("unknown")
    ensures analysis.language in PipelineTemplate.Languages ==>
      PipelineTemplate.LanguageImage(analysis.language) != PipelineTemplate.DefaultImage
  {
    var data := CodeAnalysis.ResultData(structure, deps, analysis);
    assert "language" !in data.fields;
    PipelineTemplate.NoLanguageMeansDefaults(PipelineContextAsWritten(data, repoUrl, branch));
  }

  /** The analysis record inside the data of an analysis reply (`data["analysis"]`). */
  function AnalysisRecord(data: Value): Value {
    if Field(data, "analysis").Some? then Field(data, "analysis").value else Null
  }

  /** The context the endpoint evidently means to pass: the analysis record itself. */
  function PipelineContext(data: Value, repoUrl: string, branch: Value): map<string, Value> {
    map["analysis" := AnalysisRecord(data), "repo_url" := Str(repoUrl), "branch" := branch]
  }

  /** With the analysis record passed, the pipeline is the one of the detected language. */
  lemma GenerationUsesDetectedLanguage(structure: CodeAnalysis.Structure, deps: seq<(string, string)>,
                                       analysis: CodeAnalysis.Analysis, repoUrl: string, branch: Value)
    ensures PipelineTemplate.Execute(PipelineContext(
              CodeAnalysis.ResultData(structure, deps, analysis), repoUrl, branch))
            == PipelineTemplate.Generated(analysis.language)
  {
    var record := analysis.ToValue();
    var data := CodeAnalysis.ResultData(structure, deps, analysis);
    assert AnalysisRecord(data) == record;
    var context := PipelineContext(data, repoUrl, branch);
    assert PipelineTemplate.AnalysisOf(context) == record;
    assert "language" in record.fields && Truthy(record) && record.Obj?;
    assert PipelineTemplate.LanguageKey(record.fields) == Success(analysis.language);
  }

  /** The generation job: run the template agent on the analysis and store its reply under the
      operation id. */
  method RunGeneration(store: Store, id: string, data: Value, repoUrl: string, branch: Value)
    modifies store
    ensures store.Operations()
      == old(store.Operations())[id := PipelineTemplate.Execute(PipelineContext(data, repoUrl, branch)).ToValue()]
  {
    var result := PipelineTemplate.Execute(PipelineContext(data, repoUrl, branch));
    store.Set(id, result.ToValue());
  }
}
