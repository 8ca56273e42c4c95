/** The pipeline-generation agent: asks OpenAI for a GitLab CI file, strips the markdown fence
    around the answer, and when the YAML does not parse, drops fence lines and tries once more.
    OpenAI (with the prompt built from the analysis) and the YAML parser are oracles. */
module PipelineGen {
  import opened Wrappers
  import opened Json
  import opened Strings
  import opened BaseAgent

  const Fence: string := "```"
  const YamlFence: string := "```yaml"

  // ---------------------------------------------------------------- the fence around an answer

  /** The three cuts of `_clean_yaml_response`, in their order. */
  function CutYamlFence(t: string): (r: string)
    ensures |r| <= |t|
  {
    if StartsWith(t, YamlFence) then t[7..] else t
  }

  function CutOpeningFence(t: string): (r: string)
    ensures |r| <= |t|
  {
    if StartsWith(t, Fence) then t[3..] else t
  }

  function CutClosingFence(t: string): (r: string)
    ensures |r| <= |t|
  {
    if EndsWith(t, Fence) then t[..|t| - 3] else t
  }

  /** What `_clean_yaml_response` returns: strip, cut a leading "```yaml", then a leading "```",
      then a trailing "```", and strip again. */
  function CleanedYaml(s: string): (r: string)
    ensures Trimmed(r)
  {
    Strip(CutClosingFence(CutOpeningFence(CutYamlFence(Strip(s)))))
  }

  /** `_clean_yaml_response`, step by step. */
  method CleanYamlResponse(s: string) returns (r: string)
    ensures r == CleanedYaml(s)
  {
    var y := Strip(s);
    ghost var t := y;
    if StartsWith(y, YamlFence) {
      y := y[7..];
    }
    assert y == CutYamlFence(t);
    t := y;
    if StartsWith(y, Fence) {
      y := y[3..];
    }
    assert y == CutOpeningFence(t);
    t := y;
    if EndsWith(y, Fence) {
      y := y[..|y| - 3];
    }
    assert y == CutClosingFence(t);
    r := Strip(y);
  }

  /** An answer with no fence at either end is only stripped of surrounding whitespace. */
  lemma UnfencedIsOnlyStripped(s: string)
    requires !StartsWith(Strip(s), Fence) && !EndsWith(Strip(s), Fence)
    ensures CleanedYaml(s) == Strip(s)
  {
    var t0 := Strip(s);
    YamlFenceIsFenced(t0);
    assert CutYamlFence(t0) == t0;
    assert CutOpeningFence(t0) == t0;
    assert CutClosingFence(t0) == t0;
    StripTrimmed(t0);
  }

  /** Text that opens with "```yaml" opens with "```". */
  lemma YamlFenceIsFenced(t: string)
    ensures StartsWith(t, YamlFence) ==> StartsWith(t, Fence)
  {
    if StartsWith(t, YamlFence) {
      assert t[..3] == t[..7][..3];
    }
  }

  lemma {:induction false} TrimStartSkips(ws: string, b: string)
    requires AllSpace(ws) && (b == [] || !IsSpace(b[0]))
    ensures TrimStart(ws + b) == b
    decreases |ws|
  {
    if |ws| > 0 {
      assert (ws + b)[1..] == ws[1..] + b;
      TrimStartSkips(ws[1..], b);
    } else {
      assert ws + b == b;
    }
  }

  lemma {:induction false} TrimEndSkips(b: string, ws: string)
    requires AllSpace(ws) && (b == [] || !IsSpace(b[|b| - 1]))
    ensures TrimEnd(b + ws) == b
    decreases |ws|
  {
    if |ws| > 0 {
      var n := |ws| - 1;
      assert (b + ws)[..|b + ws| - 1] == b + ws[..n];
      TrimEndSkips(b, ws[..n]);
    } else {
      assert b + ws == b;
    }
  }

  /** Stripping whitespace from around a trimmed text gives the text back. */
  lemma StripAround(ws1: string, b: string, ws2: string)
    requires AllSpace(ws1) && AllSpace(ws2) && Trimmed(b)
    ensures Strip(ws1 + b + ws2) == b
  {
    if b == [] {
      assert ws1 + b + ws2 == ws1 + ws2;
      TrimStartSkips(ws1 + ws2, []);
      assert ws1 + ws2 + [] == ws1 + ws2;
    } else {
      assert ws1 + b + ws2 == ws1 + (b + ws2);
      TrimStartSkips(ws1, b + ws2);
      TrimEndSkips(b, ws2);
    }
  }

  /** A body fenced as a markdown YAML block comes back as it was. */
  lemma FencedBlockRoundTrip(b: string)
    requires Trimmed(b)
    ensures CleanedYaml(YamlFence + "\n" + b + "\n" + Fence) == b
  {
    var s := YamlFence + "\n" + b + "\n" + Fence;
    assert s[0] == '`' && s[|s| - 1] == '`';
    StripTrimmed(s);
    assert s[..7] == YamlFence;
    var t1 := s[7..];
    assert t1 == "\n" + b + "\n" + Fence;
    assert CutYamlFence(s) == t1;
    assert t1[0] == '\n';
    assert CutOpeningFence(t1) == t1;
    assert t1[|t1| - 3..] == Fence;
    var t3 := t1[..|t1| - 3];
    assert CutClosingFence(t1) == t3;
    assert t3 == "\n" + b + "\n";
    StripAround("\n", b, "\n");
  }

  // ---------------------------------------------------------------- dropping fence lines

  /** A line that `_fix_common_yaml_issues` keeps: its stripped form does not open with "```". */
  predicate KeepLine(line: string) {
    !StartsWith(Strip(line), Fence)
  }

  /** The lines that pass `keep`, in their original order. */
  function Filtered(lines: seq<string>, keep: string -> bool): (r: seq<string>)
    ensures |r| <= |lines|
    decreases |lines|
  {
    if |lines| == 0 then []
    else
      var n := |lines| - 1;
      Filtered(lines[..n], keep) + if keep(lines[n]) then [lines[n]] else []
  }

  /** Every line kept passes the test and comes from the input, and when every line passes,
      all are kept. */
  lemma {:induction false} FilteredFacts(lines: seq<string>, keep: string -> bool)
    ensures forall l :: l in Filtered(lines, keep) ==> l in lines && keep(l)
    ensures (forall i :: 0 <= i < |lines| ==> keep(lines[i])) ==> Filtered(lines, keep) == lines
    decreases |lines|
  {
    if |lines| > 0 {
      var n := |lines| - 1;
      FilteredFacts(lines[..n], keep);
      assert lines == lines[..n] + [lines[n]];
      assert forall i :: 0 <= i < n ==> lines[..n][i] == lines[i];
    }
  }

  /** Conversely, every input line that passes the test is kept. */
  lemma {:induction false} FilteredKeepsPassing(lines: seq<string>, keep: string -> bool)
    ensures forall i :: 0 <= i < |lines| && keep(lines[i]) ==> lines[i] in Filtered(lines, keep)
    decreases |lines|
  {
    if |lines| > 0 {
      var n := |lines| - 1;
      FilteredKeepsPassing(lines[..n], keep);
      forall i | 0 <= i < |lines| && keep(lines[i]) ensures lines[i] in Filtered(lines, keep) {
        if i < n {
          assert lines[..n][i] == lines[i];
        }
      }
    }
  }

  /** Filtering two runs of lines one after the other is filtering their concatenation: the
      kept lines keep their order and each passing line is kept once. */
  lemma {:induction false} FilteredAppend(a: seq<string>, b: seq<string>, keep: string -> bool)
    ensures Filtered(a + b, keep) == Filtered(a, keep) + Filtered(b, keep)
    decreases |b|
  {
    if |b| == 0 {
      assert a + b == a;
    } else {
      var n := |b| - 1;
      assert (a + b)[..|a + b| - 1] == a + b[..n];
      assert (a + b)[|a + b| - 1] == b[n];
      FilteredAppend(a, b[..n], keep);
    }
  }

  lemma FilteredStep(lines: seq<string>, keep: string -> bool, i: nat)
    requires i < |lines|
    ensures Filtered(lines[..i + 1], keep)
      == Filtered(lines[..i], keep) + if keep(lines[i]) then [lines[i]] else []
  {
    assert lines[..i + 1][..i] == lines[..i];
  }

  /** What `_fix_common_yaml_issues` returns: the lines that are not fence lines, joined again. */
  function Fixed(s: string): string {
    Join(Filtered(Split(s, "\n"), KeepLine), "\n")
  }

  /** The loop of `_fix_common_yaml_issues`, with the fence test `line.strip().startswith("```")`
      given as `!keep(line)`. The `in_yaml` toggle flips on every fence line but never decides
      what is kept, since a line reaching that test is never a fence line. */
  method DropFenceLines(lines: seq<string>, keep: string -> bool) returns (kept: seq<string>)
    ensures kept == Filtered(lines, keep)
  {
    kept := [];
    var inYaml := false;
    var i := 0;
    while i < |lines|
      invariant 0 <= i <= |lines|
      invariant kept == Filtered(lines[..i], keep)
    {
      var line := lines[i];
      FilteredStep(lines, keep, i);
      if !keep(line) {
        inYaml := !inYaml;
        i := i + 1;
        continue;
      }
      if inYaml || keep(line) {
        kept := kept + [line];
      }
      i := i + 1;
    }
    assert lines[..|lines|] == lines;
  }

  /** `_fix_common_yaml_issues`: split into lines, drop the fence lines, join again. */
  method FixCommonYamlIssues(s: string) returns (r: string)
    ensures r == Fixed(s)
  {
    var lines := Split(s, "\n");
    var kept := DropFenceLines(lines, KeepLine);
    r := Join(kept, "\n");
  }

  /** Filtering the lines of a text and joining them again is idempotent when the empty line
      passes: the kept lines hold no newline, and each passes. */
  lemma RefilterJoined(s: string, keep: string -> bool)
    requires keep([])
    ensures var j := Join(Filtered(Split(s, "\n"), keep), "\n");
      Join(Filtered(Split(j, "\n"), keep), "\n") == j
  {
    var lines := Split(s, "\n");
    var kept := Filtered(lines, keep);
    FilteredFacts(lines, keep);
    SplitPiecesAvoid(s, '\n');
    if |kept| > 0 {
      forall i | 0 <= i < |kept| ensures '\n' !in kept[i] && keep(kept[i]) {
        assert kept[i] in kept;
      }
      SplitJoin(kept, '\n');
      FilteredFacts(kept, keep);
    } else {
      assert Join(kept, "\n") == [];
      assert Split([], "\n") == [[]];
      FilteredFacts([[]], keep);
    }
  }

  /** Fixing twice is fixing once. */
  lemma FixedIdempotent(s: string)
    ensures Fixed(Fixed(s)) == Fixed(s)
  {
    assert KeepLine([]);
    RefilterJoined(s, KeepLine);
  }

  // ---------------------------------------------------------------- the agent

  function Generated(yaml: string): (r: Reply)
    ensures r.status == "success" && Field(r.data, "pipeline_yaml") == Some(Str(yaml))
  {
    Reply("success", "Pipeline generated successfully", Obj(map["pipeline_yaml" := Str(yaml)]))
  }

  const InvalidYaml: string := "Generated pipeline has invalid YAML syntax: "

  /** The reply `execute` builds from a cleaned answer: accepted as is, or after one pass of
      `_fix_common_yaml_issues`, or refused with the parser's error on the fixed text. Whatever
      it accepts, the parser accepts. */
  function Checked(first: string, yamlError: string -> Option<string>): (r: Reply)
    ensures yamlError(first).None? ==> r == Generated(first)
    ensures yamlError(first).Some? && yamlError(Fixed(first)).None? ==> r == Generated(Fixed(first))
    ensures yamlError(first).Some? && yamlError(Fixed(first)).Some? ==>
      r == FormatError(InvalidYaml + yamlError(Fixed(first)).value)
    ensures r.status == "success" ==> exists y :: r == Generated(y) && yamlError(y).None?
  {
    if yamlError(first).None? then Generated(first)
    else
      var second := Fixed(first);
      match yamlError(second)
      case None => Generated(second)
      case Some(e) => FormatError(InvalidYaml + e)
  }

  /** The YAML check of `execute`, which reassigns the text it checks. */
  method CheckYaml(first: string, yamlError: string -> Option<string>) returns (r: Reply)
    ensures r == Checked(first, yamlError)
  {
    var pipelineYaml := first;
    if yamlError(pipelineYaml).Some? {
      pipelineYaml := FixCommonYamlIssues(pipelineYaml);
      var e := yamlError(pipelineYaml);
      if e.Some? {
        return FormatError(InvalidYaml + e.value);
      }
    }
    r := Generated(pipelineYaml);
  }

  /** Whether the context's "analysis" entry is present and truthy. */
  predicate HasAnalysis(context: Value) {
    Field(context, "analysis").Some? && Truthy(Field(context, "analysis").value)
  }

  /** `PipelineGenAgent.execute` on a context dict. `generate` is the OpenAI answer to the prompt
      built from a dict analysis (or the exception raised on the way); `yamlError` is the error
      `yaml.safe_load` raises on a text, None when it parses. */
  method Execute(context: Value, generate: Value -> Result<string, string>,
                 yamlError: string -> Option<string>) returns (r: Reply)
    ensures !HasAnalysis(context) ==> r == FormatError("Repository analysis is required")
    ensures HasAnalysis(context) && !Field(context, "analysis").value.Obj? ==>
      r == FormatError("'" + TypeName(Field(context, "analysis").value) + "' object has no attribute 'get'")
    ensures HasAnalysis(context) && Field(context, "analysis").value.Obj? ==>
      match generate(Field(context, "analysis").value)
      case Failure(e) => r == FormatError(e)
      case Success(answer) => r == Checked(CleanedYaml(answer), yamlError)
    ensures r.status == "success" ==> exists y :: r == Generated(y) && yamlError(y).None?
  {
    var analysis := Field(context, "analysis");
    if analysis.None? || !Truthy(analysis.value) {
      return FormatError("Repository analysis is required");
    }
    if !analysis.value.Obj? {
      return FormatError("'" + TypeName(analysis.value) + "' object has no attribute 'get'");
    }
    var reply := generate(analysis.value);
    if reply.Failure? {
      return FormatError(reply.error);
    }
    var pipelineYaml := CleanYamlResponse(reply.value);
    r := CheckYaml(pipelineYaml, yamlError);
  }
}
