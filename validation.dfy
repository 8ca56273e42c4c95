/** The validation agent: checks a pipeline (with a stand-in for GitLab's CI Lint that accepts
    everything), asks OpenAI for fixes when a pipeline is refused and remembers the answers per
    set of errors, and words a fixed hint per error. OpenAI, `ast.literal_eval` and the GitLab
    project lookup are oracles. */
module Validation {
  import opened Wrappers
  import opened Json
  import opened Strings
  import opened StringOrder
  import opened GitLab
  import opened BaseAgent

  // ---------------------------------------------------------------- configuration

  const MissingConfig: string := "GitLab configuration is missing"

  datatype Config = Config(url: string, token: string)

  /** The check in `__init__`: both GITLAB_URL and GITLAB_TOKEN must be set and non-empty. */
  function Configure(url: Option<string>, token: Option<string>): (r: Result<Config, string>)
    ensures r.Success? <==> url.Some? && url.value != [] && token.Some? && token.value != []
    ensures r.Success? ==> r.value == Config(url.value, token.value)
    ensures r.Failure? ==> r.error == MissingConfig
  {
    if url.None? || url.value == [] || token.None? || token.value == [] then Failure(MissingConfig)
    else Success(Config(url.value, token.value))
  }

  // ---------------------------------------------------------------- asking for fixes

  function Min(a: nat, b: nat): nat {
    if a <= b then a else b
  }

  const PromptHead: string := "Fix GitLab CI errors: "
  const PromptTail: string := ". Return only a list of fixes."

  /** The prompt of `_get_suggestions`: the first three errors, comma-separated. */
  function Prompt(errors: seq<string>): (p: string)
    ensures StartsWith(p, PromptHead) && EndsWith(p, PromptTail)
  {
    var p := PromptHead + Join(errors[..Min(3, |errors|)], ", ") + PromptTail;
    assert p[..|PromptHead|] == PromptHead;
    assert p[|p| - |PromptTail|..] == PromptTail;
    p
  }

  /** Errors after the third never reach the prompt. */
  lemma PromptReadsThreeErrors(a: seq<string>, b: seq<string>)
    requires |a| >= 3 && |b| >= 3 && a[..3] == b[..3]
    ensures Prompt(a) == Prompt(b)
  {
  }

  /** What `_get_suggestions` keeps from a reply: the list `ast.literal_eval` reads from it, or
      the reply itself as the only suggestion when it reads no list (or raises: None here). */
  function Parsed(reply: string, literalEval: string -> Option<Value>): (r: seq<Value>)
    ensures (literalEval(reply).Some? && literalEval(reply).value.Arr?) ==> r == literalEval(reply).value.items
    ensures !(literalEval(reply).Some? && literalEval(reply).value.Arr?) ==> r == [Str(reply)]
  {
    match literalEval(reply)
    case Some(Arr(items)) => items
    case _ => [Str(reply)]
  }

  const SuggestionError: string := "Error getting suggestions: "

  /** The cache key of a list of errors: `tuple(sorted(errors))`. */
  function CacheKey(errors: seq<string>): (k: seq<string>)
    ensures Sorted(k) && multiset(k) == multiset(errors)
  {
    Sort(errors)
  }

  /** Any rearrangement of the same errors, duplicates included, finds the same entry, and
      nothing else does. */
  lemma CacheKeyIffPermutation(a: seq<string>, b: seq<string>)
    ensures CacheKey(a) == CacheKey(b) <==> multiset(a) == multiset(b)
  {
    SortSameIffPermutation(a, b);
  }

  // ---------------------------------------------------------------- validation records

  /** The dict `_validate_pipeline` returns, with the suggestions `execute` may add. */
  datatype Report = Report(valid: bool, errors: seq<string>, warnings: seq<string>,
                           mergedYaml: string, suggestions: Option<seq<Value>>)
  {
    function ToValue(): (v: Value)
      ensures v.Obj? && ("suggestions" in v.fields <==> suggestions.Some?)
      ensures Field(v, "valid") == Some(Bool(valid))
      ensures Field(v, "merged_yaml") == Some(Str(mergedYaml))
    {
      var base := map["valid" := Bool(valid), "errors" := Arr(Strs(errors)),
                       "warnings" := Arr(Strs(warnings)), "merged_yaml" := Str(mergedYaml)];
      Obj(if suggestions.Some? then base["suggestions" := Arr(suggestions.value)] else base)
    }
  }

  /** `_validate_pipeline`: the stand-in for CI Lint, which accepts every text as it is. */
  function ValidatePipeline(yaml: string): (r: Report)
    ensures r.valid && r.errors == [] && r.warnings == [] && r.mergedYaml == yaml
    ensures r.suggestions.None?
  {
    Report(true, [], [], yaml, None)
  }

  // ---------------------------------------------------------------- fixed hints

  /** The hint `_get_basic_suggestions` gives for one error: the first keyword found in the
      lower-cased error decides. */
  function BasicSuggestion(error: string): string {
    var e := Lower(error);
    if Contains(e, "syntax") then "Check YAML syntax and indentation"
    else if Contains(e, "stage") then "Ensure all jobs have a valid stage defined"
    else if Contains(e, "script") then "Each job must have a script section"
    else if Contains(e, "image") then "Specify a valid Docker image for the job"
    else "Review and fix: " + error
  }

  function WarningSuggestion(warning: string): string {
    "Consider addressing: " + warning
  }

  /** `_get_basic_suggestions`: one hint per error, then one per warning, in their order. */
  method GetBasicSuggestions(errors: seq<string>, warnings: seq<string>) returns (r: seq<string>)
    ensures |r| == |errors| + |warnings|
    ensures forall i :: 0 <= i < |errors| ==> r[i] == BasicSuggestion(errors[i])
    ensures forall i :: 0 <= i < |warnings| ==> r[|errors| + i] == WarningSuggestion(warnings[i])
  {
    r := [];
    for i := 0 to |errors|
      invariant |r| == i
      invariant forall k :: 0 <= k < i ==> r[k] == BasicSuggestion(errors[k])
    {
      r := r + [BasicSuggestion(errors[i])];
    }
    for i := 0 to |warnings|
      invariant |r| == |errors| + i
      invariant forall k :: 0 <= k < |errors| ==> r[k] == BasicSuggestion(errors[k])
      invariant forall k :: 0 <= k < i ==> r[|errors| + k] == WarningSuggestion(warnings[k])
    {
      r := r + ["Consider addressing: " + warnings[i]];
    }
  }

  /** The generic hint is given exactly when none of the four keywords occurs. */
  lemma BasicSuggestionFallback(error: string)
    ensures BasicSuggestion(error) == "Review and fix: " + error <==>
      !Contains(Lower(error), "syntax") && !Contains(Lower(error), "stage")
      && !Contains(Lower(error), "script") && !Contains(Lower(error), "image")
  {
    var generic := "Review and fix: " + error;
    assert generic[0] == 'R';
    assert "Check YAML syntax and indentation"[0] == 'C';
    assert "Ensure all jobs have a valid stage defined"[0] == 'E';
    assert "Each job must have a script section"[0] == 'E';
    assert "Specify a valid Docker image for the job"[0] == 'S';
  }

  /** An error naming both a stage and a script gets the stage hint: keywords are tried in the
      order syntax, stage, script, image. */
  lemma StageBeforeScript(error: string)
    requires !Contains(Lower(error), "syntax") && Contains(Lower(error), "stage")
    ensures BasicSuggestion(error) == "Ensure all jobs have a valid stage defined"
  {
  }

  // ---------------------------------------------------------------- the agent

  class ValidationAgent {
    const config: Config
    /** `suggestion_cache`: fixes per sorted tuple of errors. */
    var cache: map<seq<string>, seq<Value>>
    /** The prompts sent to OpenAI so far, in order. */
    ghost var prompts: seq<string>

    constructor (config: Config)
      ensures this.config == config && cache == map[] && prompts == []
    {
      this.config := config;
      cache := map[];
      prompts := [];
    }

    /** `_get_suggestions`. `complete` is OpenAI's answer to a prompt, or the text of the
        exception raised on the way. */
    method GetSuggestions(errors: seq<string>, complete: string -> Result<string, string>,
                          literalEval: string -> Option<Value>) returns (r: seq<Value>)
      modifies this
      ensures CacheKey(errors) in old(cache) ==>
        r == old(cache)[CacheKey(errors)] && cache == old(cache) && prompts == old(prompts)
      ensures CacheKey(errors) !in old(cache) ==>
        prompts == old(prompts) + [Prompt(errors)]
        && match complete(Prompt(errors))
           case Failure(e) => r == [Str(SuggestionError + e)] && cache == old(cache)
           case Success(reply) =>
             r == Parsed(reply, literalEval) && cache == old(cache)[CacheKey(errors) := r]
    {
      var key := Sort(errors);
      if key in cache {
        return cache[key];
      }
      var prompt := PromptHead + Join(errors[..Min(3, |errors|)], ", ") + PromptTail;
      prompts := prompts + [prompt];
      var reply := complete(prompt);
      if reply.Failure? {
        return [Str(SuggestionError + reply.error)];
      }
      var list := literalEval(reply.value);
      if list.Some? && list.value.Arr? {
        r := list.value.items;
      } else {
        r := [Str(reply.value)];
      }
      cache := cache[key := r];
    }

    /** The end of `execute`: add suggestions to a refused pipeline's report and wrap it. */
    method Complete(report: Report, complete: string -> Result<string, string>,
                    literalEval: string -> Option<Value>) returns (r: Reply)
      modifies this
      ensures r.status == "success" && r.message == "Pipeline validation completed"
      ensures report.valid ==>
        r.data == report.ToValue() && cache == old(cache) && prompts == old(prompts)
      ensures !report.valid ==>
        exists s :: r.data == report.(suggestions := Some(s)).ToValue()
          && (CacheKey(report.errors) in old(cache) ==> s == old(cache)[CacheKey(report.errors)])
      ensures !report.valid && CacheKey(report.errors) in old(cache) ==>
        r.data == report.(suggestions := Some(old(cache)[CacheKey(report.errors)])).ToValue()
        && cache == old(cache) && prompts == old(prompts)
      ensures !report.valid && CacheKey(report.errors) !in old(cache) ==>
        prompts == old(prompts) + [Prompt(report.errors)]
        && match complete(Prompt(report.errors))
           case Failure(e) =>
             r.data == report.(suggestions := Some([Str(SuggestionError + e)])).ToValue()
             && cache == old(cache)
           case Success(reply) =>
             r.data == report.(suggestions := Some(Parsed(reply, literalEval))).ToValue()
             && cache == old(cache)[CacheKey(report.errors) := Parsed(reply, literalEval)]
    {
      var result := report;
      if !report.valid {
        var s := GetSuggestions(report.errors, complete, literalEval);
        result := report.(suggestions := Some(s));
      }
      r := Reply("success", "Pipeline validation completed", result.ToValue());
    }

    /** `execute`. A context without "pipeline_yaml" fails on the slice in its log line, before
        the emptiness test; a context without "repo_url" fails on `split`. */
    method Execute<P>(pipelineYaml: Option<string>, repoUrl: Option<string>,
                      lookup: string -> Result<P, string>,
                      complete: string -> Result<string, string>,
                      literalEval: string -> Option<Value>) returns (r: Reply)
      modifies this
      ensures cache == old(cache) && prompts == old(prompts)
      ensures pipelineYaml.None? ==> r == FormatError("'NoneType' object is not subscriptable")
      ensures pipelineYaml == Some([]) ==> r == FormatError("Pipeline YAML is required")
      ensures pipelineYaml.Some? && pipelineYaml.value != [] && repoUrl.None? ==>
        r == FormatError("'NoneType' object has no attribute 'split'")
      ensures pipelineYaml.Some? && pipelineYaml.value != [] && repoUrl.Some? ==>
        match lookup(SimpleProjectPath(repoUrl.value))
        case Failure(e) => r == FormatError(e)
        case Success(_) =>
          r == Reply("success", "Pipeline validation completed",
                     ValidatePipeline(pipelineYaml.value).ToValue())
    {
      if pipelineYaml.None? {
        return FormatError("'NoneType' object is not subscriptable");
      }
      var yaml := pipelineYaml.value;
      if yaml == [] {
        return FormatError("Pipeline YAML is required");
      }
      if repoUrl.None? {
        return FormatError("'NoneType' object has no attribute 'split'");
      }
      var project := lookup(SimpleProjectPath(repoUrl.value));
      if project.Failure? {
        return FormatError(project.error);
      }
      r := Complete(ValidatePipeline(yaml), complete, literalEval);
    }
  }
}
