/** The template pipeline agent: three per-language tables (Docker image, build command, test
    command) fill a fixed GitLab CI file with a build, a test and a deploy job. The file is
    modelled twice: as the literal text the agent formats, and as a structured document whose
    rendering is proved to be that text, so that its shape can be stated job by job. */
module PipelineTemplate {
  import opened Wrappers
  import opened Json
  import opened BaseAgent

  // ---------------------------------------------------------------- the three tables

  const DefaultImage: string := "alpine:latest"
  const DefaultBuild: string := "echo 'No build commands defined'"
  const DefaultTest: string := "echo 'No test commands defined'"

  /** The languages that have an entry in each of the three tables. */
  const Languages: set<string> := {"python", "javascript", "typescript", "java", "ruby", "php", "go"}

  /** `_get_language_image`. */
  function LanguageImage(language: string): (r: string)
    ensures language !in Languages <==> r == DefaultImage
  {
    match language
    case "python" => "python:3.9"
    case "javascript" => "node:16"
    case "typescript" => "node:16"
    case "java" => "maven:3.8"
    case "ruby" => "ruby:3.0"
    case "php" => "php:8.0"
    case "go" => "golang:1.16"
    case _ => DefaultImage
  }

  /** `_get_build_commands`. */
  function BuildCommands(language: string): (r: string)
    ensures language !in Languages <==> r == DefaultBuild
  {
    match language
    case "python" => "pip install -r requirements.txt && python setup.py build"
    case "javascript" => "npm install && npm run build"
    case "typescript" => "npm install && npm run build"
    case "java" => "mvn clean package"
    case "ruby" => "bundle install && bundle exec rake build"
    case "php" => "composer install && php artisan build"
    case "go" => "go build -o app"
    case _ => DefaultBuild
  }

  /** `_get_test_commands`. */
  function TestCommands(language: string): (r: string)
    ensures language !in Languages <==> r == DefaultTest
  {
    match language
    case "python" => "python -m pytest"
    case "javascript" => "npm test"
    case "typescript" => "npm test"
    case "java" => "mvn test"
    case "ruby" => "bundle exec rspec"
    case "php" => "php artisan test"
    case "go" => "go test ./..."
    case _ => DefaultTest
  }

  /** JavaScript and TypeScript projects are built, tested and run alike. */
  lemma JavaScriptIsTypeScript()
    ensures LanguageImage("javascript") == LanguageImage("typescript")
    ensures BuildCommands("javascript") == BuildCommands("typescript")
    ensures TestCommands("javascript") == TestCommands("typescript")
  {
  }

  /** Only JavaScript and TypeScript share an image: every other known language has its own. */
  lemma ImagesOtherwiseDistinct(a: string, b: string)
    requires a in Languages && b in Languages && a != b
    requires {a, b} != {"javascript", "typescript"}
    ensures LanguageImage(a) != LanguageImage(b)
  {
  }

  // ---------------------------------------------------------------- the text

  /** Lines written out, each followed by a newline. */
  function Text(lines: seq<string>): string
    decreases |lines|
  {
    if |lines| == 0 then [] else lines[0] + "\n" + Text(lines[1..])
  }

  /** The lines of the f-string in `_generate_basic_pipeline`, with its three holes filled and
      cut at the empty lines between its parts; the text opens with an empty line and ends with
      a newline. */
  function PipelineLines(image: string, build: string, test: string): seq<string> {
    Preamble + [""] + BuildSection(image, build) + [""] + TestSection(image, test)
    + [""] + DeploySection
  }

  /** The fixed commands of the three scripts. */
  const BuildEcho: string := "echo \"Building application...\""
  const TestEcho: string := "echo \"Running tests...\""
  const DeployEcho: string := "echo \"Deploying application...\""
  const DeployDone: string := "echo \"Deployment completed successfully\""

  const Preamble: seq<string> :=
    [ "",
      "stages:",
      "  - build",
      "  - test",
      "  - deploy",
      "",
      "variables:",
      "  DOCKER_DRIVER: overlay2" ]

  function BuildSection(image: string, build: string): seq<string> {
    [ "build:",
      "  stage: build",
      "  image: " + image,
      "  script:",
      "    - " + BuildEcho,
      "    - " + build,
      "  artifacts:",
      "    paths:",
      "      - build/",
      "    expire_in: 1 week" ]
  }

  function TestSection(image: string, test: string): seq<string> {
    [ "test:",
      "  stage: test",
      "  image: " + image,
      "  script:",
      "    - " + TestEcho,
      "    - " + test,
      "  dependencies:",
      "    - build" ]
  }

  const DeploySection: seq<string> :=
    [ "deploy:",
      "  stage: deploy",
      "  image: alpine:latest",
      "  script:",
      "    - " + DeployEcho,
      "    - " + DeployDone,
      "  only:",
      "    - main" ]

  /** `_generate_basic_pipeline` for a language name. */
  function BasicPipeline(language: string): string {
    Text(PipelineLines(LanguageImage(language), BuildCommands(language), TestCommands(language)))
  }

  // ---------------------------------------------------------------- the document

  /** One job of a GitLab CI file, with the keys the template uses. */
  datatype Job = Job(name: string, stage: string, image: string, script: seq<string>,
                     artifacts: seq<string>, expireIn: Option<string>,
                     dependencies: seq<string>, only: seq<string>)

  /** A GitLab CI file: its stages, its variables (in order) and its jobs (in order). */
  datatype Pipeline = Pipeline(stages: seq<string>, variables: seq<(string, string)>, jobs: seq<Job>)

  /** A YAML block list, one item per line, each after `indent` and "- ". */
  function Items(indent: string, xs: seq<string>): (ls: seq<string>)
    ensures |ls| == |xs| && forall i :: 0 <= i < |xs| ==> ls[i] == indent + "- " + xs[i]
  {
    seq(|xs|, i requires 0 <= i < |xs| => indent + "- " + xs[i])
  }

  function Variables(vs: seq<(string, string)>): (ls: seq<string>)
    ensures |ls| == |vs| && forall i :: 0 <= i < |vs| ==> ls[i] == "  " + vs[i].0 + ": " + vs[i].1
  {
    seq(|vs|, i requires 0 <= i < |vs| => "  " + vs[i].0 + ": " + vs[i].1)
  }

  /** The optional blocks of a job, each only when it has something to say. */
  function Block(key: string, ls: seq<string>): seq<string> {
    if |ls| == 0 then [] else [key + ":"] + ls
  }

  function Artifacts(j: Job): seq<string> {
    if |j.artifacts| == 0 && j.expireIn.None? then []
    else
      ["  artifacts:"] + Block("    paths", Items("      ", j.artifacts))
      + (if j.expireIn.None? then [] else ["    expire_in: " + j.expireIn.value])
  }

  function JobLines(j: Job): seq<string> {
    [j.name + ":", "  stage: " + j.stage, "  image: " + j.image, "  script:"]
    + Items("    ", j.script)
    + Artifacts(j)
    + Block("  dependencies", Items("    ", j.dependencies))
    + Block("  only", Items("    ", j.only))
  }

  /** Jobs, each after an empty line. */
  function JobsLines(js: seq<Job>): seq<string>
    decreases |js|
  {
    if |js| == 0 then [] else [""] + JobLines(js[0]) + JobsLines(js[1..])
  }

  /** The lines of a pipeline's YAML text, after the empty first line the template has. */
  function Render(p: Pipeline): seq<string> {
    ["", "stages:"] + Items("  ", p.stages) + ["", "variables:"] + Variables(p.variables)
    + JobsLines(p.jobs)
  }

  function BuildJob(image: string, build: string): Job {
    Job("build", "build", image, [BuildEcho, build],
        ["build/"], Some("1 week"), [], [])
  }

  function TestJob(image: string, test: string): Job {
    Job("test", "test", image, [TestEcho, test], [], None, ["build"], [])
  }

  const DeployJob: Job :=
    Job("deploy", "deploy", DefaultImage,
        [DeployEcho, DeployDone],
        [], None, [], ["main"])

  /** The document the template describes: three stages, one job per stage in stage order, the
      build and test jobs on the language's image, the test job after the build job, and the
      deploy job on alpine:latest for the main branch only. */
  function BasicDocument(image: string, build: string, test: string): (p: Pipeline)
    ensures p.stages == ["build", "test", "deploy"]
    ensures |p.jobs| == 3 && forall i :: 0 <= i < 3 ==> p.jobs[i].stage == p.stages[i]
    ensures p.jobs[0].image == p.jobs[1].image == image
    ensures p.jobs[2].image == DefaultImage && p.jobs[2].only == ["main"]
    ensures p.jobs[1].dependencies == [p.jobs[0].name]
  {
    Pipeline(["build", "test", "deploy"], [("DOCKER_DRIVER", "overlay2")],
             [BuildJob(image, build), TestJob(image, test), DeployJob])
  }

  /** The first six lines of a job with a two-command script, and what follows them. */
  lemma JobHead(j: Job)
    requires |j.script| == 2
    ensures |JobLines(j)| >= 6
    ensures JobLines(j)[0] == j.name + ":" && JobLines(j)[1] == "  stage: " + j.stage
    ensures JobLines(j)[2] == "  image: " + j.image && JobLines(j)[3] == "  script:"
    ensures JobLines(j)[4] == "    - " + j.script[0] && JobLines(j)[5] == "    - " + j.script[1]
    ensures JobLines(j)[6..]
      == Artifacts(j) + Block("  dependencies", Items("    ", j.dependencies)) + Block("  only", Items("    ", j.only))
  {
    var head := [j.name + ":", "  stage: " + j.stage, "  image: " + j.image, "  script:"];
    var items := Items("    ", j.script);
    ScriptItem(j.script[0]);
    ScriptItem(j.script[1]);
    var rest := Artifacts(j) + Block("  dependencies", Items("    ", j.dependencies)) + Block("  only", Items("    ", j.only));
    assert JobLines(j) == head + items + rest;
  }

  lemma ScriptItem(x: string)
    ensures "    " + "- " + x == "    - " + x
  {
    assert "    " + "- " == "    - ";
  }

  // The literal lines of each job, as the job's fields and the YAML keys put them together.

  lemma BuildLiterals()
    ensures "build" + ":" == "build:" && "  stage: " + "build" == "  stage: build"
    ensures "      " + "- " + "build/" == "      - build/" && "    paths" + ":" == "    paths:"
    ensures "    expire_in: " + "1 week" == "    expire_in: 1 week"
  {
  }

  lemma TestLiterals()
    ensures "test" + ":" == "test:" && "  stage: " + "test" == "  stage: test"
    ensures "    - " + "build" == "    - build" && "  dependencies" + ":" == "  dependencies:"
  {
  }

  lemma DeployLiterals()
    ensures "deploy" + ":" == "deploy:" && "  stage: " + "deploy" == "  stage: deploy"
    ensures "  image: " + DefaultImage == "  image: alpine:latest"
    ensures "    - " + "main" == "    - main" && "  only" + ":" == "  only:"
  {
  }

  lemma BuildJobLines(image: string, build: string)
    ensures JobLines(BuildJob(image, build)) == BuildSection(image, build)
  {
    var j := BuildJob(image, build);
    var ls := BuildSection(image, build);
    var l := JobLines(j);
    JobHead(j);
    BuildLiterals();
    assert Items("    ", j.dependencies) == [] && Items("    ", j.only) == [];
    assert l[6..] == ls[6..];
    assert l[0] == ls[0] && l[1] == ls[1] && l[2] == ls[2];
    assert l[3] == ls[3] && l[4] == ls[4] && l[5] == ls[5];
    assert l[..6] == ls[..6];
    assert l == l[..6] + l[6..];
  }

  lemma TestJobLines(image: string, test: string)
    ensures JobLines(TestJob(image, test)) == TestSection(image, test)
  {
    var j := TestJob(image, test);
    var ls := TestSection(image, test);
    var l := JobLines(j);
    JobHead(j);
    TestLiterals();
    ScriptItem("build");
    assert Artifacts(j) == [] && Items("    ", j.only) == [];
    assert l[6..] == ls[6..];
    assert l[0] == ls[0] && l[1] == ls[1] && l[2] == ls[2];
    assert l[3] == ls[3] && l[4] == ls[4] && l[5] == ls[5];
    assert l[..6] == ls[..6];
    assert l == l[..6] + l[6..];
  }

  lemma DeployJobLines()
    ensures JobLines(DeployJob) == DeploySection
  {
    var ls := DeploySection;
    var l := JobLines(DeployJob);
    JobHead(DeployJob);
    DeployLiterals();
    ScriptItem("main");
    assert Artifacts(DeployJob) == [] && Items("    ", DeployJob.dependencies) == [];
    assert l[6..] == ls[6..];
    assert l[0] == ls[0] && l[1] == ls[1] && l[2] == ls[2];
    assert l[3] == ls[3] && l[4] == ls[4] && l[5] == ls[5];
    assert l[..6] == ls[..6];
    assert l == l[..6] + l[6..];
  }

  lemma StageLines()
    ensures Items("  ", ["build", "test", "deploy"]) == ["  - build", "  - test", "  - deploy"]
  {
    assert "  " + "- " + "build" == "  - build";
    assert "  " + "- " + "test" == "  - test";
    assert "  " + "- " + "deploy" == "  - deploy";
  }

  lemma VariableLines()
    ensures Variables([("DOCKER_DRIVER", "overlay2")]) == ["  DOCKER_DRIVER: overlay2"]
  {
    assert "  " + "DOCKER_DRIVER" + ": " + "overlay2" == "  DOCKER_DRIVER: overlay2";
  }

  lemma PreambleRendered()
    ensures ["", "stages:"] + Items("  ", ["build", "test", "deploy"]) + ["", "variables:"]
      + Variables([("DOCKER_DRIVER", "overlay2")]) == Preamble
  {
    StageLines();
    VariableLines();
  }

  lemma Regroup<T>(a: seq<T>, b: seq<T>, c: seq<T>, d: seq<T>, e: seq<T>, f: seq<T>, g: seq<T>)
    ensures a + b + c + d + e + f + g == a + (b + c + (d + e + (f + g)))
  {
  }

  /** The template is the rendering of its document, line for line. */
  lemma TemplateIsRendered(image: string, build: string, test: string)
    ensures PipelineLines(image, build, test) == Render(BasicDocument(image, build, test))
  {
    var p := BasicDocument(image, build, test);
    var b := BuildSection(image, build);
    var t := TestSection(image, test);
    BuildJobLines(image, build);
    TestJobLines(image, test);
    DeployJobLines();
    PreambleRendered();
    assert JobsLines(p.jobs[2..]) == [""] + DeploySection + [];
    assert JobsLines(p.jobs[1..]) == [""] + t + JobsLines(p.jobs[2..]);
    assert JobsLines(p.jobs) == [""] + b + JobsLines(p.jobs[1..]);
    assert [""] + DeploySection + [] == [""] + DeploySection;
    Regroup(Preamble, [""], b, [""], t, [""], DeploySection);
  }

  // ---------------------------------------------------------------- the agent

  /** The language read from an analysis dict: `analysis.get("language", "unknown")`, then used
      as a dict key. A string is looked up; a list or dict raises "unhashable type"; any other
      value matches no key. */
  function LanguageKey(analysis: map<string, Value>): (r: Result<string, string>)
    ensures "language" !in analysis ==> r == Success("unknown")
    ensures "language" in analysis && analysis["language"].Str? ==> r == Success(analysis["language"].s)
    ensures r.Failure? <==> "language" in analysis && (analysis["language"].Arr? || analysis["language"].Obj?)
  {
    if "language" !in analysis then Success("unknown")
    else
      match analysis["language"]
      case Str(s) => Success(s)
      case Arr(_) => Failure("unhashable type: 'list'")
      case Obj(_) => Failure("unhashable type: 'dict'")
      case _ => Success("unknown")
  }

  /** Every language outside the tables, "unknown" included, gets the same file: the three
      defaults filled in. */
  lemma UnknownLanguageGetsDefaults(language: string)
    requires language !in Languages
    ensures BasicPipeline(language) == Text(PipelineLines(DefaultImage, DefaultBuild, DefaultTest))
  {
  }

  /** The success record of `execute`: the generated file under "pipeline_yaml". */
  function Generated(language: string): (r: Reply)
    ensures r.status == "success" && r.message == "Pipeline generation completed"
    ensures Field(r.data, "pipeline_yaml") == Some(Str(BasicPipeline(language)))
  {
    FormatSuccess("Pipeline generation completed",
                  Obj(map["pipeline_yaml" := Str(BasicPipeline(language))]))
  }

  /** The analysis `execute` reads: `context.get("analysis", {})`. */
  function AnalysisOf(context: map<string, Value>): (v: Value)
    ensures "analysis" in context ==> v == context["analysis"]
    ensures "analysis" !in context ==> !Truthy(v)
  {
    if "analysis" in context then context["analysis"] else Obj(map[])
  }

  /** `PipelineAgent.execute` on a context dict. */
  function Execute(context: map<string, Value>): (r: Reply)
    ensures !Truthy(AnalysisOf(context)) ==> r == FormatError("Repository analysis is required")
    ensures Truthy(AnalysisOf(context)) && !AnalysisOf(context).Obj? ==>
      r == FormatError("'" + TypeName(AnalysisOf(context)) + "' object has no attribute 'get'")
    ensures Truthy(AnalysisOf(context)) && AnalysisOf(context).Obj? ==>
      match LanguageKey(AnalysisOf(context).fields)
      case Failure(e) => r == FormatError(e)
      case Success(language) => r == Generated(language)
  {
    var analysis := AnalysisOf(context);
    if !Truthy(analysis) then FormatError("Repository analysis is required")
    else if !analysis.Obj? then FormatError("'" + TypeName(analysis) + "' object has no attribute 'get'")
    else
      match LanguageKey(analysis.fields)
      case Failure(e) => FormatError(e)
      case Success(language) => Generated(language)
  }

  /** What a successful run stores is always the rendering of the template document. */
  lemma ExecuteRendersTemplate(context: map<string, Value>)
    requires Execute(context).status == "success"
    ensures exists image, build, test ::
      Field(Execute(context).data, "pipeline_yaml") == Some(Str(Text(Render(BasicDocument(image, build, test)))))
  {
    var language := LanguageKey(AnalysisOf(context).fields).value;
    TemplateIsRendered(LanguageImage(language), BuildCommands(language), TestCommands(language));
  }

  /** An analysis without a "language" key gets the file for "unknown": every default. */
  lemma NoLanguageMeansDefaults(context: map<string, Value>)
    requires AnalysisOf(context).Obj? && Truthy(AnalysisOf(context))
    requires "language" !in AnalysisOf(context).fields
    ensures Execute(context) == Generated("unknown")
    ensures BasicPipeline("unknown") == Text(PipelineLines(DefaultImage, DefaultBuild, DefaultTest))
  {
    UnknownLanguageGetsDefaults("unknown");
  }
}
