/** The code-analysis agent: reads a GitLab repository's file tree and manifest files and
    derives the language, the build, test and deploy steps, and whether there is a Dockerfile
    and tests. GitLab is an oracle: a project lookup, a tree listing and a file fetch. */
module CodeAnalysis {
  import opened Wrappers
  import opened Json
  import opened Strings
  import opened GitLab
  import opened BaseAgent

  // ---------------------------------------------------------------- manifests

  /** The manifest files looked for, language by language, in this order. */
  const ManifestTable: seq<(string, seq<string>)> := [
    ("python", ["requirements.txt", "setup.py", "Pipfile"]),
    ("node", ["package.json"]),
    ("java", ["pom.xml", "build.gradle"]),
    ("ruby", ["Gemfile"]),
    ("php", ["composer.json"])
  ]

  /** The content of the first of `files` that can be fetched. */
  function FirstHit(files: seq<string>, fetch: string -> Option<string>): (r: Option<string>)
    ensures r.None? <==> forall i :: 0 <= i < |files| ==> fetch(files[i]).None?
    ensures r.Some? ==>
      exists i :: 0 <= i < |files| && fetch(files[i]) == r && forall j :: 0 <= j < i ==> fetch(files[j]).None?
    decreases |files|
  {
    if |files| == 0 then None
    else if fetch(files[0]).Some? then fetch(files[0])
    else
      var r := FirstHit(files[1..], fetch);
      assert r.Some? ==>
        exists i :: 0 < i < |files| && fetch(files[i]) == r && forall j :: 0 <= j < i ==> fetch(files[j]).None?
      by {
        if r.Some? {
          var i :| 0 <= i < |files| - 1 && fetch(files[1..][i]) == r
            && forall j :: 0 <= j < i ==> fetch(files[1..][j]).None?;
          assert forall j :: 0 <= j < i + 1 ==> fetch(files[j]).None? by {
            forall j | 0 <= j < i + 1 ensures fetch(files[j]).None? {
              if j > 0 { assert files[j] == files[1..][j - 1]; }
            }
          }
        }
      }
      r
  }

  /** What `_analyze_dependencies` returns, keys in insertion order: each language of the table
      with a fetchable manifest, with the content of its first such manifest. */
  function Manifests(table: seq<(string, seq<string>)>, fetch: string -> Option<string>)
    : (r: seq<(string, string)>)
    ensures |r| <= |table|
    ensures r == [] <==> forall k :: 0 <= k < |table| ==> FirstHit(table[k].1, fetch).None?
    ensures forall k :: 0 <= k < |table| && FirstHit(table[k].1, fetch).Some? ==>
      (table[k].0, FirstHit(table[k].1, fetch).value) in r
    decreases |table|
  {
    if |table| == 0 then []
    else
      var n := |table| - 1;
      var before := Manifests(table[..n], fetch);
      assert forall k :: 0 <= k < n ==> table[..n][k] == table[k];
      match FirstHit(table[n].1, fetch)
      case Some(content) => before + [(table[n].0, content)]
      case None => before
  }

  /** The first key is the language of the first table row that has a fetchable manifest. */
  lemma FirstManifest(table: seq<(string, seq<string>)>, fetch: string -> Option<string>, k: nat)
    requires k < |table| && FirstHit(table[k].1, fetch).Some?
    requires forall j :: 0 <= j < k ==> FirstHit(table[j].1, fetch).None?
    ensures Manifests(table, fetch) != []
    ensures Manifests(table, fetch)[0] == (table[k].0, FirstHit(table[k].1, fetch).value)
  {
    ManifestsAreHits(table, fetch);
    var rows := HitRows(table, fetch, |table|);
    assert k in rows;
    assert rows[0] == k by {
      var p :| 0 <= p < |rows| && rows[p] == k;
      assert rows[0] <= k by {
        if p > 0 {
          assert rows[0] < rows[p];
        }
      }
    }
  }

  lemma ManifestsStep(table: seq<(string, seq<string>)>, fetch: string -> Option<string>, t: nat)
    requires t < |table|
    ensures Manifests(table[..t + 1], fetch) == Manifests(table[..t], fetch) +
      match FirstHit(table[t].1, fetch) case Some(c) => [(table[t].0, c)] case None => []
  {
    assert table[..t + 1][..t] == table[..t];
  }

  /** The rows among the first `n` of the table that have a fetchable manifest, in table order. */
  function HitRows(table: seq<(string, seq<string>)>, fetch: string -> Option<string>, n: nat): (rows: seq<nat>)
    requires n <= |table|
    ensures forall i :: 0 <= i < |rows| ==> rows[i] < n && FirstHit(table[rows[i]].1, fetch).Some?
    ensures forall i, j :: 0 <= i < j < |rows| ==> rows[i] < rows[j]
    ensures forall k :: 0 <= k < n && FirstHit(table[k].1, fetch).Some? ==> k in rows
  {
    if n == 0 then []
    else
      var before := HitRows(table, fetch, n - 1);
      if FirstHit(table[n - 1].1, fetch).Some? then before + [n - 1] else before
  }

  /** The entries gathered from the first `n` rows are exactly those rows with a manifest, in
      table order, each paired with the content of its first fetchable manifest. */
  lemma {:induction false} PrefixManifestsAreHits(table: seq<(string, seq<string>)>, fetch: string -> Option<string>, n: nat)
    requires n <= |table|
    ensures var rows := HitRows(table, fetch, n);
            var r := Manifests(table[..n], fetch);
            |r| == |rows|
            && forall i :: 0 <= i < |rows| ==>
                 r[i] == (table[rows[i]].0, FirstHit(table[rows[i]].1, fetch).value)
  {
    if n > 0 {
      PrefixManifestsAreHits(table, fetch, n - 1);
      ManifestsStep(table, fetch, n - 1);
    }
  }

  /** The entries are exactly the rows with a manifest, in table order, each paired with the
      content of its first fetchable manifest. */
  lemma ManifestsAreHits(table: seq<(string, seq<string>)>, fetch: string -> Option<string>)
    ensures var rows := HitRows(table, fetch, |table|);
            var r := Manifests(table, fetch);
            |r| == |rows|
            && forall i :: 0 <= i < |rows| ==>
                 r[i] == (table[rows[i]].0, FirstHit(table[rows[i]].1, fetch).value)
  {
    PrefixManifestsAreHits(table, fetch, |table|);
    assert table[..|table|] == table;
  }

  /** A table whose languages are distinct (a dict's keys) yields each language at most once. */
  lemma ManifestKeysDistinct(table: seq<(string, seq<string>)>, fetch: string -> Option<string>)
    requires forall i, j :: 0 <= i < j < |table| ==> table[i].0 != table[j].0
    ensures var r := Manifests(table, fetch);
            forall i, j :: 0 <= i < j < |r| ==> r[i].0 != r[j].0
  {
    ManifestsAreHits(table, fetch);
  }

  /** `_analyze_dependencies`: for each language, the first manifest that can be fetched. */
  method AnalyzeDependencies(fetch: string -> Option<string>) returns (deps: seq<(string, string)>)
    ensures deps == Manifests(ManifestTable, fetch)
  {
    deps := [];
    var t := 0;
    while t < |ManifestTable|
      invariant 0 <= t <= |ManifestTable|
      invariant deps == Manifests(ManifestTable[..t], fetch)
    {
      var (lang, files) := ManifestTable[t];
      ghost var before := deps;
      var f := 0;
      while f < |files|
        invariant 0 <= f <= |files| && deps == before
        invariant FirstHit(files, fetch) == FirstHit(files[f..], fetch)
      {
        var content := fetch(files[f]);
        if content.Some? {
          deps := deps + [(lang, content.value)];
          break;
        }
        assert files[f..][1..] == files[f + 1..];
        f := f + 1;
      }
      ManifestsStep(ManifestTable, fetch, t);
      t := t + 1;
    }
    assert ManifestTable[..t] == ManifestTable;
  }

  /** A repository with a package.json and no Python manifest is "node", a name that none of the
      later tables (images, commands, build steps) knows. */
  lemma PackageJsonMeansNode(fetch: string -> Option<string>)
    requires fetch("package.json").Some?
    requires forall f :: f in ManifestTable[0].1 ==> fetch(f).None?
    ensures Manifests(ManifestTable, fetch) != [] && Manifests(ManifestTable, fetch)[0].0 == "node"
  {
    assert ManifestTable[1].1[0] == "package.json";
    assert FirstHit(ManifestTable[0].1, fetch).None?;
    FirstManifest(ManifestTable, fetch, 1);
  }

  // ---------------------------------------------------------------- extensions

  /** `file.split(".")[-1].lower()`: the text after the last ".", or the whole name. */
  function Ext(file: string): string {
    Lower(Last(Split(file, ".")))
  }

  /** A name without a "." is its own extension, lower-cased. */
  lemma ExtWithoutDot(file: string)
    requires '.' !in file
    ensures Ext(file) == Lower(file)
  {
    SplitWithout(file, '.');
  }

  /** The extension of every file, in order. */
  function Exts(files: seq<string>): (r: seq<string>)
    ensures |r| == |files| && forall i :: 0 <= i < |files| ==> r[i] == Ext(files[i])
  {
    seq(|files|, i requires 0 <= i < |files| => Ext(files[i]))
  }

  /** How many times `e` occurs in `xs`. */
  function Count(xs: seq<string>, e: string): (n: nat)
    ensures n <= |xs|
    ensures n > 0 <==> e in xs
    decreases |xs|
  {
    if |xs| == 0 then 0
    else
      var n := |xs| - 1;
      assert xs == xs[..n] + [xs[n]];
      Count(xs[..n], e) + if xs[n] == e then 1 else 0
  }

  /** The keys of the `extensions` dict, in insertion order: each value once, at its first
      occurrence. */
  function Distinct(xs: seq<string>): (d: seq<string>)
    ensures forall x :: x in d <==> x in xs
    decreases |xs|
  {
    if |xs| == 0 then []
    else
      var n := |xs| - 1;
      assert xs == xs[..n] + [xs[n]];
      var d := Distinct(xs[..n]);
      if xs[n] in d then d else d + [xs[n]]
  }

  /** No key is listed twice. */
  lemma {:induction false} DistinctNoRepeats(xs: seq<string>)
    ensures forall i, j :: 0 <= i < j < |Distinct(xs)| ==> Distinct(xs)[i] != Distinct(xs)[j]
    decreases |xs|
  {
    if |xs| > 0 {
      var n := |xs| - 1;
      var d := Distinct(xs[..n]);
      DistinctNoRepeats(xs[..n]);
      assert xs == xs[..n] + [xs[n]];
      if xs[n] !in d {
        var d' := d + [xs[n]];
        assert Distinct(xs) == d';
        forall i, j | 0 <= i < j < |d'| ensures d'[i] != d'[j] {
          assert d'[i] == d[i] && d[i] in d;
          if j < |d| {
            assert d'[j] == d[j];
          }
        }
      } else {
        assert Distinct(xs) == d;
      }
    }
  }

  /** Counting one more value: its count goes up by one and, if new, it is listed last. */
  lemma AppendOne(xs: seq<string>, x: string)
    ensures Distinct(xs + [x]) == if x in xs then Distinct(xs) else Distinct(xs) + [x]
    ensures forall e :: Count(xs + [x], e) == Count(xs, e) + if e == x then 1 else 0
  {
    assert (xs + [x])[..|xs|] == xs;
  }

  /** A value listed no later than `d[p]` in `Distinct(xs)` occurs no later than any occurrence
      of `d[p]` in `xs`. */
  lemma {:induction false} DistinctFirstSeen(xs: seq<string>, p: nat, q: nat, k: nat)
    requires q <= p < |Distinct(xs)| && k < |xs| && xs[k] == Distinct(xs)[p]
    ensures Distinct(xs)[q] in xs[..k + 1]
    decreases |xs|
  {
    var n := |xs| - 1;
    var ys := xs[..n];
    var dy := Distinct(ys);
    assert xs == ys + [xs[n]];
    if k < n {
      assert ys[k] == xs[k] && xs[..k + 1] == ys[..k + 1];
      assert xs[k] in ys;
      if xs[n] !in dy {
        assert Distinct(xs) == dy + [xs[n]];
        assert xs[k] in dy;
      } else {
        assert Distinct(xs) == dy;
      }
      assert p < |dy| && Distinct(xs)[p] == dy[p] && Distinct(xs)[q] == dy[q];
      DistinctFirstSeen(ys, p, q, k);
    } else {
      assert xs[..k + 1] == xs;
      assert Distinct(xs)[q] in Distinct(xs);
    }
  }

  /** `max(extensions.items(), key=count)` over the keys `d`, as a position: a key of greatest
      count, with every earlier key strictly less common (Python's max keeps the first maximal
      item it meets). */
  function FirstMaxIndex(d: seq<string>, xs: seq<string>): (m: nat)
    requires |d| > 0
    ensures m < |d|
    ensures forall i :: 0 <= i < |d| ==> Count(xs, d[i]) <= Count(xs, d[m])
    ensures forall i :: 0 <= i < m ==> Count(xs, d[i]) < Count(xs, d[m])
    decreases |d|
  {
    if |d| == 1 then 0
    else
      var n := |d| - 1;
      var m := FirstMaxIndex(d[..n], xs);
      assert forall i :: 0 <= i < n ==> d[..n][i] == d[i];
      if Count(xs, d[n]) > Count(xs, d[m]) then n else m
  }

  /** The most common value, ties going to the value seen first. */
  function MostCommon(xs: seq<string>): (e: string)
    requires |xs| > 0
    ensures e in xs
    ensures forall k :: 0 <= k < |xs| ==> Count(xs, xs[k]) <= Count(xs, e)
    ensures forall k :: 0 <= k < |xs| && Count(xs, xs[k]) == Count(xs, e) ==> e in xs[..k + 1]
  {
    var d := Distinct(xs);
    assert xs[0] in d;
    var m := FirstMaxIndex(d, xs);
    MostCommonFacts(xs, m);
    d[m]
  }

  lemma MostCommonFacts(xs: seq<string>, m: nat)
    requires |xs| > 0 && |Distinct(xs)| > 0 && m == FirstMaxIndex(Distinct(xs), xs)
    ensures var e := Distinct(xs)[m];
      forall k :: 0 <= k < |xs| ==>
        Count(xs, xs[k]) <= Count(xs, e) && (Count(xs, xs[k]) == Count(xs, e) ==> e in xs[..k + 1])
  {
    var d := Distinct(xs);
    forall k | 0 <= k < |xs|
      ensures Count(xs, xs[k]) <= Count(xs, d[m])
      ensures Count(xs, xs[k]) == Count(xs, d[m]) ==> d[m] in xs[..k + 1]
    {
      assert xs[k] in d;
      var p :| 0 <= p < |d| && d[p] == xs[k];
      if Count(xs, xs[k]) == Count(xs, d[m]) {
        assert m <= p;
        DistinctFirstSeen(xs, p, m, k);
      }
    }
  }

  /** `ext_to_lang.get(ext, "unknown")`. */
  function ExtLanguage(ext: string): string {
    match ext
    case "py" => "python"
    case "js" => "javascript"
    case "ts" => "typescript"
    case "java" => "java"
    case "rb" => "ruby"
    case "php" => "php"
    case "go" => "go"
    case _ => "unknown"
  }

  /** What `_detect_language` returns. */
  function DetectedLanguage(deps: seq<(string, string)>, files: seq<string>): string {
    if |deps| > 0 then deps[0].0
    else if |files| == 0 then "unknown"
    else ExtLanguage(MostCommon(Exts(files)))
  }

  /** A manifest wins over the files; with none, the most common extension decides, the first
      seen winning a tie; with no files, "unknown". */
  lemma DetectedLanguageRule(deps: seq<(string, string)>, files: seq<string>)
    ensures |deps| > 0 ==> DetectedLanguage(deps, files) == deps[0].0
    ensures |deps| == 0 && |files| == 0 ==> DetectedLanguage(deps, files) == "unknown"
    ensures |deps| == 0 && |files| > 0 ==> exists e ::
      DetectedLanguage(deps, files) == ExtLanguage(e) && e in Exts(files)
      && (forall k :: 0 <= k < |files| ==> Count(Exts(files), Ext(files[k])) <= Count(Exts(files), e))
      && (forall k :: 0 <= k < |files| && Count(Exts(files), Ext(files[k])) == Count(Exts(files), e)
            ==> e in Exts(files)[..k + 1])
  {
    if |deps| == 0 && |files| > 0 {
      var e := MostCommon(Exts(files));
      assert DetectedLanguage(deps, files) == ExtLanguage(e);
    }
  }

  /** `counts` holds, for each value of `prev` and for nothing else, how often it occurs. */
  ghost predicate Tallies(counts: map<string, nat>, prev: seq<string>) {
    (forall e :: e in counts <==> e in prev)
    && forall e :: e in counts ==> counts[e] == Count(prev, e)
  }

  /** One turn of the counting loop: `extensions[ext] = extensions.get(ext, 0) + 1`, which also
      lists `ext` last among the keys when it is new. */
  method CountOne(counts: map<string, nat>, order: seq<string>, ext: string, ghost prev: seq<string>)
    returns (counts': map<string, nat>, order': seq<string>)
    requires order == Distinct(prev) && Tallies(counts, prev)
    ensures order' == Distinct(prev + [ext]) && Tallies(counts', prev + [ext])
  {
    AppendOne(prev, ext);
    var seen := if ext in counts then counts[ext] else 0;
    order' := if ext in counts then order else order + [ext];
    counts' := counts[ext := seen + 1];
  }

  /** The counting loop of `_detect_language`: the `extensions` dict, as its counts and its
      keys in insertion order. */
  method CountExtensions(files: seq<string>) returns (counts: map<string, nat>, order: seq<string>)
    ensures order == Distinct(Exts(files))
    ensures Tallies(counts, Exts(files))
  {
    ghost var exts := Exts(files);
    counts := map[];
    order := [];
    var i := 0;
    while i < |files|
      invariant 0 <= i <= |files|
      invariant order == Distinct(exts[..i])
      invariant Tallies(counts, exts[..i])
    {
      var ext := Ext(files[i]);
      assert exts[..i + 1] == exts[..i] + [ext];
      counts, order := CountOne(counts, order, ext, exts[..i]);
      i := i + 1;
    }
    assert exts[..i] == exts;
  }

  /** Taking one more key into the running maximum: it wins only with a strictly greater count. */
  lemma FirstMaxStep(d: seq<string>, xs: seq<string>, j: nat)
    requires 1 <= j < |d|
    ensures FirstMaxIndex(d[..j + 1], xs) == var m := FirstMaxIndex(d[..j], xs);
      if Count(xs, d[j]) > Count(xs, d[m]) then j else m
  {
    var e := d[..j + 1];
    assert e[..j] == d[..j];
    var m := FirstMaxIndex(d[..j], xs);
    var a := Count(xs, d[j]);
    var b := Count(xs, d[..j][m]);
    assert e[j] == d[j] && e[..j][m] == d[..j][m];
    assert FirstMaxIndex(e, xs) == if a > b then j else m;
    assert d[..j][m] == d[m];
  }

  /** `max(extensions.items(), key=lambda x: x[1])[0]`, as the position in the key order. */
  method PickMostCommon(counts: map<string, nat>, order: seq<string>, ghost xs: seq<string>)
    returns (best: nat)
    requires |order| > 0 && Tallies(counts, xs) && forall e :: e in order ==> e in xs
    ensures best == FirstMaxIndex(order, xs)
  {
    best := 0;
    var j := 1;
    while j < |order|
      invariant 1 <= j <= |order| && best < j
      invariant best == FirstMaxIndex(order[..j], xs)
    {
      FirstMaxStep(order, xs, j);
      assert order[best] == order[..j][best];
      if counts[order[j]] > counts[order[best]] {
        best := j;
      }
      j := j + 1;
    }
    assert order[..j] == order;
  }

  /** An empty `extensions` dict means there were no files. */
  lemma NoKeysNoFiles(xs: seq<string>)
    ensures Distinct(xs) == [] ==> xs == []
  {
    if xs != [] {
      assert xs[0] in xs;
    }
  }

  /** `_detect_language`: a manifest language if there is one; otherwise count the extensions
      and take the first key of greatest count. */
  method DetectLanguage(deps: seq<(string, string)>, files: seq<string>) returns (lang: string)
    ensures lang == DetectedLanguage(deps, files)
  {
    if |deps| > 0 {
      return deps[0].0;
    }
    var counts, order := CountExtensions(files);
    ghost var exts := Exts(files);
    if |order| == 0 {
      NoKeysNoFiles(exts);
      return "unknown";
    }
    var best := PickMostCommon(counts, order, exts);
    lang := ExtLanguage(order[best]);
  }

  // ---------------------------------------------------------------- build steps and analysis

  /** `_get_build_steps`. */
  function BuildSteps(language: string): (r: seq<string>)
    ensures |r| >= 2 && r[0] == "install dependencies"
    ensures language !in {"python", "javascript", "typescript", "java", "ruby", "php", "go"}
      ==> r == ["install dependencies", "build"]
  {
    match language
    case "python" => ["install dependencies", "build wheel"]
    case "javascript" => ["install dependencies", "build assets"]
    case "typescript" => ["install dependencies", "compile typescript", "build assets"]
    case "java" => ["install dependencies", "compile", "package"]
    case "ruby" => ["install dependencies", "build gem"]
    case "php" => ["install dependencies", "build"]
    case "go" => ["install dependencies", "build binary"]
    case _ => ["install dependencies", "build"]
  }

  /** The record `_generate_analysis` builds. */
  datatype Analysis = Analysis(language: string, hasDockerfile: bool, hasTests: bool,
                               buildSteps: seq<string>, testSteps: seq<string>,
                               deploySteps: seq<string>)
  {
    function ToValue(): (v: Value)
      ensures Field(v, "language") == Some(Str(language))
    {
      Obj(map["language" := Str(language), "has_dockerfile" := Bool(hasDockerfile),
              "has_tests" := Bool(hasTests), "build_steps" := Arr(Strs(buildSteps)),
              "test_steps" := Arr(Strs(testSteps)), "deploy_steps" := Arr(Strs(deploySteps))])
    }
  }

  /** `"test" in f.lower()`. */
  predicate LooksLikeTest(f: string) {
    Contains(Lower(f), "test")
  }

  /** `_generate_analysis`. */
  method GenerateAnalysis(files: seq<string>, deps: seq<(string, string)>) returns (a: Analysis)
    ensures a.language == DetectedLanguage(deps, files)
    ensures a.hasDockerfile <==> "Dockerfile" in files
    ensures a.hasTests <==> exists f :: f in files && LooksLikeTest(f)
    ensures a.buildSteps == BuildSteps(a.language) && a.buildSteps[0] == "install dependencies"
    ensures a.testSteps == if a.hasTests then ["run tests"] else []
    ensures a.deploySteps == ["deploy to Cloud Run"]
  {
    var language := DetectLanguage(deps, files);
    var hasDockerfile := "Dockerfile" in files;
    var hasTests := exists f :: f in files && LooksLikeTest(f);
    var buildSteps := BuildSteps(language);
    var testSteps := if hasTests then ["run tests"] else [];
    a := Analysis(language, hasDockerfile, hasTests, buildSteps, testSteps, ["deploy to Cloud Run"]);
  }

  // ---------------------------------------------------------------- the agent

  /** `_analyze_repo_structure`: every path, and the paths of the directories. */
  datatype Structure = Structure(files: seq<string>, directories: seq<string>) {
    function ToValue(): Value {
      Obj(map["files" := Arr(Strs(files)), "directories" := Arr(Strs(directories))])
    }
  }

  function Directories(items: seq<TreeItem>): (r: seq<string>)
    ensures |r| <= |items|
    ensures forall i :: 0 <= i < |items| && items[i].kind == "tree" ==> items[i].path in r
    ensures forall p :: p in r ==> exists i :: 0 <= i < |items| && items[i].kind == "tree" && items[i].path == p
    decreases |items|
  {
    if |items| == 0 then []
    else
      var rest := Directories(items[1..]);
      assert forall i :: 1 <= i < |items| ==> items[i] == items[1..][i - 1];
      assert forall p :: p in rest ==> exists i :: 1 <= i < |items| && items[i].kind == "tree" && items[i].path == p
      by {
        forall p | p in rest
          ensures exists i :: 1 <= i < |items| && items[i].kind == "tree" && items[i].path == p
        {
          var i :| 0 <= i < |items| - 1 && items[1..][i].kind == "tree" && items[1..][i].path == p;
          assert items[i + 1] == items[1..][i];
        }
      }
      if items[0].kind == "tree" then [items[0].path] + rest else rest
  }
  /** The directories of two runs of tree items are those of each run, in order: every "tree"
      item contributes its path once, at its place in the tree. */
  lemma {:induction false} DirectoriesAppend(a: seq<TreeItem>, b: seq<TreeItem>)
    ensures Directories(a + b) == Directories(a) + Directories(b)
    decreases |a|
  {
    if |a| == 0 {
      assert a + b == b;
    } else {
      assert (a + b)[0] == a[0];
      assert (a + b)[1..] == a[1..] + b;
      DirectoriesAppend(a[1..], b);
    }
  }


  function StructureOf(items: seq<TreeItem>): (s: Structure)
    ensures |s.files| == |items| && forall i :: 0 <= i < |items| ==> s.files[i] == items[i].path
    ensures forall p :: p in s.directories ==> p in s.files
    ensures s.directories == Directories(items)
  {
    var files := seq(|items|, i requires 0 <= i < |items| => items[i].path);
    Structure(files, Directories(items))
  }

  const NotFoundHelp: string := ". Please check if the URL is correct and you have access to it."

  function DepsValue(deps: seq<(string, string)>): Value
    decreases |deps|
  {
    if |deps| == 0 then Obj(map[])
    else
      var n := |deps| - 1;
      Obj(DepsValue(deps[..n]).fields[deps[n].0 := Str(deps[n].1)])
  }

  /** `context.get("branch", "main")`. */
  function Branch(context: Value): Value {
    if Field(context, "branch").Some? then Field(context, "branch").value else Str("main")
  }

  /** The data of a successful analysis. */
  function ResultData(structure: Structure, deps: seq<(string, string)>, analysis: Analysis): (v: Value)
    ensures Field(v, "structure") == Some(structure.ToValue())
    ensures Field(v, "dependencies") == Some(DepsValue(deps))
    ensures Field(v, "analysis") == Some(analysis.ToValue())
  {
    Obj(map["structure" := structure.ToValue(), "dependencies" := DepsValue(deps),
            "analysis" := analysis.ToValue()])
  }

  /** The part of `execute` after the project was found: list the tree, fetch the manifests and
      build the analysis. */
  method AnalyzeProject<P>(project: P, branch: Value,
                           tree: (P, Value) -> Result<seq<TreeItem>, string>,
                           fetch: (P, Value) -> (string -> Option<string>))
    returns (r: Reply)
    ensures tree(project, branch).Failure? ==>
      r == FormatError("Error analyzing repository structure: " + tree(project, branch).error)
    ensures tree(project, branch).Success? ==>
      var items := tree(project, branch).value;
      var deps := Manifests(ManifestTable, fetch(project, branch));
      r.status == "success" && r.message == "Repository analysis completed"
      && Field(r.data, "structure") == Some(StructureOf(items).ToValue())
      && Field(r.data, "dependencies") == Some(DepsValue(deps))
      && Field(r.data, "analysis").Some?
      && Field(Field(r.data, "analysis").value, "language")
         == Some(Str(DetectedLanguage(deps, StructureOf(items).files)))
    ensures tree(project, branch).Success? ==>
      var files := StructureOf(tree(project, branch).value).files;
      var language := DetectedLanguage(Manifests(ManifestTable, fetch(project, branch)), files);
      var hasTests := exists f :: f in files && LooksLikeTest(f);
      Field(r.data, "analysis")
        == Some(Analysis(language, "Dockerfile" in files, hasTests, BuildSteps(language),
                         if hasTests then ["run tests"] else [], ["deploy to Cloud Run"]).ToValue())
  {
    var items := tree(project, branch);
    if items.Failure? {
      return FormatError("Error analyzing repository structure: " + items.error);
    }
    var structure := StructureOf(items.value);
    var deps := AnalyzeDependencies(fetch(project, branch));
    var analysis := GenerateAnalysis(structure.files, deps);
    r := FormatSuccess("Repository analysis completed", ResultData(structure, deps, analysis));
  }

  /** `CodeAnalysisAgent.execute` on a context dict, with GitLab as three oracles: the project
      lookup by path, the recursive tree listing of a branch, and the file fetch of a branch. */
  method Execute<P>(context: Value,
                    lookup: string -> Lookup<P>,
                    tree: (P, Value) -> Result<seq<TreeItem>, string>,
                    fetch: (P, Value) -> (string -> Option<string>))
    returns (r: Reply)
    ensures Field(context, "repo_url").None? || !Truthy(Field(context, "repo_url").value)
      ==> r == FormatError("Repository URL is required")
    ensures (Field(context, "repo_url").Some? && Truthy(Field(context, "repo_url").value)
             && !Field(context, "repo_url").value.Str?) ==>
      r == FormatError("Error parsing GitLab URL: '" + TypeName(Field(context, "repo_url").value)
                       + "' object has no attribute 'split'")
    ensures Field(context, "repo_url").Some? && Field(context, "repo_url").value.Str? ==>
      var url := Field(context, "repo_url").value.s;
      url != [] ==>
      match ExtractProjectPath(url)
      case Failure(e) => r == FormatError(e)
      case Success(path) =>
        match lookup(path)
        case GetError(code, text) =>
          r == FormatError(if code == 404 then "Repository not found: " + url + NotFoundHelp
                           else "GitLab API error: " + text)
        case Raised(text) => r == FormatError(text)
        case Found(project) =>
          (r.status == "success" <==> tree(project, Branch(context)).Success?)
          && (r.status == "success" ==> r.message == "Repository analysis completed")
  {
    var repoUrl := Field(context, "repo_url");
    var branch := Branch(context);
    if repoUrl.None? || !Truthy(repoUrl.value) {
      return FormatError("Repository URL is required");
    }
    if !repoUrl.value.Str? {
      return FormatError("Error parsing GitLab URL: '" + TypeName(repoUrl.value)
                         + "' object has no attribute 'split'");
    }
    var url := repoUrl.value.s;
    var path := ExtractProjectPath(url);
    if path.Failure? {
      return FormatError(path.error);
    }
    match lookup(path.value) {
      case GetError(code, text) =>
        if code == 404 {
          return FormatError("Repository not found: " + url + NotFoundHelp);
        }
        return FormatError("GitLab API error: " + text);
      case Raised(text) =>
        return FormatError(text);
      case Found(project) =>
        r := AnalyzeProject(project, branch, tree, fetch);
    }
  }
}
