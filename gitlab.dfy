/** GitLab repository URLs as the agents read them, and what a GitLab project lookup can return.
    Two agents cut a URL the same simple way (validation and deployment); the analysis agent
    cuts it more carefully (empty segments dropped, ".git" removed, too-short URLs refused). */
module GitLab {
  import opened Wrappers
  import opened Strings

  /** The outcome of `gl.projects.get(path)`: the project, a GitlabGetError with its HTTP code
      and its text, or any other exception (a connection error, say) with its text. */
  datatype Lookup<P> = Found(project: P) | GetError(code: int, text: string) | Raised(text: string)

  /** One entry of `project.repository_tree(ref=branch, recursive=True)`: its path and its
      type ("blob" for a file, "tree" for a directory). */
  datatype TreeItem = TreeItem(path: string, kind: string)

  /** `repo_url.split("//")[-1]`: the text after the last "//" found scanning left to right. */
  function AfterScheme(url: string): string {
    Last(Split(url, "//"))
  }

  /** `[p for p in parts if p]`. */
  function NonEmpty(parts: seq<string>): (r: seq<string>)
    ensures forall i :: 0 <= i < |r| ==> r[i] != []
    ensures forall x :: x in r <==> x in parts && x != []
    ensures (forall i :: 0 <= i < |parts| ==> parts[i] != []) ==> r == parts
    decreases |parts|
  {
    if |parts| == 0 then []
    else if parts[0] == [] then NonEmpty(parts[1..])
    else [parts[0]] + NonEmpty(parts[1..])
  }

  /** The "/"-joined non-empty segments after the host, before ".git" is removed. */
  function JoinedSegments(url: string): string {
    Join(NonEmpty(Split(AfterScheme(url), "/")[1..]), "/")
  }

  /** `CodeAnalysisAgent._extract_project_path`: the refusal names the URL. When it refuses and
      what path it gives are stated by `ExtractProjectPathFails` and `ExtractProjectPathShape`. */
  function ExtractProjectPath(url: string): (r: Result<string, string>)
    ensures r.Failure? ==> r.error == "Error parsing GitLab URL: Invalid GitLab URL format: " + url
  {
    var parts := Split(AfterScheme(url), "/");
    if |parts| < 2 then
      Failure("Error parsing GitLab URL: Invalid GitLab URL format: " + url)
    else
      var path := Join(NonEmpty(parts[1..]), "/");
      Success(if EndsWith(path, ".git") then path[..|path| - 4] else path)
  }

  /** `ValidationAgent._extract_project_path` and `DeploymentAgent._extract_project_path`:
      everything after the first "/" that follows the scheme, or "" when there is none. */
  function SimpleProjectPath(url: string): (r: string)
    ensures '/' !in AfterScheme(url) ==> r == []
    ensures forall i :: (0 <= i < |AfterScheme(url)| && AfterScheme(url)[i] == '/'
                         && '/' !in AfterScheme(url)[..i]) ==> r == AfterScheme(url)[i + 1..]
  {
    CutAfterFirstSlash(AfterScheme(url));
    Join(Split(AfterScheme(url), "/")[1..], "/")
  }

  lemma CutAfterFirstSlash(s: string)
    ensures '/' !in s ==> Join(Split(s, "/")[1..], "/") == []
    ensures forall i :: 0 <= i < |s| && s[i] == '/' && '/' !in s[..i] ==> Join(Split(s, "/")[1..], "/") == s[i + 1..]
  {
    if '/' !in s {
      SplitWithout(s, '/');
    }
    forall i | 0 <= i < |s| && s[i] == '/' && '/' !in s[..i]
      ensures Join(Split(s, "/")[1..], "/") == s[i + 1..]
    {
      assert s == s[..i] + "/" + s[i + 1..];
      SplitAfterHost(s[..i], s[i + 1..]);
      JoinSplit(s[i + 1..], "/");
    }
  }

  // ---------------------------------------------------------------- facts about the analysis cut

  lemma SplitHasTwoPiecesIffSlash(s: string)
    ensures |Split(s, "/")| >= 2 <==> '/' in s
  {
    var ps := Split(s, "/");
    if |ps| < 2 {
      JoinSplit(s, "/");
      SplitPiecesAvoid(s, '/');
      assert Join(ps, "/") == ps[0];
    }
    if '/' !in s {
      SplitWithout(s, '/');
    }
  }

  /** The URL is refused exactly when no "/" follows its last "//", and the error names the URL. */
  lemma ExtractProjectPathFails(url: string)
    ensures ExtractProjectPath(url).Failure? <==> '/' !in AfterScheme(url)
    ensures ExtractProjectPath(url).Failure? ==>
      ExtractProjectPath(url).error == "Error parsing GitLab URL: Invalid GitLab URL format: " + url
  {
    SplitHasTwoPiecesIffSlash(AfterScheme(url));
  }

  /** A parsed path never contains "//"; it is the joined segments, with one trailing ".git"
      (exactly four characters, and only once) cut off when there is one. */
  lemma ExtractProjectPathShape(url: string)
    requires ExtractProjectPath(url).Success?
    ensures !Contains(ExtractProjectPath(url).value, "//")
    ensures var p := JoinedSegments(url); var r := ExtractProjectPath(url).value;
      if EndsWith(p, ".git") then r + ".git" == p else r == p
  {
    var parts := Split(AfterScheme(url), "/");
    var kept := NonEmpty(parts[1..]);
    SplitPiecesAvoid(AfterScheme(url), '/');
    forall i | 0 <= i < |kept| ensures kept[i] != [] && '/' !in kept[i] {
      assert kept[i] in parts[1..];
    }
    JoinHasNoDoubleSlash(kept);
    var p := Join(kept, "/");
    if EndsWith(p, ".git") {
      PrefixKeepsNoDouble(p, |p| - 4);
      assert p[..|p| - 4] + ".git" == p;
    }
  }

  // ---------------------------------------------------------------- splitting built URLs

  /** A split on "//" cuts first at the first "//": here the one right after `p`. */
  lemma {:induction false} SplitFromAtFirstDoubleSlash(p: string, rest: string, cur: string)
    requires !Contains(p, "//") && (p == [] || Last(p) != '/')
    ensures SplitFrom(p + "//" + rest, "//", cur) == [cur + p] + SplitFrom(rest, "//", [])
    decreases |p|
  {
    var s := p + "//" + rest;
    if |p| > 0 {
      if |p| == 1 {
        assert s[..2][0] == p[0];
      } else {
        assert s[..2] == p[..2];
      }
      assert s[1..] == p[1..] + "//" + rest;
      SplitFromAtFirstDoubleSlash(p[1..], rest, cur + [p[0]]);
      assert cur + [p[0]] + p[1..] == cur + p;
    } else {
      assert s == "//" + rest && s[..2] == "//" && s[2..] == rest;
      assert cur + p == cur;
    }
  }

  lemma {:induction false} SplitFromWithoutDoubleSlash(s: string, cur: string)
    requires !Contains(s, "//")
    ensures SplitFrom(s, "//", cur) == [cur + s]
    decreases |s|
  {
    if |s| >= 2 {
      SplitFromWithoutDoubleSlash(s[1..], cur + [s[0]]);
      assert cur + [s[0]] + s[1..] == cur + s;
    }
  }

  /** Splitting `host/path` on "/" puts the host first and then the pieces of the path. */
  lemma SplitAfterHost(host: string, path: string)
    requires '/' !in host
    ensures Split(host + "/" + path, "/") == [host] + Split(path, "/")
  {
    var t := "/" + path;
    assert host + "/" + path == host + t;
    SplitFromSkips(host, t, '/', []);
    assert t[..1] == "/" && t[1..] == path;
    assert [] + host == host;
    assert SplitFrom(t, "/", host) == [host] + SplitFrom(path, "/", []);
  }

  /** For `scheme//rest` with no "/" in the scheme and no "//" in the rest, the scheme is cut. */
  lemma AfterSchemeOf(scheme: string, rest: string)
    requires '/' !in scheme && !Contains(rest, "//")
    ensures AfterScheme(scheme + "//" + rest) == rest
  {
    NoSlashNoDouble(scheme);
    SplitFromAtFirstDoubleSlash(scheme, rest, []);
    SplitFromWithoutDoubleSlash(rest, []);
    assert [] + rest == rest;
  }

  lemma {:induction false} JoinAppendLast(segs: seq<string>, suffix: string)
    requires |segs| > 0
    ensures Join(segs[..|segs| - 1] + [Last(segs) + suffix], "/") == Join(segs, "/") + suffix
    decreases |segs|
  {
    var segs' := segs[..|segs| - 1] + [Last(segs) + suffix];
    if |segs| > 1 {
      assert segs'[1..] == segs[1..][..|segs| - 2] + [Last(segs[1..]) + suffix];
      JoinAppendLast(segs[1..], suffix);
    }
  }

  /** A URL built from a host and non-empty, slash-free segments splits into the host and the
      segments. */
  lemma PartsOfBuiltUrl(scheme: string, host: string, segs: seq<string>)
    requires '/' !in scheme && '/' !in host
    requires |segs| > 0 && forall i :: 0 <= i < |segs| ==> segs[i] != [] && '/' !in segs[i]
    ensures Split(AfterScheme(scheme + "//" + (host + "/" + Join(segs, "/"))), "/") == [host] + segs
  {
    var path := Join(segs, "/");
    JoinHasNoDoubleSlash(segs);
    JoinStartsWithFirst(segs, "/");
    SlashThenNoDouble(host, path);
    AfterSchemeOf(scheme, host + "/" + path);
    SplitAfterHost(host, path);
    SplitJoin(segs, '/');
  }

  /** Such a URL parses to its joined segments, less a trailing ".git". */
  lemma ExtractBuiltUrl(scheme: string, host: string, segs: seq<string>)
    requires '/' !in scheme && '/' !in host
    requires |segs| > 0 && forall i :: 0 <= i < |segs| ==> segs[i] != [] && '/' !in segs[i]
    ensures var p := Join(segs, "/");
      ExtractProjectPath(scheme + "//" + (host + "/" + p))
        == Success(if EndsWith(p, ".git") then p[..|p| - 4] else p)
  {
    PartsOfBuiltUrl(scheme, host, segs);
    assert ([host] + segs)[1..] == segs;
    assert NonEmpty(segs) == segs;
  }

  /** Parsing a URL built from a host and path segments, with or without ".git", gives back the
      segments joined by "/". */
  lemma ExtractProjectPathRoundTrip(scheme: string, host: string, segs: seq<string>, suffix: string)
    requires '/' !in scheme && '/' !in host
    requires |segs| > 0 && forall i :: 0 <= i < |segs| ==> segs[i] != [] && '/' !in segs[i]
    requires suffix == ".git" || (suffix == "" && !EndsWith(Join(segs, "/"), ".git"))
    ensures ExtractProjectPath(scheme + "//" + host + "/" + Join(segs, "/") + suffix)
      == Success(Join(segs, "/"))
  {
    var segs' := segs[..|segs| - 1] + [Last(segs) + suffix];
    AppendedSegments(segs, suffix);
    var j := Join(segs, "/");
    JoinAppendLast(segs, suffix);
    assert scheme + "//" + host + "/" + j + suffix == scheme + "//" + (host + "/" + Join(segs', "/")) by {
      Assoc(scheme + "//" + host + "/", j, suffix);
      Assoc(scheme + "//", host, "/");
      Assoc(scheme + "//", host + "/", j + suffix);
    }
    ExtractBuiltUrl(scheme, host, segs');
    CutGitSuffix(j, suffix);
  }

  /** Appending a slash-free suffix to the last segment keeps every segment non-empty and
      slash-free. */
  lemma AppendedSegments(segs: seq<string>, suffix: string)
    requires |segs| > 0 && forall i :: 0 <= i < |segs| ==> segs[i] != [] && '/' !in segs[i]
    requires '/' !in suffix
    ensures var segs' := segs[..|segs| - 1] + [Last(segs) + suffix];
      |segs'| > 0 && forall i :: 0 <= i < |segs'| ==> segs'[i] != [] && '/' !in segs'[i]
  {
    var segs' := segs[..|segs| - 1] + [Last(segs) + suffix];
    forall i | 0 <= i < |segs'| ensures segs'[i] != [] && '/' !in segs'[i] {
      if i < |segs| - 1 { assert segs'[i] == segs[i]; }
    }
  }

  lemma Assoc(a: string, b: string, c: string)
    ensures a + b + c == a + (b + c)
  {
  }

  lemma CutGitSuffix(j: string, suffix: string)
    requires suffix == ".git" || (suffix == "" && !EndsWith(j, ".git"))
    ensures var p := j + suffix; (if EndsWith(p, ".git") then p[..|p| - 4] else p) == j
  {
    var p := j + suffix;
    if suffix == ".git" {
      assert p[|p| - 4..] == ".git";
      assert p[..|p| - 4] == j;
    } else {
      assert p == j;
    }
  }

  /** A URL with "//" inside its path is refused: only the text after the LAST "//" is read,
      and for `scheme//host/group//project` that is `project`, which holds no "/". */
  lemma DoubledSlashInPathIsRefused(scheme: string, host: string, group: string, project: string)
    requires '/' !in scheme && '/' !in host && '/' !in group && '/' !in project && group != []
    ensures AfterScheme(scheme + "//" + host + "/" + group + "//" + project) == project
    ensures ExtractProjectPath(scheme + "//" + host + "/" + group + "//" + project).Failure?
  {
    var mid := host + "/" + group;
    var rest := mid + "//" + project;
    var url := scheme + "//" + host + "/" + group + "//" + project;
    NoSlashNoDouble(group);
    SlashThenNoDouble(host, group);
    assert Last(mid) == Last(group);
    Assoc(scheme + "//", host + "/" + group, "//" + project);
    assert url == scheme + "//" + rest;
    NoSlashNoDouble(scheme);
    SplitFromAtFirstDoubleSlash(scheme, rest, []);
    SplitFromAtFirstDoubleSlash(mid, project, []);
    NoSlashNoDouble(project);
    SplitFromWithoutDoubleSlash(project, []);
    assert [] + project == project;
    ExtractProjectPathFails(url);
  }

  // ---------------------------------------------------------------- facts about the simple cut

  /** The simple cut keeps everything after the host, empty segments and ".git" included, when
      the path has no "//" and does not start with "/". */
  lemma SimpleProjectPathRoundTrip(scheme: string, host: string, path: string)
    requires '/' !in scheme && '/' !in host
    requires !Contains(path, "//") && (path == [] || path[0] != '/')
    ensures SimpleProjectPath(scheme + "//" + host + "/" + path) == path
  {
    SlashThenNoDouble(host, path);
    assert scheme + "//" + host + "/" + path == scheme + "//" + (host + "/" + path);
    AfterSchemeOf(scheme, host + "/" + path);
    SplitAfterHost(host, path);
    assert ([host] + Split(path, "/"))[1..] == Split(path, "/");
    JoinSplit(path, "/");
  }
}
