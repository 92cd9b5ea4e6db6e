/** What a DaskJob's script is taken for (utils/utils.go), and that everything made from the verdict
    agrees on it: the ConfigMap's key, the Job's mount and the launcher's branch. */
module JobScript {
  import opened Options
  import opened Names
  import opened Objects
  import opened Models
  import opened Processes
  import B = BlockScalar
  import D = DataBlock
  import R = ScriptRoundTrip

  datatype Url = Url(scheme: string, path: string)

  /** What the libraries say of a script: whether it is valid JSON, how it parses as a URL, and what
      fetching it brings. */
  datatype Facts = Facts(isJson: bool, url: Option<Url>, body: Option<string>)

  datatype Verdict = Rejected | Accepted(data: ScriptData)

  // ---- The Python line ----

  const PYTHON_LINE := "#!/usr/bin/env python"

  /** The pattern matches at a place where a line begins. */
  predicate MatchesAt(s: string, i: nat) {
    i <= |s| && (i == 0 || s[i-1] == '\n') && PYTHON_LINE + "\n" <= s[i..]
  }

  ghost predicate HasPythonLine(s: string) {
    exists i: nat :: MatchesAt(s, i)
  }

  method FindPythonLine(s: string) returns (found: bool)
    ensures found <==> HasPythonLine(s)
  {
    var i := 0;
    while i < |s|
      invariant i <= |s|
      invariant forall j: nat :: j < i ==> !MatchesAt(s, j)
    {
      if (i == 0 || s[i-1] == '\n') && PYTHON_LINE + "\n" <= s[i..] {
        assert MatchesAt(s, i);
        return true;
      }
      i := i + 1;
    }
    assert forall j: nat :: MatchesAt(s, j) ==> j < |s|;
    return false;
  }

  ghost predicate IsPythonLine(ls: seq<string>, i: int) {
    0 <= i < |ls| - 1 && ls[i] == "#!/usr/bin/env python"
  }

  lemma {:induction false} FirstBreak(s: string) returns (k: nat)
    requires '\n' in s
    ensures k < |s| && s[k] == '\n' && '\n' !in s[..k] && s == s[..k] + "\n" + s[k + 1..]
  {
    if s[0] == '\n' {
      k := 0;
    } else {
      var j := FirstBreak(s[1..]);
      k := j + 1;
      assert s[..k] == [s[0]] + s[1..][..j];
      assert s[k + 1..] == s[1..][j + 1..];
    }
  }

  /** A match is at the first line or behind its break. */
  lemma MatchSplits(s: string, k: nat, i: nat)
    requires k < |s| && s[k] == '\n' && '\n' !in s[..k]
    ensures MatchesAt(s, i) <==> (i == 0 && s[..k] == PYTHON_LINE) || (i > k && MatchesAt(s[k + 1..], i - k - 1))
  {
    var p := PYTHON_LINE + "\n";
    assert '\n' !in PYTHON_LINE;
    if i == 0 {
      if p <= s {
        assert s[|PYTHON_LINE|] == p[|PYTHON_LINE|];
        assert forall j :: 0 <= j < |PYTHON_LINE| ==> s[j] == p[j] == PYTHON_LINE[j] && s[j] in PYTHON_LINE;
        assert k == |PYTHON_LINE|;
      }
      assert s[..k] == PYTHON_LINE ==> s[..k + 1] == p;
    } else if i <= |s| {
      assert s[i-1] == '\n' ==> i - 1 >= k by {
        assert forall j :: 0 <= j < k ==> s[j] in s[..k];
      }
      if i > k {
        assert s[i..] == s[k + 1..][i - k - 1..];
      }
    }
  }

  lemma MatchHasBreak(s: string, i: nat)
    requires MatchesAt(s, i)
    ensures '\n' in s
  {
    assert s[i..][|PYTHON_LINE|] == '\n' == s[i + |PYTHON_LINE|];
  }

  /** The pattern finds exactly the scripts with a line that is the Python line, other than the last. */
  lemma {:induction false} PythonLineIsALine(s: string)
    ensures HasPythonLine(s) <==> exists i :: IsPythonLine(B.Lines(s), i)
    decreases |s|
  {
    if '\n' in s {
      var k := FirstBreak(s);
      var first, rest := s[..k], s[k + 1..];
      R.LineThen(first, rest);
      PythonLineIsALine(rest);
      if i: nat :| MatchesAt(s, i) {
        MatchSplits(s, k, i);
        if i > k {
          var j :| IsPythonLine(B.Lines(rest), j);
          assert IsPythonLine(B.Lines(s), j + 1);
        } else {
          assert IsPythonLine(B.Lines(s), 0);
        }
      }
      if i :| IsPythonLine(B.Lines(s), i) {
        if i == 0 {
          MatchSplits(s, k, 0);
        } else {
          assert IsPythonLine(B.Lines(rest), i - 1);
          var j: nat :| MatchesAt(rest, j);
          MatchSplits(s, k, j + k + 1);
        }
      }
    } else {
      R.OneLine(s);
      forall i: nat ensures !MatchesAt(s, i) {
        if MatchesAt(s, i) {
          MatchHasBreak(s, i);
        }
      }
    }
  }

  // ---- The extension of a path ----

  predicate EndsWith(s: string, suffix: string) {
    |suffix| <= |s| && s[|s|-|suffix|..] == suffix
  }

  /** What the scan finds. */
  predicate IsExtension(path: string, ext: string) {
    && EndsWith(path, ext)
    && (ext == "" ==> forall i :: 0 <= i < |path| && path[i] == '.' ==> '/' in path[i..])
    && (ext != "" ==> ext[0] == '.' && '.' !in ext[1..] && '/' !in ext)
  }

  /** The scan goes backwards to the last dot of the last element. */
  method Extension(path: string) returns (ext: string)
    ensures IsExtension(path, ext)
  {
    var i := |path|;
    while i > 0 && path[i-1] != '/'
      invariant 0 <= i <= |path|
      invariant forall j :: i <= j < |path| ==> path[j] != '/' && path[j] != '.'
    {
      i := i - 1;
      if path[i] == '.' {
        return path[i..];
      }
    }
    assert forall j :: 0 <= j < i ==> path[i-1] in path[j..] by {
      forall j | 0 <= j < i ensures path[i-1] in path[j..] {
        assert path[j..][i-1-j] == path[i-1];
      }
    }
    return "";
  }

  function WithoutDots(s: string): string {
    if s == "" then "" else (if s[0] == '.' then "" else [s[0]]) + WithoutDots(s[1..])
  }

  lemma {:induction false} NoDotsToRemove(s: string)
    requires '.' !in s
    ensures WithoutDots(s) == s
  {
    if s == "" {
    } else {
      NoDotsToRemove(s[1..]);
    }
  }

  lemma LastDot(path: string, suffix: string)
    requires EndsWith(path, "." + suffix)
    ensures var i := |path| - |suffix| - 1; i >= 0 && path[i] == '.' && path[i..] == "." + suffix && path[i + 1..] == suffix
  {
  }

  lemma SuffixIsFound(path: string, ext: string, suffix: string)
    requires IsExtension(path, ext) && '.' !in suffix && '/' !in suffix && EndsWith(path, "." + suffix)
    ensures ext == "." + suffix
  {
    LastDot(path, suffix);
    var i, k := |path| - |suffix| - 1, |path| - |ext|;
    assert '/' !in "." + suffix;
    assert forall j :: i < j < |path| ==> path[j] == suffix[j - i - 1] && path[j] in suffix;
    assert ext != "";
    assert forall j :: k < j < |path| ==> path[j] == ext[1..][j - k - 1] && path[j] in ext[1..];
    assert path[k] == ext[0];
    assert k == i;
  }

  /** An extension without its dot is a suffix exactly if the path ends with a dot and the suffix. */
  lemma SuffixExactly(path: string, ext: string, suffix: string)
    requires IsExtension(path, ext) && suffix != "" && '.' !in suffix && '/' !in suffix
    ensures WithoutDots(ext) == suffix <==> EndsWith(path, "." + suffix)
  {
    if ext != "" {
      NoDotsToRemove(ext[1..]);
      assert ext == "." + ext[1..] && WithoutDots(ext) == ext[1..];
    }
    if EndsWith(path, "." + suffix) {
      SuffixIsFound(path, ext, suffix);
      assert ext[1..] == suffix;
    }
  }

  // ---- The cascade ----

  predicate ByHttp(u: Url) {
    u.scheme == "http" || u.scheme == "https"
  }

  /** The script names a file of one of the two kinds, by URL or by path. */
  predicate NamesFile(facts: Facts, kind: string) {
    facts.url.Some? && (kind == "py" || kind == "ipynb") && EndsWith(facts.url.value.path, "." + kind)
  }

  /** What the verdict has to be. */
  ghost predicate IsVerdict(script: string, facts: Facts, verdict: Verdict) {
    && (facts.isJson ==> verdict == Accepted(ScriptData("ipynb", script, false)))
    && (!facts.isJson && HasPythonLine(script) ==> verdict == Accepted(ScriptData("py", script, false)))
    && (!facts.isJson && !HasPythonLine(script) ==>
          && (forall kind :: NamesFile(facts, kind) ==>
                verdict == if !ByHttp(facts.url.value) then Accepted(ScriptData(kind, "", true))
                           else if facts.body.Some? then Accepted(ScriptData(kind, facts.body.value, false))
                           else Rejected)
          && (!NamesFile(facts, "py") && !NamesFile(facts, "ipynb") ==> verdict == Rejected))
  }

  method CheckJobScript(script: string, facts: Facts) returns (verdict: Verdict)
    ensures IsVerdict(script, facts, verdict)
  {
    var scriptType, scriptContent, mountedFile := "", "", false;
    if !facts.isJson {
      var matched := FindPythonLine(script);
      if !matched {
        match facts.url
        case None => return Rejected;
        case Some(u) =>
          var e := Extension(u.path);
          var ext := WithoutDots(e);
          SuffixExactly(u.path, e, "py");
          SuffixExactly(u.path, e, "ipynb");
          if ext != "ipynb" && ext != "py" {
            return Rejected;
          }
          scriptType := ext;
          if u.scheme == "http" || u.scheme == "https" {
            match facts.body
            case None => return Rejected;
            case Some(body) => scriptContent := body;
          } else {
            mountedFile := true;
          }
      } else {
        scriptType := "py";
        scriptContent := script;
      }
    } else {
      scriptType := "ipynb";
      scriptContent := script;
    }
    return Accepted(ScriptData(scriptType, scriptContent, mountedFile));
  }

  // ---- Everything agrees on the verdict ----

  predicate Inline(script: string, data: ScriptData) {
    !data.mounted && data.contents == script
  }

  predicate Fetched(facts: Facts, data: ScriptData) {
    !data.mounted && facts.url.Some? && ByHttp(facts.url.value) && facts.body == Some(data.contents)
  }

  predicate Mounted(data: ScriptData) {
    data.mounted && data.contents == ""
  }

  /** An accepted script is of one of two kinds and comes from one source: the text itself if it is
      JSON or has a Python line, else what its address brings if that is a web address, else a file
      mounted into the Job; and every script with one of these is accepted. */
  lemma AcceptedExactly(script: string, facts: Facts, verdict: Verdict)
    requires IsVerdict(script, facts, verdict)
    ensures verdict.Accepted? <==>
      || facts.isJson || HasPythonLine(script)
      || ((NamesFile(facts, "py") || NamesFile(facts, "ipynb")) && (ByHttp(facts.url.value) ==> facts.body.Some?))
    ensures verdict.Accepted? ==>
      && (verdict.data.kind == "py" || verdict.data.kind == "ipynb")
      && (if facts.isJson || HasPythonLine(script) then Inline(script, verdict.data)
          else if ByHttp(facts.url.value) then Fetched(facts, verdict.data)
          else Mounted(verdict.data))
  {
  }

  /** Where the Job mounts the script, and what of the ConfigMap it mounts there (models/job.go). */
  function MountPath(scriptType: string): string {
    "/app." + scriptType
  }

  function SubPath(scriptType: string): string {
    "app." + scriptType
  }

  /** The file the launcher script runs; for any other type it only says so (models/configs.go). */
  function Launched(scriptType: string): Option<string> {
    if scriptType == "py" then Some("/app.py") else if scriptType == "ipynb" then Some("/app.ipynb") else None
  }

  /** Once a script is accepted, the ConfigMap holds it under the key the Job mounts, and the Job
      mounts it where the launcher looks for it. */
  lemma AllNameTheSameFile(script: string, facts: Facts, data: ScriptData, v: DaskJobView, dask: DaskView)
    requires IsVerdict(script, facts, Accepted(data))
    ensures var c := JobContextOf(v, dask, data);
      var config, job := Rendered(c, JobConfig).script, Rendered(c, JobRun);
      && config == Some(data)
      && B.AppKey(config.value.kind) == SubPath(job.scriptType)
      && Launched(config.value.kind) == Some(MountPath(job.scriptType))
      && job.jobPod.config == Child(JobConfig, c.ns, v.name)
  {
    AcceptedExactly(script, facts, Accepted(data));
    LaunchedIsMounted(data.kind);
  }

  lemma LaunchedIsMounted(scriptType: string)
    requires scriptType == "py" || scriptType == "ipynb"
    ensures Launched(scriptType) == Some(MountPath(scriptType))
  {
    assert MountPath("py") == "/app.py" && MountPath("ipynb") == "/app.ipynb";
  }

  /** The file the launcher runs is an entry of the ConfigMap; this is what it holds. */
  function LaunchedText(data: ScriptData, config: string, launcher: string): Option<string> {
    var entries := B.Decode(B.DataText(data.kind, data.contents, config, launcher));
    if entries.Some? && entries.value != [] && Launched(data.kind) == Some("/" + entries.value[0].key)
    then Some(entries.value[0].value) else None
  }

  /** What the user has asked to run: the text itself, what its address brings, or, for a file name,
      what the file holds. */
  function ScriptText(data: ScriptData, file: string): string {
    if data.mounted then file else data.contents
  }

  lemma LaunchedKind(script: string, facts: Facts, data: ScriptData)
    requires IsVerdict(script, facts, Accepted(data))
    ensures Launched(data.kind) == Some("/" + B.AppKey(data.kind)) && R.TypeText(data.kind)
  {
    AcceptedExactly(script, facts, Accepted(data));
    assert "/" + B.AppKey("py") == "/app.py" && "/" + B.AppKey("ipynb") == "/app.ipynb";
  }

  /** The Job runs /start-dask-job.sh, which it mounts from the ConfigMap: if the data block can be read,
      that is the launcher, next to the notebook's configuration, whatever the script. */
  lemma CommandIsTheLauncher(data: ScriptData, config: string, launcher: string)
    requires R.TypeText(data.kind) && R.FixedText(config) && R.FixedText(launcher)
    ensures var r := B.Decode(B.DataText(data.kind, data.contents, config, launcher));
      r.Some? ==>
        && |r.value| >= 3
        && r.value[|r.value| - 1].key == "start-dask-job.sh"
        && r.value[|r.value| - 1].value == B.Unlines(B.Clipped(B.Contents(B.Lines(launcher), 4)))
        && r.value[|r.value| - 2].key == "jupyter_notebook_config.py"
        && r.value[|r.value| - 2].value == B.Unlines(B.Clipped(B.Contents(B.Lines(config), 4)))
  {
    D.KeysWhenRead(data.kind, data.contents, config, launcher);
    var r := B.Decode(B.DataText(data.kind, data.contents, config, launcher));
    if r.Some? {
      var n := |r.value|;
      assert r.value[n - 2..] == R.FixedEntries(config, launcher);
      assert r.value[n - 1] == r.value[n - 2..][1] && r.value[n - 2] == r.value[n - 2..][0];
    }
  }

  /** A script given as the name of a file is never run: the launcher runs an empty file in its place. */
  lemma FilesAreNotRun(script: string, facts: Facts, data: ScriptData, config: string, launcher: string)
    requires IsVerdict(script, facts, Accepted(data)) && data.mounted
    requires R.FixedText(config) && R.FixedText(launcher)
    ensures LaunchedText(data, config, launcher) == Some("")
  {
    AcceptedExactly(script, facts, Accepted(data));
    LaunchedKind(script, facts, data);
    D.EmptyScript(data.kind, config, launcher);
  }

  /** From the spec to the pod: the launcher runs the accepted script, with one line break at its end,
      exactly if it is no file name and survives its rendering. */
  lemma LauncherRunsTheScript(script: string, facts: Facts, data: ScriptData, file: string, config: string, launcher: string)
    requires IsVerdict(script, facts, Accepted(data)) && R.FixedText(config) && R.FixedText(launcher)
    ensures LaunchedText(data, config, launcher) == Some(R.WithOneBreak(ScriptText(data, file)))
      <==> !data.mounted && R.Survives(data.contents)
  {
    LaunchedKind(script, facts, data);
    if data.mounted {
      FilesAreNotRun(script, facts, data, config, launcher);
      assert R.WithOneBreak(file) != "";
    } else {
      TextsAreRun(data, config, launcher);
    }
  }

  lemma TextsAreRun(data: ScriptData, config: string, launcher: string)
    requires Launched(data.kind) == Some("/" + B.AppKey(data.kind)) && R.TypeText(data.kind)
    requires R.FixedText(config) && R.FixedText(launcher)
    ensures LaunchedText(data, config, launcher) == Some(R.WithOneBreak(data.contents)) <==> R.Survives(data.contents)
  {
    R.ComesOutExactly(data.kind, data.contents, config, launcher);
    var entries := B.Decode(B.DataText(data.kind, data.contents, config, launcher));
    if entries.Some? && entries.value != [] {
      SameAfterSlash(entries.value[0].key, B.AppKey(data.kind));
    }
  }

  lemma SameAfterSlash(a: string, b: string)
    ensures "/" + a == "/" + b <==> a == b
  {
    assert ("/" + a)[1..] == a && ("/" + b)[1..] == b;
  }
}
