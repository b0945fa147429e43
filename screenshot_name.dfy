/** The "old" screenshot naming scheme of `screenshot_name` in
    lib/lapis_lazuli/browser.rb: the scenario name loses any leading
    directories, every character outside `[A-Za-z0-9_.-]` becomes `_`, runs
    of `_` collapse, and the result is placed after a timestamp in the
    screenshot directory. */
module ScreenshotName {

  predicate IsSeparator(c: char)
  {
    c == '/' || c == '\\'
  }

  /** The characters `\w`, `.` and `-` (Ruby's `\w` is ASCII-only). */
  predicate Allowed(c: char)
  {
    ('a' <= c <= 'z') || ('A' <= c <= 'Z') || ('0' <= c <= '9') || c == '_' || c == '.' || c == '-'
  }

  predicate NoSeparator(s: string)
  {
    forall i :: 0 <= i < |s| ==> !IsSeparator(s[i])
  }

  predicate AllAllowed(s: string)
  {
    forall i :: 0 <= i < |s| ==> Allowed(s[i])
  }

  /** No two underscores in a row. */
  predicate Squeezed(s: string)
  {
    forall i :: 0 < i < |s| ==> !(s[i - 1] == '_' && s[i] == '_')
  }

  /** `gsub(/^.*(\\|\/)/, '')`, read from the end of `s`: on each line,
      everything up to and including the last separator goes; `cut` says a
      separator follows on the current line. Line breaks are kept, since `.`
      does not match them. */
  function StripFrom(s: string, cut: bool): (r: string)
    ensures NoSeparator(r)
    ensures |r| <= |s|
  {
    if |s| == 0 then ""
    else
      var c := s[|s| - 1];
      var before := s[..|s| - 1];
      if c == '\n' then StripFrom(before, false) + "\n"
      else if IsSeparator(c) || cut then StripFrom(before, true)
      else StripFrom(before, false) + [c]
  }

  function StripDirectories(name: string): (r: string)
    ensures NoSeparator(r)
  {
    StripFrom(name, false)
  }

  /** A name without separators has no directories to strip. */
  lemma {:induction false} StripKeepsPlainNames(s: string)
    requires NoSeparator(s)
    ensures StripFrom(s, false) == s
  {
    if |s| > 0 {
      StripKeepsPlainNames(s[..|s| - 1]);
      assert s == s[..|s| - 1] + [s[|s| - 1]];
    }
  }

  /** The last line of a path keeps only what follows its last separator. */
  lemma StripLastLine(dir: string, file: string)
    requires forall i :: 0 <= i < |file| ==> !IsSeparator(file[i]) && file[i] != '\n'
    requires forall i :: 0 <= i < |dir| ==> dir[i] != '\n'
    ensures StripDirectories(dir + "/" + file) == file
  {
    StripFileAfterSeparator(dir, file);
  }

  lemma {:induction false} StripFileAfterSeparator(dir: string, file: string)
    requires forall i :: 0 <= i < |file| ==> !IsSeparator(file[i]) && file[i] != '\n'
    requires forall i :: 0 <= i < |dir| ==> dir[i] != '\n'
    ensures StripFrom(dir + "/" + file, false) == file
  {
    if |file| == 0 {
      assert dir + "/" + file == dir + "/";
      assert (dir + "/")[..|dir + "/"| - 1] == dir;
      StripCutLine(dir);
    } else {
      var s := dir + "/" + file;
      assert s[..|s| - 1] == dir + "/" + file[..|file| - 1];
      StripFileAfterSeparator(dir, file[..|file| - 1]);
      assert file == file[..|file| - 1] + [file[|file| - 1]];
    }
  }

  /** Once cut, a line without breaks disappears entirely. */
  lemma {:induction false} StripCutLine(line: string)
    requires forall i :: 0 <= i < |line| ==> line[i] != '\n'
    ensures StripFrom(line, true) == ""
  {
    if |line| > 0 {
      StripCutLine(line[..|line| - 1]);
    }
  }

  /** `gsub(/[^\w\.\-]/, '_')` */
  function Sanitize(s: string): (r: string)
    ensures |r| == |s| && AllAllowed(r)
    ensures forall i :: 0 <= i < |s| && Allowed(s[i]) ==> r[i] == s[i]
    ensures forall i :: 0 <= i < |s| && !Allowed(s[i]) ==> r[i] == '_'
  {
    seq(|s|, i requires 0 <= i < |s| => if Allowed(s[i]) then s[i] else '_')
  }

  /** `s` arises from `t` by lengthening some runs of underscores (read from
      the back: each character of `s` is either matched by the next character
      of `t`, or is one more `_` after a `_` of `t`). */
  predicate Widens(t: string, s: string)
    decreases |s|
  {
    if |s| == 0 then |t| == 0
    else
      |t| > 0 && t[|t| - 1] == s[|s| - 1] &&
      (Widens(t[..|t| - 1], s[..|s| - 1]) || (t[|t| - 1] == '_' && Widens(t, s[..|s| - 1])))
  }

  /** `squeeze('_')`: each run of underscores becomes one. */
  function Squeeze(s: string): (r: string)
    ensures Squeezed(r) && Widens(r, s)
    ensures |r| <= |s|
    ensures |s| > 0 ==> |r| > 0 && r[|r| - 1] == s[|s| - 1]
    ensures forall i :: 0 <= i < |r| ==> r[i] in s
  {
    if |s| <= 1 then s
    else
      var before := s[..|s| - 1];
      var rest := Squeeze(before);
      assert forall i :: 0 <= i < |rest| ==> rest[i] in s by {
        forall i | 0 <= i < |rest| ensures rest[i] in s {
          var j :| 0 <= j < |before| && before[j] == rest[i];
          assert s[j] == before[j];
        }
      }
      if s[|s| - 1] == '_' && s[|s| - 2] == '_' then rest
      else rest + [s[|s| - 1]]
  }

  /** A name with no run of underscores is left as it is. */
  lemma {:induction false} SqueezeKeepsSqueezed(s: string)
    requires Squeezed(s)
    ensures Squeeze(s) == s
  {
    if |s| > 1 {
      SqueezeKeepsSqueezed(s[..|s| - 1]);
      assert s == s[..|s| - 1] + [s[|s| - 1]];
    }
  }

  /** Squeezing is determined by its two properties: the only name without a
      run of underscores that `s` widens is `Squeeze(s)`. */
  lemma {:induction false} SqueezeUnique(t: string, s: string)
    ensures Squeezed(t) && Widens(t, s) <==> t == Squeeze(s)
  {
    if Squeezed(t) && Widens(t, s) && |s| > 0 {
      var b := s[..|s| - 1];
      var t' := t[..|t| - 1];
      if Widens(t', b) {
        assert Squeezed(t') by {
          forall i | 0 < i < |t'| ensures !(t'[i - 1] == '_' && t'[i] == '_') {
            assert t'[i - 1] == t[i - 1] && t'[i] == t[i];
          }
        }
        SqueezeUnique(t', b);
        assert t == t' + [s[|s| - 1]];
      } else {
        SqueezeUnique(t, b);
      }
    }
  }

  /** Squeezing only drops characters, so an allowed name stays allowed. */
  lemma SqueezeKeepsAllowed(s: string)
    requires AllAllowed(s)
    ensures AllAllowed(Squeeze(s))
  {
    var r := Squeeze(s);
    forall i | 0 <= i < |r| ensures Allowed(r[i]) {
      var j :| 0 <= j < |s| && s[j] == r[i];
    }
  }

  lemma SanitizeKeepsAllowed(s: string)
    requires AllAllowed(s)
    ensures Sanitize(s) == s
  {
  }

  /** The file name part of a screenshot from a scenario name; it is safe as a
      file name: only `[A-Za-z0-9_.-]`, no separator, no run of underscores. */
  function CleanName(scenarioName: string): (r: string)
    ensures AllAllowed(r) && Squeezed(r) && NoSeparator(r)
  {
    var sanitized := Sanitize(StripDirectories(scenarioName));
    SqueezeKeepsAllowed(sanitized);
    Squeeze(sanitized)
  }

  /** Cleaning an already clean name changes nothing. */
  lemma CleanNameIdempotent(scenarioName: string)
    ensures CleanName(CleanName(scenarioName)) == CleanName(scenarioName)
  {
    var n := CleanName(scenarioName);
    StripKeepsPlainNames(n);
    SanitizeKeepsAllowed(n);
    SqueezeKeepsSqueezed(n);
  }

  /** The full location: `dir/timestamp_name.png` (File::SEPARATOR is "/"). */
  function ScreenshotPath(dir: string, timestamp: string, scenarioName: string): (r: string)
    ensures |r| > |dir| + 4
    ensures r[|r| - 4..] == ".png"
    ensures r[..|dir| + 1] == dir + "/"
  {
    dir + "/" + (timestamp + "_" + CleanName(scenarioName) + ".png")
  }

  /** The file is written directly into `dir`: the part after `dir/` has no
      separator of its own whenever the timestamp has none, whatever the
      scenario name contains. */
  lemma ScreenshotInDirectory(dir: string, timestamp: string, scenarioName: string)
    ensures var r := ScreenshotPath(dir, timestamp, scenarioName);
      NoSeparator(r[|dir| + 1..]) <==> NoSeparator(timestamp)
  {
    var r := ScreenshotPath(dir, timestamp, scenarioName);
    var n := CleanName(scenarioName);
    var file := timestamp + "_" + n + ".png";
    assert r[|dir| + 1..] == file;
    forall i | 0 <= i < |file|
      ensures !IsSeparator(file[i]) <== NoSeparator(timestamp)
    {
      if i >= |timestamp| + 1 && i < |timestamp| + 1 + |n| {
        assert file[i] == n[i - |timestamp| - 1];
      }
    }
    forall i | 0 <= i < |timestamp|
      ensures NoSeparator(file) ==> !IsSeparator(timestamp[i])
    {
      assert file[i] == timestamp[i];
    }
  }
}
