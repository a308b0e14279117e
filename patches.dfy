/**
 * tools/apply-patches.py: rewrites the first line of a source file that
 * begins, after any leading whitespace, with a literal pattern, either
 * commenting it out or blanking it, for every patch of every file named in
 * the patch configuration, and aborts at the first missing file or pattern.
 *
 * Files are text (already decoded, '\n' line ends) held in a map from path
 * to contents; the configuration is the list the YAML file describes.
 */
module ApplyPatches {
  import opened Wrappers
  import opened PyText

  /** The number of leading whitespace characters: len(line) - len(line.lstrip()). */
  function LeadingWs(line: string): (n: nat)
    ensures n <= |line|
    ensures forall j :: 0 <= j < n ==> IsSpace(line[j])
    ensures n == |line| || !IsSpace(line[n])
  {
    if |line| > 0 && IsSpace(line[0]) then 1 + LeadingWs(line[1..]) else 0
  }

  /** line.lstrip() */
  function Strip(line: string): string
  {
    line[LeadingWs(line)..]
  }

  /**
   * re.search('^\s*' + re.escape(pattern), line): the escaped pattern is
   * matched literally, right after some run of the leading whitespace
   * (the greedy `\s*` may give characters back).
   */
  predicate Matches(line: string, pattern: string)
  {
    exists k :: 0 <= k <= LeadingWs(line) && pattern <= line[k..]
  }

  function Spaces(n: nat): (s: string)
    ensures |s| == n && forall j :: 0 <= j < n ==> s[j] == ' '
  {
    if n == 0 then "" else Spaces(n - 1) + " "
  }

  /**
   * The rewritten line: "comment" keeps the indentation as spaces and puts
   * "//" (unless the code already starts with "//") and one space before
   * the stripped text; "remove" blanks the line; any other action is an
   * error.
   */
  function PatchedLine(line: string, action: string): Option<string>
  {
    if action == "comment" then
      var stripped := Strip(line);
      Some(Spaces(LeadingWs(line)) + (if "//" <= stripped then "" else "//") + " " + stripped)
    else if action == "remove" then Some("")
    else None
  }

  /** The lowest index at or after `from` whose line matches. */
  function FirstMatchFrom(lines: seq<string>, pattern: string, from: nat): Option<nat>
    decreases |lines| - from
  {
    if from >= |lines| then None
    else if Matches(lines[from], pattern) then Some(from)
    else FirstMatchFrom(lines, pattern, from + 1)
  }

  function FirstMatch(lines: seq<string>, pattern: string): Option<nat>
  {
    FirstMatchFrom(lines, pattern, 0)
  }

  /** The outcome of find_and_patch_line: success, 1-based line number, lines after. */
  datatype PatchOutcome = PatchOutcome(success: bool, lineNumber: int, lines: seq<string>)

  /** What find_and_patch_line does to a list of lines. */
  function PatchLines(lines: seq<string>, pattern: string, action: string): PatchOutcome
  {
    match FirstMatch(lines, pattern)
    case None => PatchOutcome(false, -1, lines)
    case Some(i) =>
      if i < |lines| && PatchedLine(lines[i], action).Some? then
        PatchOutcome(true, i + 1, lines[i := PatchedLine(lines[i], action).value])
      else PatchOutcome(false, -1, lines)
  }

  /**
   * find_and_patch_line: scans the lines in order and rewrites the first
   * matching one in place; with no match, or an unknown action on the
   * match, it reports failure and leaves every line as it was.
   */
  method FindAndPatchLine(lines: array<string>, pattern: string, action: string)
    returns (success: bool, lineNumber: int)
    modifies lines
    ensures PatchOutcome(success, lineNumber, lines[..]) == PatchLines(old(lines[..]), pattern, action)
  {
    ghost var before := lines[..];
    for i := 0 to lines.Length
      invariant lines[..] == before
      invariant FirstMatch(before, pattern) == FirstMatchFrom(before, pattern, i)
    {
      if Matches(lines[i], pattern) {
        if action == "comment" {
          var indent := LeadingWs(lines[i]);
          var stripped := lines[i][indent..];
          var comment := if "//" <= stripped then "" else "//";
          lines[i] := Spaces(indent) + comment + " " + stripped;
        } else if action == "remove" {
          lines[i] := "";
        } else {
          return false, -1;
        }
        return true, i + 1;
      }
    }
    return false, -1;
  }

  // ----- files as lists of lines -----

  /** The length of the first line of `s`, its '\n' included. */
  function LineLength(s: string): (n: nat)
    requires |s| > 0
    ensures 0 < n <= |s|
    ensures forall j :: 0 <= j < n - 1 ==> s[j] != '\n'
    ensures n < |s| ==> s[n - 1] == '\n'
  {
    if s[0] == '\n' || |s| == 1 then 1 else 1 + LineLength(s[1..])
  }

  /** readlines(): every line keeps its '\n'; a last line without one is kept too. */
  function SplitLines(s: string): seq<string>
    decreases |s|
  {
    if |s| == 0 then [] else [s[..LineLength(s)]] + SplitLines(s[LineLength(s)..])
  }

  /** writelines(): the lines written one after the other. */
  function Concat(lines: seq<string>): string
  {
    if |lines| == 0 then "" else lines[0] + Concat(lines[1..])
  }

  /** One patch of the configuration. */
  datatype Patch = Patch(pattern: string, action: string)

  /** The patches of one file of the configuration. */
  datatype FileConfig = FileConfig(file: string, patches: seq<Patch>)

  /**
   * The patches applied one after the other to the progressively changed
   * lines; None at the first one that fails.
   */
  function PatchAll(lines: seq<string>, ps: seq<Patch>): Option<seq<string>>
    decreases |ps|
  {
    if |ps| == 0 then Some(lines)
    else match PatchAll(lines, ps[..|ps| - 1])
      case None => None
      case Some(ls) =>
        var o := PatchLines(ls, ps[|ps| - 1].pattern, ps[|ps| - 1].action);
        if o.success then Some(o.lines) else None
  }

  /** The running result of apply_patches: -1 once aborted, with the files as they are. */
  datatype Outcome = Outcome(count: int, files: map<string, string>)

  /** One file of the configuration processed against the files as they are. */
  function ApplyFile(files: map<string, string>, fc: FileConfig): Outcome
  {
    if fc.file !in files then Outcome(-1, files)
    else match PatchAll(SplitLines(files[fc.file]), fc.patches)
      case None => Outcome(-1, files)
      case Some(ls) =>
        if |fc.patches| > 0 then Outcome(|fc.patches|, files[fc.file := Concat(ls)])
        else Outcome(0, files)
  }

  /** apply_patches over the configuration, file after file; stops at the first failure. */
  function ApplyAll(files: map<string, string>, config: seq<FileConfig>): Outcome
    decreases |config|
  {
    if |config| == 0 then Outcome(0, files)
    else
      var o := ApplyAll(files, config[..|config| - 1]);
      if o.count < 0 then o
      else
        var f := ApplyFile(o.files, config[|config| - 1]);
        if f.count < 0 then Outcome(-1, f.files) else Outcome(o.count + f.count, f.files)
  }

  /**
   * The inner loop of apply_patches: the file's lines copied into a list
   * that each patch rewrites in place, stopping at the first failure.
   */
  method PatchFile(original: seq<string>, patches: seq<Patch>) returns (ok: bool, patched: seq<string>)
    ensures PatchAll(original, patches) == if ok then Some(patched) else None
  {
    var lines := new string[|original|](j requires 0 <= j < |original| => original[j]);
    assert lines[..] == original;
    for j := 0 to |patches|
      invariant PatchAll(original, patches[..j]) == Some(lines[..])
    {
      assert patches[..j + 1][..j] == patches[..j];
      var success, lineNumber := FindAndPatchLine(lines, patches[j].pattern, patches[j].action);
      if !success {
        PatchAbortSticks(original, patches, j + 1);
        return false, [];
      }
    }
    assert patches[..|patches|] == patches;
    return true, lines[..];
  }

  /**
   * One entry of the configuration: the file read, patched and written back
   * when at least one patch applied; -1 when it is missing or a pattern fails.
   */
  method ApplyFileTo(files: map<string, string>, fc: FileConfig) returns (count: int, files': map<string, string>)
    ensures Outcome(count, files') == ApplyFile(files, fc)
  {
    if fc.file !in files {
      return -1, files;
    }
    var ok, lines := PatchFile(SplitLines(files[fc.file]), fc.patches);
    if !ok {
      return -1, files;
    }
    var filePatchesApplied := |fc.patches|;
    if filePatchesApplied > 0 {
      return filePatchesApplied, files[fc.file := Concat(lines)];
    }
    return 0, files;
  }

  /**
   * apply_patches: applies each entry of the configuration in order and
   * returns the number of patches applied; -1 as soon as a file is missing
   * or a pattern fails, with the files written so far kept.
   */
  method ApplyPatchesTo(files: map<string, string>, config: seq<FileConfig>)
    returns (count: int, files': map<string, string>)
    ensures Outcome(count, files') == ApplyAll(files, config)
  {
    count := 0;
    files' := files;
    for k := 0 to |config|
      invariant count >= 0
      invariant Outcome(count, files') == ApplyAll(files, config[..k])
    {
      assert config[..k + 1][..k] == config[..k];
      var applied, next := ApplyFileTo(files', config[k]);
      if applied < 0 {
        AbortSticks(files, config, k + 1);
        return -1, next;
      }
      count, files' := count + applied, next;
    }
    assert config[..|config|] == config;
  }

  // ----- properties -----

  /** Once a patch fails, the later patches of the file change nothing. */
  lemma {:induction false} PatchAbortSticks(lines: seq<string>, ps: seq<Patch>, k: nat)
    requires k <= |ps| && PatchAll(lines, ps[..k]).None?
    ensures PatchAll(lines, ps).None?
    decreases |ps| - k
  {
    if k < |ps| {
      assert ps[..k + 1][..k] == ps[..k];
      PatchAbortSticks(lines, ps, k + 1);
    } else {
      assert ps[..k] == ps;
    }
  }

  /** Once apply_patches has aborted, later files change nothing. */
  lemma {:induction false} AbortSticks(files: map<string, string>, config: seq<FileConfig>, k: nat)
    requires k <= |config| && ApplyAll(files, config[..k]).count < 0
    ensures ApplyAll(files, config) == ApplyAll(files, config[..k])
    decreases |config| - k
  {
    if k < |config| {
      assert config[..k + 1][..k] == config[..k];
      AbortSticks(files, config, k + 1);
    } else {
      assert config[..k] == config;
    }
  }

  /** The match found is the lowest matching index. */
  lemma {:induction false} FirstMatchFromIsLowest(lines: seq<string>, pattern: string, from: nat)
    ensures FirstMatchFrom(lines, pattern, from).Some? ==>
              var i := FirstMatchFrom(lines, pattern, from).value;
              from <= i < |lines| && Matches(lines[i], pattern)
              && forall j :: from <= j < i ==> !Matches(lines[j], pattern)
    ensures FirstMatchFrom(lines, pattern, from).None? ==>
              forall j :: from <= j < |lines| ==> !Matches(lines[j], pattern)
    decreases |lines| - from
  {
    if from < |lines| && !Matches(lines[from], pattern) {
      FirstMatchFromIsLowest(lines, pattern, from + 1);
    }
  }

  /**
   * find_and_patch_line, as a whole: on success the line number is one
   * more than the lowest matching index, that line holds the rewritten
   * text and no other line and not the length changes; on failure (no
   * match, or an unknown action on the match) the number is -1 and the
   * lines are as they were.
   */
  lemma PatchLinesSpec(lines: seq<string>, pattern: string, action: string)
    ensures var o := PatchLines(lines, pattern, action);
            && |o.lines| == |lines|
            && (o.success ==>
                  && 1 <= o.lineNumber <= |lines|
                  && Matches(lines[o.lineNumber - 1], pattern)
                  && (forall j :: 0 <= j < o.lineNumber - 1 ==> !Matches(lines[j], pattern))
                  && Some(o.lines[o.lineNumber - 1]) == PatchedLine(lines[o.lineNumber - 1], action)
                  && (forall j :: 0 <= j < |lines| && j != o.lineNumber - 1 ==> o.lines[j] == lines[j]))
            && (!o.success ==> o.lineNumber == -1 && o.lines == lines)
            && (o.success <==> (exists j :: 0 <= j < |lines| && Matches(lines[j], pattern))
                               && (action == "comment" || action == "remove"))
  {
    FirstMatchFromIsLowest(lines, pattern, 0);
  }

  /** `remove` blanks the matched line and keeps the others and the count of lines. */
  lemma RemoveBlanks(lines: seq<string>, pattern: string)
    requires exists j :: 0 <= j < |lines| && Matches(lines[j], pattern)
    ensures var o := PatchLines(lines, pattern, "remove");
            o.success && o.lines == lines[o.lineNumber - 1 := ""]
  {
    PatchLinesSpec(lines, pattern, "remove");
  }

  lemma {:induction false} LeadingSpaces(n: nat, rest: string)
    ensures LeadingWs(Spaces(n) + rest) == n + LeadingWs(rest)
    decreases n
  {
    if n > 0 {
      assert (Spaces(n) + rest)[1..] == Spaces(n - 1) + rest;
      LeadingSpaces(n - 1, rest);
    } else {
      assert Spaces(n) + rest == rest;
    }
  }

  /** Spaces before text that does not start with whitespace: stripping removes exactly them. */
  lemma PaddedStrip(n: nat, body: string)
    requires |body| > 0 && !IsSpace(body[0])
    ensures LeadingWs(Spaces(n) + body) == n && Strip(Spaces(n) + body) == body
  {
    LeadingSpaces(n, body);
    assert (Spaces(n) + body)[n..] == body;
  }

  /**
   * A commented line is a `//` comment that keeps the original code: its
   * indentation is spaces only, and stripped it is the original stripped
   * text behind "// ", or the original itself when that already began with
   * "//". Its whitespace is as wide as before, plus one when it was already
   * a comment.
   */
  lemma CommentKeepsCode(line: string)
    ensures var t := PatchedLine(line, "comment").value;
            && "//" <= Strip(t)
            && Strip(t) == (if "//" <= Strip(line) then Strip(line) else "// " + Strip(line))
            && LeadingWs(t) == LeadingWs(line) + (if "//" <= Strip(line) then 1 else 0)
            && forall j :: 0 <= j < LeadingWs(line) ==> t[j] == ' '
  {
    if "//" <= Strip(line) {
      CommentAgain(line);
    } else {
      CommentFresh(line);
    }
  }

  /** A line already commented gets one more space of indentation. */
  lemma CommentAgain(line: string)
    requires "//" <= Strip(line)
    ensures var t := PatchedLine(line, "comment").value;
            t == Spaces(LeadingWs(line) + 1) + Strip(line)
            && LeadingWs(t) == LeadingWs(line) + 1 && Strip(t) == Strip(line)
  {
    var stripped := Strip(line);
    var n := LeadingWs(line);
    assert Spaces(n) + "" + " " + stripped == Spaces(n + 1) + stripped;
    PaddedStrip(n + 1, stripped);
  }

  /** Any other line gets "// " in front of its code, after the same indentation. */
  lemma CommentFresh(line: string)
    requires !("//" <= Strip(line))
    ensures var t := PatchedLine(line, "comment").value;
            t == Spaces(LeadingWs(line)) + ("// " + Strip(line))
            && LeadingWs(t) == LeadingWs(line) && Strip(t) == "// " + Strip(line)
  {
    var stripped := Strip(line);
    var n := LeadingWs(line);
    assert Spaces(n) + "//" + " " + stripped == Spaces(n) + ("// " + stripped);
    PaddedStrip(n, "// " + stripped);
  }

  /** Reading a file into lines and writing them back gives the same text. */
  lemma {:induction false} SplitConcat(s: string)
    ensures Concat(SplitLines(s)) == s
    decreases |s|
  {
    if |s| > 0 {
      var n := LineLength(s);
      SplitConcat(s[n..]);
      assert [s[..n]] + SplitLines(s[n..]) == SplitLines(s);
      assert s[..n] + s[n..] == s;
    }
  }

  /** The count is the total of patch entries applied, or -1. */
  function TotalPatches(config: seq<FileConfig>): nat
  {
    if |config| == 0 then 0 else TotalPatches(config[..|config| - 1]) + |config[|config| - 1].patches|
  }

  /**
   * apply_patches returns -1 or the number of patch entries of the whole
   * configuration; it never adds or deletes a file, and files that the
   * configuration does not name keep their text.
   */
  lemma {:induction false} ApplyAllCount(files: map<string, string>, config: seq<FileConfig>)
    ensures var o := ApplyAll(files, config);
            && (o.count == -1 || o.count == TotalPatches(config))
            && o.files.Keys == files.Keys
            && forall f :: f in files && (forall fc :: fc in config ==> fc.file != f) ==> o.files[f] == files[f]
    decreases |config|
  {
    if |config| > 0 {
      var init := config[..|config| - 1];
      ApplyAllCount(files, init);
      forall fc | fc in init
        ensures fc in config
      {
      }
    }
  }

  /**
   * A successful run found every named file and every pattern: each file's
   * patches, applied in order to the file as the earlier entries left it,
   * all succeeded.
   */
  lemma {:induction false} SuccessMeansAllFound(files: map<string, string>, config: seq<FileConfig>)
    requires ApplyAll(files, config).count >= 0
    ensures forall fc :: fc in config ==> fc.file in files
    decreases |config|
  {
    if |config| > 0 {
      var init := config[..|config| - 1];
      var o := ApplyAll(files, init);
      SuccessMeansAllFound(files, init);
      ApplyAllCount(files, init);
      forall fc | fc in config
        ensures fc.file in files
      {
        if fc !in init {
          assert fc == config[|config| - 1];
        }
      }
    }
  }
}
