/** The two `git diff` invocations `main` issues and how their outputs are joined. */
module GitDiff {
  import opened Wrappers
  import opened Text

  /** The CLI settings that shape the unified diff. */
  datatype DiffOptions = DiffOptions(contextLines: int, exhaustive: bool, excludeFileTypes: seq<string>)

  /** The unfiltered listing of every changed path and its change kind. */
  function NameStatusCommand(fromCommit: string, toCommit: string): (cmd: seq<string>)
    ensures |cmd| == 5 && cmd[0] == "git" && cmd[1] == "diff" && cmd[2] == "--name-status"
    ensures cmd[3] == fromCommit && cmd[4] == toCommit
  {
    ["git", "diff", "--name-status", fromCommit, toCommit]
  }

  /** The change kinds kept in the unified diff: always Modified (`M`), and
      Added (`A`) too in exhaustive mode. */
  function DiffFilter(exhaustive: bool): (f: string)
    ensures 'M' in f
    ensures 'A' in f <==> exhaustive
    ensures forall c :: c in f ==> c == 'M' || c == 'A'
    ensures forall i, j :: 0 <= i < j < |f| ==> f[i] != f[j]
  {
    if exhaustive then "MA" else "M"
  }

  const ExcludePrefix: string := ":(exclude)*"

  /** The pathspec that drops every path ending in `fileType`. */
  function ExcludeSpec(fileType: string): (spec: string)
    ensures ExcludePrefix <= spec && spec[|ExcludePrefix|..] == fileType
  {
    ExcludePrefix + fileType
  }

  /** Builds the unified-diff command the way `main` does: the six fixed
      arguments, then, when there are excluded file types, `-- .` and one
      exclude pathspec per type in the given order. */
  method ModifiedCommand(fromCommit: string, toCommit: string, opts: DiffOptions) returns (cmd: seq<string>)
    ensures |cmd| == if opts.excludeFileTypes == [] then 6 else 8 + |opts.excludeFileTypes|
    ensures cmd[..6] == ["git", "diff", "--diff-filter=" + DiffFilter(opts.exhaustive),
                         "-U" + IntToString(opts.contextLines), fromCommit, toCommit]
    ensures opts.excludeFileTypes != [] ==> cmd[6] == "--" && cmd[7] == "."
    ensures forall i :: 0 <= i < |opts.excludeFileTypes| ==> cmd[8 + i] == ExcludeSpec(opts.excludeFileTypes[i])
    ensures ParseModifiedCommand(cmd) == Some(Invocation(fromCommit, toCommit, opts))
  {
    var types := opts.excludeFileTypes;
    cmd := ["git", "diff", "--diff-filter=" + DiffFilter(opts.exhaustive),
            "-U" + IntToString(opts.contextLines), fromCommit, toCommit];
    if |types| > 0 {
      cmd := cmd + ["--", "."];
      var i := 0;
      while i < |types|
        invariant 0 <= i <= |types|
        invariant |cmd| == 8 + i
        invariant cmd[..6] == ["git", "diff", "--diff-filter=" + DiffFilter(opts.exhaustive),
                               "-U" + IntToString(opts.contextLines), fromCommit, toCommit]
        invariant cmd[6] == "--" && cmd[7] == "."
        invariant forall j :: 0 <= j < i ==> cmd[8 + j] == ExcludeSpec(types[j])
      {
        cmd := cmd + [ExcludeSpec(types[i])];
        i := i + 1;
      }
    }
    ParseOfBuilt(cmd, fromCommit, toCommit, opts);
  }

  /** What a unified-diff command line asks git for. */
  datatype Invocation = Invocation(fromCommit: string, toCommit: string, opts: DiffOptions)

  function ParseFilter(arg: string): (exhaustive: Option<bool>) {
    if arg == "--diff-filter=M" then Some(false)
    else if arg == "--diff-filter=MA" then Some(true)
    else None
  }

  function ParseContext(arg: string): (contextLines: Option<int>) {
    if |arg| >= 2 && arg[..2] == "-U" then ParseInt(arg[2..]) else None
  }

  function ParseExcludes(args: seq<string>): (r: Option<seq<string>>)
    ensures r.Some? ==> |r.value| == |args|
  {
    if args == [] then Some([])
    else if ExcludePrefix <= args[0] then
      match ParseExcludes(args[1..])
      case None => None
      case Some(rest) => Some([args[0][|ExcludePrefix|..]] + rest)
    else None
  }

  /** Reads a command line back into the settings that produce it; `None`
      for anything `ModifiedCommand` cannot have built. */
  function ParseModifiedCommand(cmd: seq<string>): (invocation: Option<Invocation>) {
    if |cmd| < 6 || cmd[0] != "git" || cmd[1] != "diff" then None
    else
      match (ParseFilter(cmd[2]), ParseContext(cmd[3]))
      case (Some(exhaustive), Some(context)) =>
        var excludes :=
          if |cmd| == 6 then Some([])
          else if |cmd| >= 8 && cmd[6] == "--" && cmd[7] == "." then ParseExcludes(cmd[8..])
          else None;
        (match excludes
         case None => None
         case Some(types) => Some(Invocation(cmd[4], cmd[5], DiffOptions(context, exhaustive, types))))
      case _ => None
  }

  lemma {:induction false} ParseExcludeSpecs(args: seq<string>, types: seq<string>)
    requires |args| == |types|
    requires forall i :: 0 <= i < |args| ==> args[i] == ExcludeSpec(types[i])
    ensures ParseExcludes(args) == Some(types)
  {
    if args != [] {
      ParseExcludeSpecs(args[1..], types[1..]);
      assert [args[0][|ExcludePrefix|..]] + types[1..] == types;
    }
  }

  lemma ParseOfBuilt(cmd: seq<string>, fromCommit: string, toCommit: string, opts: DiffOptions)
    requires |cmd| == if opts.excludeFileTypes == [] then 6 else 8 + |opts.excludeFileTypes|
    requires cmd[..6] == ["git", "diff", "--diff-filter=" + DiffFilter(opts.exhaustive),
                          "-U" + IntToString(opts.contextLines), fromCommit, toCommit]
    requires opts.excludeFileTypes != [] ==> cmd[6] == "--" && cmd[7] == "."
    requires forall i :: 0 <= i < |opts.excludeFileTypes| ==> cmd[8 + i] == ExcludeSpec(opts.excludeFileTypes[i])
    ensures ParseModifiedCommand(cmd) == Some(Invocation(fromCommit, toCommit, opts))
  {
    assert cmd[0] == "git" && cmd[1] == "diff" && cmd[4] == fromCommit && cmd[5] == toCommit;
    assert cmd[2] == "--diff-filter=" + DiffFilter(opts.exhaustive);
    assert ParseFilter(cmd[2]) == Some(opts.exhaustive);
    var u := cmd[3];
    assert u == "-U" + IntToString(opts.contextLines);
    assert u[2..] == IntToString(opts.contextLines);
    ParseIntToString(opts.contextLines);
    assert ParseContext(cmd[3]) == Some(opts.contextLines);
    if opts.excludeFileTypes != [] {
      ParseExcludeSpecs(cmd[8..], opts.excludeFileTypes);
    }
  }

  /** `name_status + "\n\n" + modified`: both outputs, in order, separated by a blank line. */
  function ComposeDiff(nameStatus: string, modified: string): (d: string)
    ensures |d| == |nameStatus| + 2 + |modified|
    ensures d[..|nameStatus|] == nameStatus
    ensures d[|nameStatus|..|nameStatus| + 2] == "\n\n"
    ensures d[|nameStatus| + 2..] == modified
  {
    nameStatus + "\n\n" + modified
  }

  datatype DiffError = NoDiffOutput

  /** The guard `main` applies before asking for a review. */
  function CheckDiff(diff: string): (r: Result<string, DiffError>)
    ensures r.Success? <==> diff != ""
    ensures r.Success? ==> r.value == diff
  {
    if |diff| == 0 then Failure(NoDiffOutput) else Success(diff)
  }

  /** The composed diff is never empty, so the guard never fires, even when
      git reports nothing at all. */
  lemma NoDiffGuardUnreachable(nameStatus: string, modified: string)
    ensures CheckDiff(ComposeDiff(nameStatus, modified)) == Success(ComposeDiff(nameStatus, modified))
  {
  }
}
