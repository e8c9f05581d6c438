/**
 * The command line of the log fetcher: its defaults, the one required
 * option, and the rewriting of every `\` in the input and output paths to
 * `/` before they become paths.
 */
module ArgParser {
  import opened Wrappers
  import opened Text
  import opened WinPaths

  const DefaultInput: string := "C:/Windows/System32/winevt/Logs"
  const DefaultLogTypes: seq<string> := ["Security", "System", "Application"]
  const DefaultThreads: int := 4
  const DefaultCompress: bool := false

  /** The options as given on the command line; `None` when omitted.
      `compress` says whether the `--compress` flag was present. */
  datatype CommandLine = CommandLine(
    input: Option<string>,
    output: Option<string>,
    logTypes: Option<seq<string>>,
    compress: bool,
    threads: Option<int>)

  /** The arguments after defaults and normalisation; the paths are
      `Path` values on Windows. */
  datatype Args = Args(
    input: WinPath,
    output: WinPath,
    logTypes: seq<string>,
    compress: bool,
    threads: int)

  /** argparse's usage errors: `--output` missing, or `--log-types` given
      without a value (it takes one or more). */
  datatype UsageError = MissingOutput | NoLogTypes

  /** `s.replace("\\", "/")`. */
  function NormalizeSeparators(s: string): (r: string)
    ensures Sep !in r
    ensures |r| == |s|
    ensures forall i :: 0 <= i < |s| ==> r[i] == (if s[i] == Sep then AltSep else s[i])
  {
    Replace(s, Sep, AltSep)
  }

  /** Normalising twice is normalising once. */
  lemma NormalizeIdempotent(s: string)
    ensures NormalizeSeparators(NormalizeSeparators(s)) == NormalizeSeparators(s)
  {
    ReplaceAbsent(NormalizeSeparators(s), Sep, AltSep);
  }

  /** Windows paths read both separators alike, so normalising does not
      change the path a string denotes. */
  lemma ParseIgnoresNormalize(s: string)
    ensures Parse(NormalizeSeparators(s)) == Parse(s)
  {
    assert Replace(NormalizeSeparators(s), AltSep, Sep) == Replace(s, AltSep, Sep);
  }

  /** A path printed by pathlib and then normalised parses back to itself. */
  lemma NormalizedRoundTrip(p: WinPath)
    requires Canonical(p)
    ensures Parse(NormalizeSeparators(Render(p))) == p
  {
    ParseIgnoresNormalize(Render(p));
    ParseRender(p);
  }

  /** Normalising a printed path with a drive letter and a root spells it with `/`. */
  lemma NormalizeRendered(drive: string, parts: seq<string>)
    requires Canonical(WinPath(drive, true, parts)) && drive != ""
    ensures NormalizeSeparators(Render(WinPath(drive, true, parts))) == drive + [AltSep] + JoinWith(parts, AltSep)
  {
    assert Render(WinPath(drive, true, parts)) == drive + [Sep] + JoinWith(parts, Sep);
    ReplaceJoin(parts, Sep, AltSep);
    ReplaceConcat(drive + [Sep], JoinWith(parts, Sep), Sep, AltSep);
    ReplaceConcat(drive, [Sep], Sep, AltSep);
    ReplaceAbsent(drive, Sep, AltSep);
    assert Replace([Sep], Sep, AltSep) == [AltSep];
  }

  /** The default input, piece by piece. */
  lemma DefaultInputSpelled()
    ensures DefaultInput == "C:" + [AltSep] + JoinWith(["Windows", "System32", "winevt", "Logs"], AltSep)
  {
    assert JoinWith(["Windows", "System32", "winevt", "Logs"], AltSep)
      == "Windows" + [AltSep] + "System32" + [AltSep] + "winevt" + [AltSep] + "Logs";
  }

  /** The default input is the event-log folder on drive C. */
  lemma DefaultInputPath()
    ensures Parse(DefaultInput) == WinPath("C:", true, ["Windows", "System32", "winevt", "Logs"])
  {
    var p := WinPath("C:", true, ["Windows", "System32", "winevt", "Logs"]);
    assert ValidPart("Windows") && ValidPart("System32") && ValidPart("winevt") && ValidPart("Logs");
    assert Canonical(p);
    NormalizedRoundTrip(p);
    NormalizeRendered(p.drive, p.parts);
    DefaultInputSpelled();
  }

  /** `generate_args_dict`: defaults for omitted options, the usage errors,
      and the two paths normalised and turned into paths. */
  function GenerateArgs(cl: CommandLine): (r: Result<Args, UsageError>)
    ensures r == Failure(NoLogTypes) <==> cl.logTypes == Some([])
    ensures r == Failure(MissingOutput) <==> cl.logTypes != Some([]) && cl.output.None?
    ensures r.Success? ==>
      && r.value.input == Parse(cl.input.GetOr(DefaultInput))
      && r.value.output == Parse(cl.output.value)
      && r.value.logTypes == cl.logTypes.GetOr(DefaultLogTypes)
      && r.value.compress == (cl.compress || DefaultCompress)
      && r.value.threads == cl.threads.GetOr(DefaultThreads)
  {
    if cl.logTypes == Some([]) then Failure(NoLogTypes)
    else if cl.output.None? then Failure(MissingOutput)
    else
      var input := cl.input.GetOr(DefaultInput);
      ParseIgnoresNormalize(input);
      ParseIgnoresNormalize(cl.output.value);
      Success(Args(
        Parse(NormalizeSeparators(input)),
        Parse(NormalizeSeparators(cl.output.value)),
        cl.logTypes.GetOr(DefaultLogTypes),
        cl.compress,
        cl.threads.GetOr(DefaultThreads)))
  }

  /** With only `--output` given, every other option takes its default:
      the event-log folder on drive C, the three usual logs in order, no
      compression and four threads. */
  lemma OmittedOptions(output: string)
    ensures GenerateArgs(CommandLine(None, Some(output), None, false, None))
         == Success(Args(WinPath("C:", true, ["Windows", "System32", "winevt", "Logs"]),
                         Parse(output), ["Security", "System", "Application"], false, 4))
  {
    DefaultInputPath();
  }
}
