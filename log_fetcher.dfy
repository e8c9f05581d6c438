/**
 * `LogFetcher` (log_fetcher.py): for one host, the path of each event-log
 * file behind the host's administrative share, the local file it is copied
 * to, and the copy loop in which every failure is caught; before fetching,
 * one destination folder per log type.  Copies and folder creation act on a
 * `Machine`, which stands for the operating system.
 */
module LogFetching {
  import opened Text
  import opened WinPaths
  import opened CommandRuns
  import opened ArgParser

  // ---------------------------------------------------------------------
  // Paths
  // ---------------------------------------------------------------------

  /** A host name that fills the server slot of a UNC path: not empty, no
      separator, and none of the names pathlib treats as a device prefix. */
  predicate HostName(h: string)
  {
    h != "" && Sep !in h && AltSep !in h && h != "?" && h != "." && h != "?."
  }

  /** `input_path.drive.rstrip(":")`. */
  function DriveLetter(input: WinPath): (r: string)
    ensures |r| <= |input.drive| && r == input.drive[..|r|]
    ensures r == [] || r[|r| - 1] != ':'
    ensures forall k :: |r| <= k < |input.drive| ==> input.drive[k] == ':'
  {
    RStrip(input.drive, ':')
  }

  /** The text `\\<host>\<letter>$` of the administrative share. */
  function ShareName(host: string, letter: string): string
  {
    [Sep, Sep] + host + [Sep] + letter + "$"
  }

  /** `PureWindowsPath(f"\\\\{host}\\{drive}$")`. */
  function ShareRoot(host: string, input: WinPath): WinPath
  {
    Parse(ShareName(host, DriveLetter(input)))
  }

  /** `with_segments(*parts)`: the components joined one after another. */
  function Segments(parts: seq<string>): WinPath
    decreases |parts|
  {
    if parts == [] then WinPath("", false, [])
    else JoinName(Segments(parts[..|parts| - 1]), parts[|parts| - 1])
  }

  /** `p.relative_to(p.anchor)`: the components without drive and root. */
  function RelativeToAnchor(p: WinPath): WinPath
  {
    Segments(p.parts)
  }

  /** `path_to_user`: the input folder as seen through the host's share. */
  function RemoteDir(host: string, input: WinPath): WinPath
  {
    Join(ShareRoot(host, input), RelativeToAnchor(input))
  }

  /** `src`: the log file of type `t` on the host. */
  function SourcePath(host: string, input: WinPath, t: string): WinPath
  {
    JoinName(RemoteDir(host, input), t + ".evtx")
  }

  /** `dest_folder`: the local folder for log type `t`. */
  function DestFolder(output: WinPath, t: string): WinPath
  {
    JoinName(output, t)
  }

  /** The name `<t>_<host>.evtx` of a fetched file. */
  function DestFileName(host: string, t: string): string
  {
    t + "_" + host + ".evtx"
  }

  /** `dest`: where the log of type `t` from `host` is copied to. */
  function DestPath(output: WinPath, host: string, t: string): WinPath
  {
    JoinName(DestFolder(output, t), DestFileName(host, t))
  }

  /** The PowerShell command line that copies `src` to `dest`. */
  function CopyCommand(src: WinPath, dest: WinPath): seq<string>
  {
    ["powershell", "-Command", "Copy-Item \"" + Render(src) + "\" \"" + Render(dest) + "\""]
  }

  /** The command `run_task` issues for host `host` and log type `t`. */
  function Job(input: WinPath, output: WinPath, host: string, t: string): seq<string>
  {
    CopyCommand(SourcePath(host, input, t), DestPath(output, host, t))
  }

  // ---------------------------------------------------------------------
  // What the paths look like
  // ---------------------------------------------------------------------

  /** The share text is a UNC drive: it splits into `""`, `""`, the host and `<letter>$`. */
  lemma SplitShareName(host: string, letter: string)
    requires HostName(host) && Sep !in letter
    ensures Split(ShareName(host, letter), Sep) == ["", "", host, letter + "$"]
  {
    var tail := [host, letter + "$"];
    var pieces := [""] + ([""] + tail);
    assert JoinWith(pieces, Sep) == ShareName(host, letter) by {
      JoinCons(host, [letter + "$"], Sep);
      JoinCons("", tail, Sep);
      JoinCons("", [""] + tail, Sep);
    }
    assert pieces == ["", "", host, letter + "$"];
    assert Sep !in letter + "$";
    SplitJoin(pieces, Sep);
  }

  /** Where `splitroot` cuts the share text followed by `tail`: the drive is the share. */
  lemma SplitRootShare(host: string, letter: string, tail: string)
    requires HostName(host) && Sep !in letter
    ensures var n := ShareName(host, letter);
            SplitRoot(n) == Anchored(n, false, "")
            && (SplitRoot(n + [Sep] + tail) == Anchored(n, true, tail))
  {
    var n := ShareName(host, letter);
    var m := n + [Sep] + tail;
    var h := |host|;
    assert n[2..2 + h] == host;
    assert n[2 + h] == Sep;
    assert n[2 + h + 1..] == letter + "$";
    assert !IsLongUncPrefix(n) && !IsLongUncPrefix(m) by {
      if h == 1 {
        assert host == [host[0]];
      } else {
        assert n[3] == host[1];
      }
    }
    forall k | 2 <= k < 2 + h ensures n[k] != Sep && m[k] != Sep {
      assert n[k] == host[k - 2];
    }
    forall k | 3 + h <= k < |n| ensures n[k] != Sep && m[k] != Sep {
      assert n[k] == (letter + "$")[k - 3 - h];
    }
    assert SplitRoot(n) == Anchored(n, false, "") by {
      FindAt(n, Sep, 2, 2 + h);
      FindNone(n, Sep, 3 + h);
    }
    assert SplitRoot(m) == Anchored(n, true, tail) by {
      FindAt(m, Sep, 2, 2 + h);
      FindAt(m, Sep, 3 + h, |n|);
      assert m[..|n|] == n && m[|n| + 1..] == tail;
    }
  }

  /** pathlib gives the share text a root of its own: it is a complete `\\server\share`. */
  lemma ShareIsUncRoot(host: string, letter: string)
    requires HostName(host) && Sep !in letter
    ensures UncRootImplied(ShareName(host, letter))
  {
    var n := ShareName(host, letter);
    SplitShareName(host, letter);
    assert n[0] == Sep && n[|n| - 1] == '$';
  }

  /** Nothing of the empty rest survives parsing. */
  lemma KeepNothing()
    ensures Keep(Split("", Sep)) == []
  {
    assert Split("", Sep) == [""];
  }

  /** The share root is the share as a drive, with the root pathlib gives it. */
  lemma ShareRootShape(host: string, letter: string)
    requires HostName(host) && Sep !in letter && AltSep !in letter
    ensures Parse(ShareName(host, letter)) == WinPath(ShareName(host, letter), true, [])
  {
    var n := ShareName(host, letter);
    assert AltSep !in n by {
      assert forall x :: x in n ==> x == Sep || x in host || x in letter || x == '$';
    }
    SplitRootShare(host, letter, "");
    ParseNormalized(n);
    ShareIsUncRoot(host, letter);
    KeepNothing();
  }

  /** A path on the share prints and parses back to itself. */
  lemma ParseShareRender(host: string, letter: string, parts: seq<string>)
    requires HostName(host) && Sep !in letter && AltSep !in letter
    requires forall k :: 0 <= k < |parts| ==> ValidPart(parts[k])
    ensures Parse(Render(WinPath(ShareName(host, letter), true, parts))) == WinPath(ShareName(host, letter), true, parts)
  {
    var n := ShareName(host, letter);
    var body := JoinWith(parts, Sep);
    assert Render(WinPath(n, true, parts)) == n + [Sep] + body;
    JoinKeepsAbsent(parts, Sep, AltSep);
    assert AltSep !in n + [Sep] + body;
    SplitRootShare(host, letter, body);
    ParseNormalized(n + [Sep] + body);
    ComponentsOfJoin(parts);
  }

  /** Only the colons at the end of a drive go: `C:` gives `C`. */
  lemma DriveLetterOf(input: WinPath)
    requires Sep !in input.drive && AltSep !in input.drive
    ensures Sep !in DriveLetter(input) && AltSep !in DriveLetter(input)
    ensures |input.drive| == 2 && input.drive[1] == ':' && input.drive[0] != ':' ==> DriveLetter(input) == [input.drive[0]]
  {
    var d := input.drive;
    var r := DriveLetter(input);
    assert forall x :: x in r ==> x in d;
    if |d| == 2 && d[1] == ':' && d[0] != ':' {
      assert RStrip(d, ':') == RStrip(d[..1], ':');
      assert d[..1] == [d[0]];
    }
  }

  /** Components that pathlib keeps as they are, one after another. */
  predicate PlainParts(parts: seq<string>)
  {
    forall k :: 0 <= k < |parts| ==> PlainName(parts[k])
  }

  /** Re-joining plain components gives the relative path of those components. */
  lemma {:induction false} SegmentsPlain(parts: seq<string>)
    requires PlainParts(parts)
    ensures Segments(parts) == WinPath("", false, parts)
    decreases |parts|
  {
    if parts != [] {
      var init, last := parts[..|parts| - 1], parts[|parts| - 1];
      SegmentsPlain(init);
      JoinPlainName(WinPath("", false, init), last);
      assert init + [last] == parts;
    }
  }

  /** What `run_task` needs of its input path: a drive without separators
      (a drive letter, or none) and plain components. */
  predicate FetchableInput(input: WinPath)
  {
    Sep !in input.drive && AltSep !in input.drive && PlainParts(input.parts)
  }

  /** The remote folder is the share with the input's components below it:
      the drive's colon and the anchor are gone. */
  lemma RemoteDirShape(host: string, input: WinPath)
    requires HostName(host) && FetchableInput(input)
    ensures RemoteDir(host, input) == WinPath(ShareName(host, DriveLetter(input)), true, input.parts)
  {
    DriveLetterOf(input);
    ShareRootShape(host, DriveLetter(input));
    SegmentsPlain(input.parts);
    assert [] + input.parts == input.parts;
  }

  /** Appending `s` to a plain name keeps it plain when `s` holds no separator. */
  lemma PlainAppend(t: string, s: string)
    requires PlainName(t) && Sep !in s && AltSep !in s && (s == [] || s[0] != ':')
    ensures PlainName(t + s)
  {
    assert forall x :: x in t + s ==> x in t || x in s;
    assert (t + s)[0] == t[0];
    if |t| >= 2 {
      assert (t + s)[1] == t[1];
    }
    assert t + s != "." by {
      if |s| > 0 {
        assert |t + s| >= 2;
      }
    }
  }

  /** The two file names built from a log type and a host are plain. */
  lemma FileNamesPlain(host: string, t: string)
    requires HostName(host) && PlainName(t)
    ensures PlainName(t + ".evtx") && PlainName(DestFileName(host, t))
  {
    PlainAppend(t, ".evtx");
    assert t + "_" + host + ".evtx" == t + ("_" + host + ".evtx");
    PlainAppend(t, "_" + host + ".evtx");
  }

  /** The source is `\\<host>\<letter>$\<p1>\...\<pn>\<t>.evtx`. */
  lemma SourcePathShape(host: string, input: WinPath, t: string)
    requires HostName(host) && FetchableInput(input) && PlainName(t)
    ensures SourcePath(host, input, t)
         == WinPath(ShareName(host, DriveLetter(input)), true, input.parts + [t + ".evtx"])
    ensures Render(SourcePath(host, input, t))
         == ShareName(host, DriveLetter(input)) + [Sep] + JoinWith(input.parts + [t + ".evtx"], Sep)
  {
    RemoteDirShape(host, input);
    FileNamesPlain(host, t);
    JoinPlainName(RemoteDir(host, input), t + ".evtx");
  }

  /** Every source for a host lies in the same remote folder, which does not
      depend on the log type; only the last component names the type. */
  lemma SourcesShareRemoteDir(host: string, input: WinPath, t: string)
    requires HostName(host) && FetchableInput(input) && PlainName(t)
    ensures Parent(SourcePath(host, input, t)) == RemoteDir(host, input)
    ensures Name(SourcePath(host, input, t)) == t + ".evtx"
  {
    SourcePathShape(host, input, t);
    RemoteDirShape(host, input);
    assert (input.parts + [t + ".evtx"])[..|input.parts|] == input.parts;
  }

  /** The destination is `<output>\<t>\<t>_<host>.evtx`. */
  lemma DestPathShape(output: WinPath, host: string, t: string)
    requires Extensible(output) && HostName(host) && PlainName(t)
    ensures DestFolder(output, t) == WinPath(output.drive, output.rooted, output.parts + [t])
    ensures DestPath(output, host, t) == WinPath(output.drive, output.rooted, output.parts + [t, DestFileName(host, t)])
  {
    FileNamesPlain(host, t);
    JoinPlainNames(output, t, DestFileName(host, t));
  }

  /** The folder of a destination is the folder of its log type, and the file is `<t>_<host>.evtx`. */
  lemma DestParent(output: WinPath, host: string, t: string)
    requires Extensible(output) && HostName(host) && PlainName(t)
    ensures Parent(DestPath(output, host, t)) == DestFolder(output, t)
    ensures Name(DestPath(output, host, t)) == DestFileName(host, t)
  {
    var file := DestFileName(host, t);
    var dest := WinPath(output.drive, output.rooted, output.parts + [t, file]);
    assert Parent(dest) == WinPath(output.drive, output.rooted, output.parts + [t]) by {
      assert dest.parts[..|dest.parts| - 1] == output.parts + [t];
    }
    DestPathShape(output, host, t);
  }

  /** Printing a rooted path with two more components adds each after a `\`. */
  lemma RenderExtend(p: WinPath, x: string, y: string)
    requires p.rooted && p.parts != []
    ensures Render(WinPath(p.drive, true, p.parts + [x, y])) == Render(p) + [Sep] + x + [Sep] + y
  {
    JoinSnoc(p.parts, x, Sep);
    JoinSnoc(p.parts + [x], y, Sep);
    assert p.parts + [x] + [y] == p.parts + [x, y];
  }

  /** Printed with a root, the destination reads `<output>\<t>\<t>_<host>.evtx`. */
  lemma DestPathText(output: WinPath, host: string, t: string)
    requires HostName(host) && PlainName(t)
    requires output.rooted && output.parts != []
    ensures Render(DestPath(output, host, t)) == Render(output) + [Sep] + t + [Sep] + DestFileName(host, t)
  {
    DestPathShape(output, host, t);
    RenderExtend(output, t, DestFileName(host, t));
  }

  /** Two fetched files land on the same path only for the same host and log type. */
  lemma DestInjective(output: WinPath, h1: string, t1: string, h2: string, t2: string)
    requires Extensible(output)
    requires HostName(h1) && PlainName(t1) && HostName(h2) && PlainName(t2)
    requires DestPath(output, h1, t1) == DestPath(output, h2, t2)
    ensures h1 == h2 && t1 == t2
  {
    var n := |output.parts|;
    var f1, f2 := DestFileName(h1, t1), DestFileName(h2, t2);
    var s1, s2 := output.parts + [t1, f1], output.parts + [t2, f2];
    assert s1 == s2 by {
      DestPathShape(output, h1, t1);
      DestPathShape(output, h2, t2);
    }
    assert s1[n] == t1 && s2[n] == t2;
    assert s1[n + 1] == f1 && s2[n + 1] == f2;
    FileNameFixesHost(h1, h2, t1);
  }

  /** For one log type, the file name fixes the host. */
  lemma FileNameFixesHost(h1: string, h2: string, t: string)
    requires DestFileName(h1, t) == DestFileName(h2, t)
    ensures h1 == h2
  {
    var f1, f2 := DestFileName(h1, t), DestFileName(h2, t);
    assert f1[|t| + 1..|f1| - 5] == h1;
    assert f2[|t| + 1..|f2| - 5] == h2;
  }

  /** With no `"` in either printed path, the PowerShell script quotes both
      paths exactly: splitting it at `"` gives them back. */
  lemma CopyCommandQuotes(src: WinPath, dest: WinPath)
    requires '"' !in Render(src) && '"' !in Render(dest)
    ensures var pieces := Split(CopyCommand(src, dest)[2], '"');
            |pieces| == 5 && pieces[1] == Render(src) && pieces[3] == Render(dest)
  {
    var q := '"';
    var pieces := ["Copy-Item ", Render(src), " ", Render(dest), ""];
    assert JoinWith(pieces, q) == CopyCommand(src, dest)[2] by {
      assert JoinWith(pieces[3..], q) == Render(dest) + [q];
      assert JoinWith(pieces[2..], q) == " " + [q] + Render(dest) + [q];
      assert JoinWith(pieces[1..], q) == Render(src) + [q] + " " + [q] + Render(dest) + [q];
    }
    SplitJoin(pieces, q);
  }

  /** `run_task` pastes the printed paths between `"` without escaping: a
      `"` in the log type reaches the printed source, so the condition
      `CopyCommandQuotes` needs fails and the command no longer quotes it. */
  lemma QuoteInTypeReachesSource(host: string, input: WinPath, t: string)
    requires HostName(host) && FetchableInput(input) && PlainName(t) && '"' in t
    ensures '"' in Render(SourcePath(host, input, t))
  {
    var x := t + ".evtx";
    var r := ShareName(host, DriveLetter(input)) + [Sep] + JoinWith(input.parts + [x], Sep);
    assert Render(SourcePath(host, input, t)) == r by {
      SourcePathShape(host, input, t);
    }
    JoinEndsWith(input.parts, x, Sep);
    var i :| 0 <= i < |t| && t[i] == '"';
    assert r[|r| - |x| + i] == '"';
  }

  /** The printed source parses back to the source. */
  lemma SourceRoundTrip(host: string, input: WinPath, t: string)
    requires HostName(host) && FetchableInput(input) && PlainName(t)
    ensures Parse(Render(SourcePath(host, input, t))) == SourcePath(host, input, t)
  {
    var parts := input.parts + [t + ".evtx"];
    var letter := DriveLetter(input);
    var src := WinPath(ShareName(host, letter), true, parts);
    assert SourcePath(host, input, t) == src by {
      SourcePathShape(host, input, t);
    }
    assert forall k :: 0 <= k < |parts| ==> ValidPart(parts[k]) by {
      FileNamesPlain(host, t);
    }
    DriveLetterOf(input);
    ParseShareRender(host, letter, parts);
  }

  /** Valid components below a path with a drive letter or none keep it so. */
  lemma CanonicalExtend(p: WinPath, x: string, y: string)
    requires Canonical(p) && ValidPart(x) && ValidPart(y)
    ensures Canonical(WinPath(p.drive, p.rooted, p.parts + [x, y]))
  {
    var parts := p.parts + [x, y];
    forall k | 0 <= k < |parts| ensures ValidPart(parts[k]) {
      if k < |p.parts| {
        assert parts[k] == p.parts[k];
      }
    }
  }

  /** Under an output with a drive letter or none, the destination has one too. */
  lemma DestCanonical(output: WinPath, host: string, t: string)
    requires HostName(host) && PlainName(t) && Canonical(output)
    ensures Canonical(DestPath(output, host, t))
  {
    DestPathShape(output, host, t);
    FileNamesPlain(host, t);
    CanonicalExtend(output, t, DestFileName(host, t));
  }

  /** Under an output with a drive letter or none, the printed destination parses back to it. */
  lemma DestRoundTrip(output: WinPath, host: string, t: string)
    requires HostName(host) && PlainName(t) && Canonical(output)
    ensures Parse(Render(DestPath(output, host, t))) == DestPath(output, host, t)
  {
    DestCanonical(output, host, t);
    ParseRender(DestPath(output, host, t));
  }

  /** The paths quoted in a fetch job's command parse back to the job's source and destination. */
  lemma JobNamesItsPaths(input: WinPath, output: WinPath, host: string, t: string)
    requires HostName(host) && FetchableInput(input) && PlainName(t) && Canonical(output)
    requires '"' !in Render(SourcePath(host, input, t)) && '"' !in Render(DestPath(output, host, t))
    ensures var pieces := Split(Job(input, output, host, t)[2], '"');
            && |pieces| == 5
            && Parse(pieces[1]) == SourcePath(host, input, t)
            && Parse(pieces[3]) == DestPath(output, host, t)
  {
    CopyCommandQuotes(SourcePath(host, input, t), DestPath(output, host, t));
    SourceRoundTrip(host, input, t);
    DestRoundTrip(output, host, t);
  }

  // ---------------------------------------------------------------------
  // The copy loop
  // ---------------------------------------------------------------------

  /** The command `run_task` issues for each log type, for one host. */
  function JobFor(input: WinPath, output: WinPath, host: string): string -> seq<string>
  {
    t => Job(input, output, host, t)
  }

  // ---------------------------------------------------------------------
  // Folder creation
  // ---------------------------------------------------------------------

  /** Whether a call succeeded, and the folders that exist afterwards. */
  datatype Made = Made(ok: bool, folders: set<WinPath>)

  /** `a` is `p` or a folder above it. */
  predicate IsAncestor(a: WinPath, p: WinPath)
  {
    a.drive == p.drive && a.rooted == p.rooted && a.parts <= p.parts
  }

  /** The first `k` components of `p`, under its anchor. */
  function Prefix(p: WinPath, k: nat): WinPath
    requires k <= |p.parts|
  {
    WinPath(p.drive, p.rooted, p.parts[..k])
  }

  /** A set of folders as a file system holds them: each folder's parent is a folder. */
  predicate Closed(folders: set<WinPath>)
  {
    forall q :: q in folders ==> Parent(q) in folders
  }

  /**
   * `p.mkdir(parents=True, exist_ok=True)`: an existing folder is fine; a
   * missing anchor fails; otherwise the parent is made first and then `p`,
   * which fails where the file system refuses (`creatable`).  A failure
   * keeps the folders made before it.
   */
  function MakeDirsEffect(folders: set<WinPath>, p: WinPath, creatable: WinPath -> bool): (r: Made)
    ensures folders <= r.folders
    ensures r.ok ==> p in r.folders
    decreases |p.parts|
  {
    if p in folders then Made(true, folders)
    else if p.parts == [] then Made(false, folders)
    else
      var up := MakeDirsEffect(folders, Parent(p), creatable);
      if up.ok && creatable(p) then Made(true, up.folders + {p}) else Made(false, up.folders)
  }

  /** `mkdir` keeps every folder, adds only `p` and folders above it, and
      keeps a file system's folders closed under parents. */
  lemma {:induction false} MakeDirsGrows(folders: set<WinPath>, p: WinPath, creatable: WinPath -> bool)
    ensures var r := MakeDirsEffect(folders, p, creatable);
            && folders <= r.folders
            && (forall q :: q in r.folders && q !in folders ==> IsAncestor(q, p))
            && (Closed(folders) ==> Closed(r.folders))
            && (r.ok ==> p in r.folders)
    decreases |p.parts|
  {
    if p !in folders && p.parts != [] {
      var up := Parent(p);
      MakeDirsGrows(folders, up, creatable);
      assert up.parts <= p.parts;
    }
  }

  /** Once `mkdir` has succeeded, doing it again changes nothing. */
  lemma MakeDirsIdempotent(folders: set<WinPath>, p: WinPath, creatable: WinPath -> bool)
    ensures var r := MakeDirsEffect(folders, p, creatable);
            r.ok ==> MakeDirsEffect(r.folders, p, creatable) == Made(true, r.folders)
  {
    MakeDirsGrows(folders, p, creatable);
  }

  /** `mkdir` succeeds when the anchor exists and every missing folder
      below it may be made; folders that exist are never asked. */
  lemma {:induction false} MakeDirsSucceeds(folders: set<WinPath>, p: WinPath, creatable: WinPath -> bool)
    requires Prefix(p, 0) in folders
    requires forall k :: 0 < k <= |p.parts| && Prefix(p, k) !in folders ==> creatable(Prefix(p, k))
    ensures MakeDirsEffect(folders, p, creatable).ok
    decreases |p.parts|
  {
    if p !in folders && p.parts != [] {
      var up := Parent(p);
      assert Prefix(up, 0) == Prefix(p, 0);
      forall k | 0 < k <= |up.parts| && Prefix(up, k) !in folders ensures creatable(Prefix(up, k)) {
        assert Prefix(up, k) == Prefix(p, k);
      }
      MakeDirsSucceeds(folders, up, creatable);
      assert p == Prefix(p, |p.parts|);
    }
  }

  /** The folders `run_fetcher` creates: one per log type, in order. */
  function DestFolders(output: WinPath, types: seq<string>): (r: seq<WinPath>)
    ensures |r| == |types|
  {
    seq(|types|, k requires 0 <= k < |types| => DestFolder(output, types[k]))
  }

  /** The folder loop of `run_fetcher`: one `mkdir` per folder, stopping at
      the first that fails. */
  function Prepare(folders: set<WinPath>, dirs: seq<WinPath>, creatable: WinPath -> bool): (r: Made)
    ensures folders <= r.folders
    ensures r.ok ==> forall k :: 0 <= k < |dirs| ==> dirs[k] in r.folders
    decreases |dirs|
  {
    if dirs == [] then Made(true, folders)
    else
      var made := MakeDirsEffect(folders, dirs[0], creatable);
      if !made.ok then made else Prepare(made.folders, dirs[1..], creatable)
  }

  /** After a successful run every folder exists; no folder is lost, and a
      file system's folders stay closed under parents. */
  lemma {:induction false} PrepareReady(folders: set<WinPath>, dirs: seq<WinPath>, creatable: WinPath -> bool)
    ensures var r := Prepare(folders, dirs, creatable);
            && folders <= r.folders
            && (Closed(folders) ==> Closed(r.folders))
            && (r.ok ==> forall k :: 0 <= k < |dirs| ==> dirs[k] in r.folders)
    decreases |dirs|
  {
    if dirs != [] {
      var made := MakeDirsEffect(folders, dirs[0], creatable);
      MakeDirsGrows(folders, dirs[0], creatable);
      if made.ok {
        PrepareReady(made.folders, dirs[1..], creatable);
        var r := Prepare(made.folders, dirs[1..], creatable);
        if r.ok {
          forall k | 0 <= k < |dirs| ensures dirs[k] in r.folders {
            if k > 0 {
              assert dirs[k] == dirs[1..][k - 1];
            }
          }
        }
      }
    }
  }

  /** With every folder already there, the folder loop succeeds and changes nothing. */
  lemma {:induction false} PrepareExisting(folders: set<WinPath>, dirs: seq<WinPath>, creatable: WinPath -> bool)
    requires forall k :: 0 <= k < |dirs| ==> dirs[k] in folders
    ensures Prepare(folders, dirs, creatable) == Made(true, folders)
    decreases |dirs|
  {
    if dirs != [] {
      assert dirs[0] in folders;
      forall k | 0 <= k < |dirs[1..]| ensures dirs[1..][k] in folders {
        assert dirs[1..][k] == dirs[k + 1];
      }
      PrepareExisting(folders, dirs[1..], creatable);
    }
  }

  /** Creation is idempotent: running the folder loop again after it succeeded changes nothing. */
  lemma PrepareIdempotent(folders: set<WinPath>, dirs: seq<WinPath>, creatable: WinPath -> bool)
    ensures var r := Prepare(folders, dirs, creatable);
            r.ok ==> Prepare(r.folders, dirs, creatable) == Made(true, r.folders)
  {
    var r := Prepare(folders, dirs, creatable);
    PrepareReady(folders, dirs, creatable);
    if r.ok {
      PrepareExisting(r.folders, dirs, creatable);
    }
  }

  /** After the folder loop succeeded, every destination `run_task` can
      compute, for any host, lies in a folder that exists. */
  lemma DestinationsReady(folders: set<WinPath>, output: WinPath, types: seq<string>,
                          creatable: WinPath -> bool, host: string)
    requires Extensible(output)
    requires HostName(host) && forall k :: 0 <= k < |types| ==> PlainName(types[k])
    ensures var r := Prepare(folders, DestFolders(output, types), creatable);
            r.ok ==> forall k :: 0 <= k < |types| ==> Parent(DestPath(output, host, types[k])) in r.folders
  {
    var dirs := DestFolders(output, types);
    PrepareReady(folders, dirs, creatable);
    forall k | 0 <= k < |types| ensures Parent(DestPath(output, host, types[k])) == dirs[k] {
      DestParent(output, host, types[k]);
    }
  }

  // ---------------------------------------------------------------------
  // An example: host 10.0.0.1, the default input, log type Security,
  // output D:/out
  // ---------------------------------------------------------------------

  const ExampleHost: string := "10.0.0.1"
  const ExampleType: string := "Security"
  const ExampleOutput: string := "D:/out"

  /** `D:/out` is the folder `out` at the root of drive D. */
  lemma ExampleOutputPath()
    ensures Parse(ExampleOutput) == WinPath("D:", true, ["out"])
  {
    var p := WinPath("D:", true, ["out"]);
    assert ValidPart("out");
    assert Canonical(p);
    NormalizedRoundTrip(p);
    NormalizeRendered(p.drive, p.parts);
    assert ExampleOutput == "D:" + [AltSep] + JoinWith(["out"], AltSep);
  }

  /** The event-log folder is fit for `run_task`, with drive letter `C`. */
  lemma ExampleInputFetchable()
    ensures FetchableInput(WinPath("C:", true, ["Windows", "System32", "winevt", "Logs"]))
    ensures DriveLetter(WinPath("C:", true, ["Windows", "System32", "winevt", "Logs"])) == "C"
  {
    assert PlainName("Windows") && PlainName("System32") && PlainName("winevt") && PlainName("Logs");
    DriveLetterOf(WinPath("C:", true, ["Windows", "System32", "winevt", "Logs"]));
  }

  /** The example's host and log type are acceptable names. */
  lemma ExampleNames()
    ensures HostName(ExampleHost) && PlainName(ExampleType)
  {
  }

  /** The example's share. */
  lemma ExampleShareName()
    ensures ShareName("10.0.0.1", "C") == "\\\\10.0.0.1\\C$"
  {
  }

  /** The components of the example's source. */
  lemma ExampleSourceParts()
    ensures ["Windows", "System32", "winevt", "Logs"] + ["Security" + ".evtx"]
         == ["Windows", "System32", "winevt", "Logs", "Security.evtx"]
  {
    assert "Security" + ".evtx" == "Security.evtx";
  }

  /** The source in the example, as a value. */
  lemma ExampleSourceShape()
    ensures SourcePath(ExampleHost, Parse(DefaultInput), ExampleType)
         == WinPath("\\\\10.0.0.1\\C$", true, ["Windows", "System32", "winevt", "Logs", "Security.evtx"])
  {
    DefaultInputPath();
    ExampleInputFetchable();
    ExampleNames();
    SourcePathShape(ExampleHost, WinPath("C:", true, ["Windows", "System32", "winevt", "Logs"]), ExampleType);
    ExampleShareName();
    ExampleSourceParts();
  }

  /** The destination in the example, as a value. */
  lemma ExampleDestShape()
    ensures DestPath(Parse(ExampleOutput), ExampleHost, ExampleType)
         == WinPath("D:", true, ["out", "Security", "Security_10.0.0.1.evtx"])
  {
    ExampleOutputPath();
    ExampleNames();
    DestPathShape(WinPath("D:", true, ["out"]), ExampleHost, ExampleType);
    ExampleFileName();
    ExampleDestParts();
  }

  /** The components of the example's destination. */
  lemma ExampleDestParts()
    ensures !UncLike("D:")
    ensures ["out"] + ["Security", "Security_10.0.0.1.evtx"] == ["out", "Security", "Security_10.0.0.1.evtx"]
  {
  }

  /** The example's file name. */
  lemma ExampleFileName()
    ensures DestFileName("10.0.0.1", "Security") == "Security_10.0.0.1.evtx"
  {
  }

  /** The example's destination text, cut after its last `/` and at each `/` before. */
  lemma ExampleDestPieces()
    ensures "D:/out/Security/Security_10.0.0.1.evtx" == "D:/out/Security/" + "Security_10.0.0.1.evtx"
    ensures "D:/out/Security/" == "D:" + [AltSep] + "out" + [AltSep] + "Security" + [AltSep]
  {
  }

  /** The example's destination written with `/`, piece by piece. */
  lemma ExampleDestSpelled()
    ensures "D:/out/Security/Security_10.0.0.1.evtx"
         == "D:" + [AltSep] + JoinWith(["out", "Security", "Security_10.0.0.1.evtx"], AltSep)
  {
    var file := "Security_10.0.0.1.evtx";
    ExampleDestPieces();
    assert JoinWith(["out", "Security", file], AltSep) == "out" + [AltSep] + "Security" + [AltSep] + file;
  }

  /** `D:/out/Security/Security_10.0.0.1.evtx` is the destination as a value. */
  lemma ExampleDestParsed()
    ensures Parse("D:/out/Security/Security_10.0.0.1.evtx") == WinPath("D:", true, ["out", "Security", "Security_10.0.0.1.evtx"])
  {
    var p := WinPath("D:", true, ["out", "Security", "Security_10.0.0.1.evtx"]);
    assert ValidPart("out") && ValidPart("Security") && ValidPart("Security_10.0.0.1.evtx");
    assert Canonical(p);
    NormalizedRoundTrip(p);
    NormalizeRendered(p.drive, p.parts);
    ExampleDestSpelled();
  }

  /** The destination in the example is `D:/out/Security/Security_10.0.0.1.evtx`. */
  lemma ExampleDest()
    ensures DestPath(Parse(ExampleOutput), ExampleHost, ExampleType) == Parse("D:/out/Security/Security_10.0.0.1.evtx")
  {
    ExampleDestShape();
    ExampleDestParsed();
  }

  // ---------------------------------------------------------------------
  // The machine and the fetcher
  // ---------------------------------------------------------------------

  /** The operating system as the fetcher sees it: the folders that exist,
      the commands run so far, and what decides whether a command or a
      folder creation succeeds. */
  class Machine {
    var folders: set<WinPath>
    var runs: seq<Attempt>
    /** Whether run number `n` of a command succeeds. */
    const copies: (nat, seq<string>) -> bool
    /** Whether the file system lets a folder be created. */
    const creatable: WinPath -> bool

    constructor(folders: set<WinPath>, copies: (nat, seq<string>) -> bool, creatable: WinPath -> bool)
      ensures this.folders == folders && runs == []
      ensures this.copies == copies && this.creatable == creatable
    {
      this.folders := folders;
      runs := [];
      this.copies := copies;
      this.creatable := creatable;
    }

    /** `subprocess.run(argv, check=True)`; `false` stands for the exception it raises. */
    method Run(argv: seq<string>) returns (ok: bool)
      modifies this
      ensures ok == copies(|old(runs)|, argv)
      ensures runs == old(runs) + [Attempt(argv, ok)]
      ensures folders == old(folders)
    {
      ok := copies(|runs|, argv);
      runs := runs + [Attempt(argv, ok)];
    }

    /** `p.mkdir(parents=True, exist_ok=True)`; `false` stands for the exception it raises. */
    method MakeDirs(p: WinPath) returns (ok: bool)
      modifies this
      ensures Made(ok, folders) == MakeDirsEffect(old(folders), p, creatable)
      ensures runs == old(runs)
    {
      var r := MakeDirsEffect(folders, p, creatable);
      ok := r.ok;
      folders := r.folders;
    }
  }

  /** `LogFetcher`: the hosts, the input and output folders and the log types. */
  class LogFetcher {
    const ips: seq<string>
    const inputPath: WinPath
    const outputPath: WinPath
    const logTypes: seq<string>

    /** `LogFetcher(ips, input_path, output_path, log_types)`: both paths go through `Path`. */
    constructor(ips: seq<string>, inputPath: string, outputPath: string, logTypes: seq<string>)
      ensures this.ips == ips && this.logTypes == logTypes
      ensures this.inputPath == Parse(inputPath) && this.outputPath == Parse(outputPath)
    {
      this.ips := ips;
      this.inputPath := Parse(inputPath);
      this.outputPath := Parse(outputPath);
      this.logTypes := logTypes;
    }

    /** `run_task(host)`: one copy command per log type, in order; a failed
        copy is caught and the loop goes on, so `run_task` always returns. */
    method RunTask(host: string, m: Machine)
      modifies m
      ensures m.runs == old(m.runs) + Outcomes(Jobs(logTypes, JobFor(inputPath, outputPath, host)), |old(m.runs)|, m.copies)
      ensures m.folders == old(m.folders)
    {
      ghost var job := JobFor(inputPath, outputPath, host);
      var pathToUser := RemoteDir(host, inputPath);
      for i := 0 to |logTypes|
        invariant m.runs == old(m.runs) + Outcomes(Jobs(logTypes[..i], job), |old(m.runs)|, m.copies)
        invariant m.folders == old(m.folders)
      {
        var t := logTypes[i];
        var destFolder := DestFolder(outputPath, t);
        var src := JoinName(pathToUser, t + ".evtx");
        var dest := JoinName(destFolder, DestFileName(host, t));
        var ps := CopyCommand(src, dest);
        ghost var before := m.runs;
        var copied := m.Run(ps);
        assert ps == job(t);
        JobsStep(logTypes, job, i);
        RunStep(old(m.runs), Jobs(logTypes[..i], job), ps, before, m.runs, m.copies);
      }
      assert logTypes[..|logTypes|] == logTypes;
    }

    /** `run_fetcher`, up to the thread pool: one folder per log type;
        `false` stands for the exception a failed `mkdir` raises. */
    method RunFetcher(m: Machine) returns (ok: bool)
      modifies m
      ensures Made(ok, m.folders) == Prepare(old(m.folders), DestFolders(outputPath, logTypes), m.creatable)
      ensures m.runs == old(m.runs)
    {
      ghost var dirs := DestFolders(outputPath, logTypes);
      var i := 0;
      while i < |logTypes|
        invariant 0 <= i <= |logTypes|
        invariant Prepare(old(m.folders), dirs, m.creatable) == Prepare(m.folders, dirs[i..], m.creatable)
        invariant m.runs == old(m.runs)
      {
        var destDir := DestFolder(outputPath, logTypes[i]);
        assert destDir == dirs[i..][0];
        assert dirs[i..][1..] == dirs[i + 1..];
        var made := m.MakeDirs(destDir);
        if !made {
          return false;
        }
        i := i + 1;
      }
      ok := true;
    }
  }
}
