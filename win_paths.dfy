/**
 * Windows paths as Python's pathlib (3.12, `PureWindowsPath`) parses,
 * joins and prints them: a drive (`C:`, `\\server\share` or empty), an
 * optional root separator, and the remaining components.  Both `\` and
 * `/` separate components; pathlib keeps `\`.
 */
module WinPaths {
  import opened Text

  const Sep: char := '\\'
  const AltSep: char := '/'

  datatype WinPath = WinPath(drive: string, rooted: bool, parts: seq<string>)

  /** A component as parsing leaves it: non-empty, not `.`, free of separators. */
  predicate ValidPart(x: string)
  {
    x != "" && x != "." && Sep !in x && AltSep !in x
  }

  predicate WellFormed(p: WinPath)
  {
    forall k :: 0 <= k < |p.parts| ==> ValidPart(p.parts[k])
  }

  /** The three pieces `ntpath.splitroot` cuts a path into. */
  datatype Anchored = Anchored(drive: string, rooted: bool, rest: string)

  /** The long UNC prefix `\\?\UNC\`, compared without regard to case. */
  predicate IsLongUncPrefix(n: string)
  {
    && |n| >= 8
    && n[0] == Sep && n[1] == Sep && n[2] == '?' && n[3] == Sep
    && (n[4] == 'U' || n[4] == 'u') && (n[5] == 'N' || n[5] == 'n')
    && (n[6] == 'C' || n[6] == 'c') && n[7] == Sep
  }

  /**
   * `ntpath.splitroot` on a string whose separators are all `\`: a UNC or
   * device drive runs up to the separator after its share name, a drive
   * letter is the first two characters when the second is `:`.
   */
  function SplitRoot(n: string): (a: Anchored)
    ensures a.drive + (if a.rooted then [Sep] else []) + a.rest == n
  {
    if |n| >= 1 && n[0] == Sep then
      if |n| >= 2 && n[1] == Sep then
        var start := if IsLongUncPrefix(n) then 8 else 2;
        var i := Find(n, Sep, start);
        if i == -1 then Anchored(n, false, "")
        else
          var j := Find(n, Sep, i + 1);
          if j == -1 then Anchored(n, false, "")
          else
            assert n == n[..j] + [Sep] + n[j + 1..];
            Anchored(n[..j], true, n[j + 1..])
      else Anchored("", true, n[1..])
    else if |n| >= 2 && n[1] == ':' then
      if |n| >= 3 && n[2] == Sep then
        assert n == n[..2] + [Sep] + n[3..];
        Anchored(n[..2], true, n[3..])
      else Anchored(n[..2], false, n[2..])
    else Anchored("", false, n)
  }

  /**
   * pathlib gives a UNC drive found without a root one anyway when it has
   * the complete form `\\server\share` (server not `?` or `.`) or
   * `\\?\UNC\server\share`.
   */
  predicate UncRootImplied(drive: string)
  {
    && |drive| > 0 && drive[0] == Sep && drive[|drive| - 1] != Sep
    && var pieces := Split(drive, Sep);
    || (|pieces| == 4 && pieces[2] !in ["", "?", ".", "?."])
    || |pieces| == 6
  }

  /** The pieces of a split that survive: pathlib drops empty ones and `.`. */
  function Keep(pieces: seq<string>): (r: seq<string>)
    ensures forall k :: 0 <= k < |r| ==> r[k] != "" && r[k] != "." && r[k] in pieces
  {
    if pieces == [] then []
    else (if pieces[0] == "" || pieces[0] == "." then [] else [pieces[0]]) + Keep(pieces[1..])
  }

  /** `Path(s)` on Windows. */
  function Parse(s: string): (p: WinPath)
    ensures WellFormed(p)
  {
    var n := Replace(s, AltSep, Sep);
    var a := SplitRoot(n);
    var pieces := Split(a.rest, Sep);
    assert AltSep !in a.rest by {
      assert forall k :: 0 <= k < |a.rest| ==> a.rest[k] == n[|n| - |a.rest| + k];
    }
    SplitKeepsAbsent(a.rest, Sep, AltSep);
    WinPath(a.drive, a.rooted || UncRootImplied(a.drive), Keep(pieces))
  }

  /** `ntpath.splitdrive(x)[0] != ""`. */
  predicate HasDrive(x: string)
  {
    SplitRoot(Replace(x, AltSep, Sep)).drive != ""
  }

  /** `str(p)`: drive, root and components joined by `\`; a relative path
      whose first component looks like a drive is prefixed by `.\`; the empty
      path prints as `.`. */
  function Render(p: WinPath): string
  {
    if p.drive != "" || p.rooted then
      p.drive + (if p.rooted then [Sep] else []) + JoinWith(p.parts, Sep)
    else
      var shown := if p.parts != [] && HasDrive(p.parts[0]) then ["."] + p.parts else p.parts;
      var body := JoinWith(shown, Sep);
      if body == "" then "." else body
  }

  /** A rooted path prints as its drive, `\` and its components joined by `\`. */
  lemma RenderRooted(p: WinPath)
    requires p.rooted
    ensures Render(p) == p.drive + [Sep] + JoinWith(p.parts, Sep)
  {
  }

  /** A drive after which pathlib inserts a separator before relative
      components: a UNC or device drive, ending in neither `:` nor a separator. */
  predicate UncLike(drive: string)
  {
    drive != "" && drive[|drive| - 1] !in [':', Sep, AltSep]
  }

  /**
   * `p / q` (ntpath.join, then parsing): a rooted `q` replaces the root and
   * components (keeping `p`'s drive when `q` has none); a `q` on another
   * drive replaces everything; otherwise `q`'s components are appended.
   */
  function Join(p: WinPath, q: WinPath): WinPath
  {
    if q.rooted then
      WinPath(if q.drive != "" || p.drive == "" then q.drive else p.drive, true, q.parts)
    else if q.drive != "" && AsciiLower(q.drive) != AsciiLower(p.drive) then
      WinPath(q.drive, q.parts != [] && UncLike(q.drive), q.parts)
    else
      var drive := if q.drive != "" then q.drive else p.drive;
      var parts := p.parts + q.parts;
      WinPath(drive, p.rooted || (parts != [] && UncLike(drive)), parts)
  }

  /** `p / name` for a string `name`. */
  function JoinName(p: WinPath, name: string): WinPath
  {
    Join(p, Parse(name))
  }

  /** `p.parent`. */
  function Parent(p: WinPath): WinPath
  {
    if p.parts == [] then p else WinPath(p.drive, p.rooted, p.parts[..|p.parts| - 1])
  }

  /** `p.name`. */
  function Name(p: WinPath): string
  {
    if p.parts == [] then "" else p.parts[|p.parts| - 1]
  }

  /** A single component that pathlib keeps as it is: valid and not drive-like. */
  predicate PlainName(x: string)
  {
    ValidPart(x) && !(|x| >= 2 && x[1] == ':')
  }

  /** A plain name parses to a relative path of that one component. */
  lemma ParsePlainName(x: string)
    requires PlainName(x)
    ensures Parse(x) == WinPath("", false, [x])
  {
    ReplaceAbsent(x, AltSep, Sep);
    assert SplitRoot(x) == Anchored("", false, x);
    SplitJoin([x], Sep);
    assert Keep([x]) == [x];
  }

  /** Paths after which `/` with a plain name appends a component: rooted,
      or with no drive, or with a drive letter. After a bare `\\server` or
      `\\?\C:` drive, `ntpath.join` folds the name into the drive instead. */
  predicate Extensible(p: WinPath)
  {
    p.rooted || p.drive == "" || (|p.drive| == 2 && p.drive[1] == ':')
  }

  /** Joining a plain name appends it as the last component; the drive and
      the root stay. */
  lemma JoinPlainName(p: WinPath, x: string)
    requires Extensible(p) && PlainName(x)
    ensures JoinName(p, x) == WinPath(p.drive, p.rooted, p.parts + [x])
    ensures Name(JoinName(p, x)) == x
  {
    ParsePlainName(x);
  }

  /** Joining two plain names appends both. */
  lemma JoinPlainNames(p: WinPath, x: string, y: string)
    requires Extensible(p) && PlainName(x) && PlainName(y)
    ensures JoinName(p, x) == WinPath(p.drive, p.rooted, p.parts + [x])
    ensures JoinName(JoinName(p, x), y) == WinPath(p.drive, p.rooted, p.parts + [x, y])
  {
    var q := WinPath(p.drive, p.rooted, p.parts + [x]);
    assert JoinName(p, x) == q by {
      JoinPlainName(p, x);
    }
    assert JoinName(q, y) == WinPath(p.drive, p.rooted, p.parts + [x, y]) by {
      JoinPlainName(q, y);
      assert q.parts + [y] == p.parts + [x, y];
    }
  }

  /** Paths with a drive letter or no drive, on which `ParseRender` shows
      printing and parsing agree. Share paths are not among them. */
  predicate Canonical(p: WinPath)
  {
    && WellFormed(p)
    && (|| p.drive == ""
        || (|p.drive| == 2 && p.drive[1] == ':' && p.drive[0] != Sep && p.drive[0] != AltSep))
  }

  /** Dropping nothing from valid components. */
  lemma {:induction false} KeepValid(parts: seq<string>)
    requires forall k :: 0 <= k < |parts| ==> ValidPart(parts[k])
    ensures Keep(parts) == parts
    decreases |parts|
  {
    if parts != [] {
      KeepValid(parts[1..]);
      assert parts == [parts[0]] + parts[1..];
    }
  }

  /** Valid components joined by `\` split back into themselves. */
  lemma ComponentsOfJoin(parts: seq<string>)
    requires forall k :: 0 <= k < |parts| ==> ValidPart(parts[k])
    ensures Keep(Split(JoinWith(parts, Sep), Sep)) == parts
  {
    if parts == [] {
      assert Split("", Sep) == [""];
    } else {
      SplitJoin(parts, Sep);
      KeepValid(parts);
    }
  }

  /** Parsing a string that has no `/` in it. */
  lemma ParseNormalized(s: string)
    requires AltSep !in s
    ensures var a := SplitRoot(s);
            Parse(s) == WinPath(a.drive, a.rooted || UncRootImplied(a.drive), Keep(Split(a.rest, Sep)))
  {
    ReplaceAbsent(s, AltSep, Sep);
  }

  /** The first character of a join of valid components is not a separator. */
  lemma JoinStart(parts: seq<string>)
    requires parts != [] && forall k :: 0 <= k < |parts| ==> ValidPart(parts[k])
    ensures var b := JoinWith(parts, Sep);
            |parts[0]| > 0 && b != [] && b[0] == parts[0][0] && !IsSepChar(b[0])
            && (|parts| > 1 ==> |b| > |parts[0]| && b[|parts[0]|] == Sep)
            && (|parts[0]| >= 2 ==> b[1] == parts[0][1])
  {
    var b := JoinWith(parts, Sep);
    if |parts| > 1 {
      assert b == parts[0] + [Sep] + JoinWith(parts[1..], Sep);
    }
    assert parts[0][0] in parts[0];
  }

  predicate IsSepChar(c: char)
  {
    c == Sep || c == AltSep
  }

  /** Where `splitroot` cuts a drive, root and joined components. */
  lemma SplitRootOfAnchored(drive: string, rooted: bool, parts: seq<string>)
    requires Canonical(WinPath(drive, rooted, parts)) && (drive != "" || rooted)
    ensures var s := drive + (if rooted then [Sep] else []) + JoinWith(parts, Sep);
            SplitRoot(s) == Anchored(drive, rooted, JoinWith(parts, Sep))
  {
    var root: string := if rooted then [Sep] else [];
    var body := JoinWith(parts, Sep);
    var s := drive + root + body;
    if parts != [] {
      JoinStart(parts);
    }
    assert s[|drive| + |root|..] == body;
    if drive == "" {
      assert s == [Sep] + body;
    } else if rooted {
      assert s[..2] == drive && s[2] == Sep;
    } else {
      assert s[..2] == drive;
    }
  }

  /** Round trip for a path with a drive letter or a root. */
  lemma ParseRenderAnchored(p: WinPath)
    requires Canonical(p) && (p.drive != "" || p.rooted)
    ensures Parse(Render(p)) == p
  {
    var root: string := if p.rooted then [Sep] else [];
    var body := JoinWith(p.parts, Sep);
    var s := p.drive + root + body;
    assert Render(p) == s;
    JoinKeepsAbsent(p.parts, Sep, AltSep);
    assert AltSep !in s;
    SplitRootOfAnchored(p.drive, p.rooted, p.parts);
    ParseNormalized(s);
    ComponentsOfJoin(p.parts);
  }

  /** For a component, having a drive means a `:` in second place. */
  lemma HasDriveValid(x: string)
    requires ValidPart(x)
    ensures HasDrive(x) <==> |x| >= 2 && x[1] == ':'
  {
    ReplaceAbsent(x, AltSep, Sep);
    assert x[0] in x;
  }

  /** Parsing valid components joined by `\`, none of them at the front drive-like. */
  lemma ParseJoined(shown: seq<string>)
    requires shown != []
    requires forall k :: 0 <= k < |shown| ==> Sep !in shown[k] && AltSep !in shown[k] && shown[k] != ""
    requires !IsSepChar(shown[0][0]) && !(|shown[0]| >= 2 && shown[0][1] == ':')
    ensures Parse(JoinWith(shown, Sep)) == WinPath("", false, Keep(shown))
  {
    var s := JoinWith(shown, Sep);
    JoinKeepsAbsent(shown, Sep, AltSep);
    if |shown| > 1 {
      assert s == shown[0] + [Sep] + JoinWith(shown[1..], Sep);
    }
    assert s[0] == shown[0][0];
    assert |shown[0]| >= 2 ==> s[1] == shown[0][1];
    assert SplitRoot(s) == Anchored("", false, s);
    ParseNormalized(s);
    SplitJoin(shown, Sep);
  }

  /** Round trip for a relative path whose first component looks like a drive. */
  lemma ParseRenderDotted(p: WinPath)
    requires Canonical(p) && p.drive == "" && !p.rooted && p.parts != [] && HasDrive(p.parts[0])
    ensures Parse(Render(p)) == p
  {
    var shown := ["."] + p.parts;
    assert shown[1..] == p.parts;
    JoinStart(p.parts);
    var s := JoinWith(shown, Sep);
    assert s == "." + [Sep] + JoinWith(p.parts, Sep);
    assert Render(p) == s;
    ParseJoined(shown);
    KeepValid(p.parts);
  }

  /** Round trip for a relative path whose first component is not drive-like. */
  lemma ParseRenderPlain(p: WinPath)
    requires Canonical(p) && p.drive == "" && !p.rooted && p.parts != [] && !HasDrive(p.parts[0])
    ensures Parse(Render(p)) == p
  {
    HasDriveValid(p.parts[0]);
    JoinStart(p.parts);
    assert Render(p) == JoinWith(p.parts, Sep);
    ParseJoined(p.parts);
    KeepValid(p.parts);
  }

  /** Round trip for a relative path without a drive. */
  lemma ParseRenderRelative(p: WinPath)
    requires Canonical(p) && p.drive == "" && !p.rooted
    ensures Parse(Render(p)) == p
  {
    if p.parts == [] {
      assert Render(p) == ".";
      ParseNormalized(".");
      assert Split(".", Sep) == ["."];
    } else if HasDrive(p.parts[0]) {
      ParseRenderDotted(p);
    } else {
      ParseRenderPlain(p);
    }
  }

  /** Printing then parsing gives the path back. */
  lemma ParseRender(p: WinPath)
    requires Canonical(p)
    ensures Parse(Render(p)) == p
  {
    if p.drive != "" || p.rooted {
      ParseRenderAnchored(p);
    } else {
      ParseRenderRelative(p);
    }
  }
}
