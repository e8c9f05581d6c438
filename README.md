# Log Fetcher — a Dafny model of its fetch jobs and path arithmetic

Log Fetcher copies Windows event logs (`Security.evtx`, `System.evtx`, …)
from remote hosts into a local folder. For each host, `LogFetcher.run_task`
works out where each log lives on that host's administrative share
(`\\<host>\<drive>$\…`) and where the copy goes locally
(`<output>\<type>\<type>_<host>.evtx`). It then runs one PowerShell
`Copy-Item` per log type and catches each failure. Before any fetching,
`LogFetcher.run_fetcher` creates one destination folder per log type.
The command line (`ArgParser`) fills in defaults, requires `--output`, and
rewrites every `\` in the two path arguments to `/` before they become
paths.

The model has these modules:

- `Wrappers` — `Option` and `Result`.
- `Text` — the string operations the program relies on: `str.replace` on
  one character, `str.find`, `str.split`, `str.join` and `str.rstrip`.
- `WinPaths` — Windows paths as pathlib (Python 3.12, `PureWindowsPath`)
  handles them:
  - a path is a drive, a root flag and a list of components;
  - `Parse` is `Path(s)`, including the root pathlib gives a complete
    `\\server\share` drive;
  - `Join` follows `ntpath.join`'s rules on parsed values;
  - `Render` is `str(p)`.
  - Printing then parsing gives the path back: `ParseRender` for a drive
    letter or no drive, `ParseShareRender` for a path on a host's share.
- `ArgParser` — the defaults, the required `--output`, and the separator
  normalisation.
- `CommandRuns` — a log of attempted commands and how the log of a copy
  loop is built.
- `LogFetching`:
  - the source and destination paths, and the PowerShell command line;
  - the `mkdir(parents=True, exist_ok=True)` effect on a set of folders;
  - the classes `Machine`, the operating system as the fetcher sees it,
    and `LogFetcher`, whose `RunTask` and `RunFetcher` are the two loops.

The external effects are oracles fixed when a `Machine` is built:

- `copies(n, argv)` says whether the `n`-th command run succeeds. A
  `false` stands for any exception `subprocess.run(..., check=True)`
  raises: a `CalledProcessError`, or for instance a `FileNotFoundError`
  when `powershell` is missing.
- `creatable(p)` says whether the file system lets folder `p` be created.

## Model

| member | source | states |
|---|---|---|
| `ArgParser.NormalizeSeparators` | arg_parser.py:27-28 | after `replace("\\", "/")` no `\` remains, the length is the same, and only backslashes change, each to `/` |
| `ArgParser.NormalizeIdempotent` | arg_parser.py:27-28 | normalising twice is the same as normalising once |
| `ArgParser.ParseIgnoresNormalize` | arg_parser.py:27-28 | on Windows, `Path` reads `\` and `/` alike, so normalising first does not change the path |
| `ArgParser.NormalizedRoundTrip` | arg_parser.py:27-28 | a path with a drive letter or no drive, printed by pathlib and then normalised, parses back to the same path |
| `ArgParser.NormalizeRendered` | arg_parser.py:27-28 | a printed path with a drive letter and a root, once normalised, reads `<drive>/<p1>/…/<pn>` |
| `ArgParser.DefaultInputPath` | arg_parser.py:18 | the default input `C:/Windows/System32/winevt/Logs` is the folder `Windows\System32\winevt\Logs` at the root of drive C |
| `ArgParser.GenerateArgs` | arg_parser.py:18-28 | `--log-types` with no value is a usage error. Otherwise a missing `--output` is one, since it has no default. On success each omitted option takes its default. The input and output are the paths their (normalised) strings name. |
| `ArgParser.OmittedOptions` | arg_parser.py:18-22 | with only `--output` given: the input is the C: event-log folder, the log types are `Security`, `System`, `Application` in that order, compress is off and 4 threads are used |
| `Text.Replace` | arg_parser.py:27 | `str.replace` of one character: same length; each character equal to `a` becomes `b`, every other one stays |
| `Text.RStrip` | log_fetcher.py:46 | `rstrip(c)` returns a prefix of `s` that does not end in `c`; everything it dropped is `c` |
| `WinPaths.Parse` | log_fetcher.py:32-33 | `Path(s)` on Windows: `/` read as `\`, the drive and root cut off as `ntpath.splitroot` does, empty and `.` components dropped; every component of the result is non-empty, not `.` and free of separators |
| `WinPaths.Render` | log_fetcher.py:58 | `str(p)`: the drive, `\` when rooted, and the components joined by `\`; its partner is `ParseRender` |
| `WinPaths.Join` | log_fetcher.py:47 | `p / q` by `ntpath.join`'s rules: a rooted `q` replaces the root and components and keeps `p`'s drive when it has none, a `q` on another drive replaces `p`, otherwise `q`'s components are appended; `JoinPlainName` states the case `run_task` uses |
| `WinPaths.ParseRender` | log_fetcher.py:47 | for a well-formed path with a drive letter or no drive, parsing the printed path gives the path back |
| `LogFetching.ParseShareRender` | log_fetcher.py:47 | for a path on the share `\\<host>\<letter>$` with valid components, parsing the printed path gives the path back |
| `WinPaths.JoinPlainName` | log_fetcher.py:50 | for a `p` that is rooted, or has a drive letter or no drive (`Extensible`), `p / name` for a plain name appends that one component and keeps the drive and the root; the new last component is `name` |
| `WinPaths.JoinPlainNames` | log_fetcher.py:50-53 | under the same condition, `p / x / y` for plain names appends `x` and then `y` |
| `LogFetching.DriveLetter` | log_fetcher.py:46 | `input_path.drive.rstrip(":")`: a prefix of the drive that does not end in `:`, and everything it drops is `:` |
| `LogFetching.ShareRoot` | log_fetcher.py:47 | `PureWindowsPath(f"\\\\{host}\\{drive}$")`: the share text parsed as a path; `ShareRootShape` states its value |
| `LogFetching.RelativeToAnchor` | log_fetcher.py:47 | `input_path.relative_to(input_path.anchor)`: the input's components joined one by one onto the empty path; `SegmentsPlain` states its value for plain components |
| `LogFetching.RemoteDir` | log_fetcher.py:47 | `path_to_user`: the share root joined with the input relative to its anchor; `RemoteDirShape` states its value |
| `LogFetching.SourcePath` | log_fetcher.py:52 | `src`: the remote folder joined with `<t>.evtx`; `SourcePathShape` states its value and text |
| `LogFetching.DestFolder` | log_fetcher.py:50 | `dest_folder`: the output joined with the log type; `DestPathShape` states its value |
| `LogFetching.DestPath` | log_fetcher.py:53 | `dest`: the type's folder joined with `<t>_<host>.evtx`; `DestPathShape` states its value |
| `LogFetching.CopyCommand` | log_fetcher.py:55-59 | the argument list `powershell`, `-Command`, `Copy-Item "<src>" "<dest>"` with both paths printed by pathlib; `CopyCommandQuotes` states how the paths are quoted |
| `LogFetching.Job` | log_fetcher.py:49-59 | the command `run_task` issues for one host and log type: the copy command from its source to its destination; `JobNamesItsPaths` states that it names those two paths |
| `LogFetching.DriveLetterOf` | log_fetcher.py:46 | `drive.rstrip(":")` turns `C:` into `C` and adds no separator |
| `LogFetching.ShareRootShape` | log_fetcher.py:47 | `PureWindowsPath("\\\\<host>\\<letter>$")` is that share as a drive, with a root and no components |
| `LogFetching.RemoteDirShape` | log_fetcher.py:46-47 | `path_to_user` is the host's share with the input's components below it; the input's drive and root are dropped |
| `LogFetching.SourcePathShape` | log_fetcher.py:46-52 | the source is `\\<host>\<letter>$\<p1>\…\<pn>\<t>.evtx`, both as a value and as printed text |
| `LogFetching.SourcesShareRemoteDir` | log_fetcher.py:46-52 | every source for a host has the remote folder (which does not depend on the log type) as its parent, and `<t>.evtx` as its name |
| `LogFetching.SourceRoundTrip` | log_fetcher.py:52 | the printed source parses back to the source |
| `LogFetching.DestPathShape` | log_fetcher.py:50-53 | under an `Extensible` output, the destination folder is `<output>\<t>` and the destination is `<output>\<t>\<t>_<host>.evtx`, with the output's drive and root |
| `LogFetching.DestParent` | log_fetcher.py:50-53 | under an `Extensible` output, the parent of the destination is the folder of its log type, and its name is `<t>_<host>.evtx` |
| `LogFetching.DestPathText` | log_fetcher.py:50-53 | under a rooted output with at least one component, the destination prints as the output, `\`, `t`, `\` and `t_host.evtx` |
| `LogFetching.DestInjective` | log_fetcher.py:50-53 | under an `Extensible` output, two (host, type) pairs with separator-free names have the same destination only if they are the same pair |
| `LogFetching.FileNameFixesHost` | log_fetcher.py:53 | for one log type, the file name `<t>_<host>.evtx` fixes the host |
| `LogFetching.DestRoundTrip` | log_fetcher.py:53 | under an output with a drive letter or no drive, the printed destination parses back to the destination |
| `LogFetching.CopyCommandQuotes` | log_fetcher.py:55-59 | when neither printed path contains `"`, the third argument of the command is `Copy-Item "<src>" "<dest>"`: split at `"`, it has exactly five pieces, the second is the printed source and the fourth the printed destination |
| `LogFetching.JobNamesItsPaths` | log_fetcher.py:46-59 | under an output with a drive letter or no drive, and when neither printed path contains `"`, the two quoted paths in a job's command parse back to that job's source and destination |
| `LogFetching.QuoteInTypeReachesSource` | log_fetcher.py:52-58 | a `"` in the log type reaches the printed source unescaped, so the quoting condition of `CopyCommandQuotes` fails |
| `LogFetching.MakeDirsEffect` | log_fetcher.py:100 | `mkdir(parents=True, exist_ok=True)` on a set of folders: it keeps every folder, and when it succeeds the folder exists |
| `LogFetching.Prepare` | log_fetcher.py:98-100 | the folder loop: one `mkdir` per folder, stopping at the first failure; it keeps every folder, and when it succeeds every folder of the list exists |
| `LogFetching.MakeDirsGrows` | log_fetcher.py:100 | `mkdir(parents=True, exist_ok=True)` keeps every folder, adds only the folder and folders above it, and keeps each folder's parent present; when it succeeds, the folder exists |
| `LogFetching.MakeDirsIdempotent` | log_fetcher.py:100 | after a successful `mkdir`, doing it again succeeds and changes nothing |
| `LogFetching.MakeDirsSucceeds` | log_fetcher.py:100 | `mkdir` succeeds when the drive's root exists and every missing folder down to the target may be created; folders that already exist need not be creatable |
| `LogFetching.PrepareReady` | log_fetcher.py:98-100 | the folder loop keeps every folder and keeps the set closed under parents; after a successful run every per-type folder exists |
| `LogFetching.PrepareExisting` | log_fetcher.py:98-100 | when every folder is already there, the folder loop succeeds and changes nothing |
| `LogFetching.PrepareIdempotent` | log_fetcher.py:98-100 | running the folder loop again after it succeeded changes nothing |
| `LogFetching.DestinationsReady` | log_fetcher.py:50 | under an `Extensible` output, after the folder loop succeeds, the parent folder of every destination `run_task` writes for any host exists |
| `LogFetching.ExampleSourceShape` | log_fetcher.py:46-52 | host `10.0.0.1`, the default input and type `Security` give the source `\\10.0.0.1\C$` with components `Windows`, `System32`, `winevt`, `Logs`, `Security.evtx` |
| `LogFetching.ExampleDest` | log_fetcher.py:50-53 | with output `D:/out`, the destination is the path `D:/out/Security/Security_10.0.0.1.evtx` |
| `CommandRuns.TaskAttempts` | log_fetcher.py:49-62 | the loop's log holds exactly one attempt per log type, in list order, each with its command and its own outcome |
| `LogFetching.Machine.Run` | log_fetcher.py:62 | running a command appends one attempt, whose outcome is the oracle's, and touches no folder |
| `LogFetching.Machine.MakeDirs` | log_fetcher.py:100 | the folders become those `MakeDirsEffect` gives; no command is run |
| `LogFetching.LogFetcher.constructor` | log_fetcher.py:31-34 | the input and output strings are turned into paths; the hosts and the log types are kept |
| `LogFetching.LogFetcher.RunTask` | log_fetcher.py:46-65 | the run log grows by exactly the attempts for the host's jobs, one per log type, in order. A failed copy does not stop the loop, the method always returns, and it creates no folder. |
| `LogFetching.LogFetcher.RunFetcher` | log_fetcher.py:97-100 | the folders become what the folder loop gives: one `mkdir` per log type, stopping with `false` at the first failure; no command is run |

## Left out

- `LogFetcher.__run_threads` and `ThreadsWorker` (log_fetcher.py:67-88, threads_worker.py): a queue drained by threads.
  - Concurrency is not modelled, so `RunFetcher` stops where the thread pool would start.
  - The pool gets the `LogFetcher` as `Thread`'s positional `group` argument, so it never reaches `run_task`. The model claims no fan-out over hosts.
- The PowerShell copy and `mkdir` are oracles (`copies`, `creatable`). The model does not say what a copy writes, or what happens when a destination already exists as a file.
- The `logger` calls and the `CONFIG.DEBUG` switches only produce console output.
- `compressor.py`, `logger.py`, `main.py` and `addresses_generator.py` hold nothing of the fetch jobs. `addresses_generator.py` is an empty stub. `main.py` reads keys the parser does not define.
- argparse's own parsing of the command-line text is not modelled: prefix abbreviations, `int` conversion of `--threads`, help and exit codes. `CommandLine` is what argparse hands over.
- `Path` on POSIX is left out: the tool targets Windows hosts, and the model follows `PureWindowsPath`.
- `Join` compares drives with `AsciiLower`, which folds only ASCII letters, where `ntpath.join` compares them with `str.lower()` and its full Unicode lower-casing. Drives that differ only in a non-ASCII letter's case are treated as different drives.
- `Join` combines parsed paths; it does not join raw strings the way `ntpath.join` does. The two differ after a drive that is not a complete share or a drive letter, such as a bare `\\nas` (from `--output //nas`) or `\\?\C:`. There `ntpath.join` folds the next name into the drive (`\\nas\Security`), while `Join` appends it as a component below a root.
- `JoinPlainName`: requires `Extensible(p)` (rooted, or no drive, or a drive letter), because of the `Join` difference above. It says nothing after a bare server or `\\?\C:` drive.
- `JoinPlainNames`: requires `Extensible(p)`, for the same reason.
- `DestPathShape`: requires an `Extensible` output. Outputs such as `//nas` or `\\?\C:` are not covered; for them the model's destination is not pathlib's.
- `DestParent`: requires an `Extensible` output, as `DestPathShape` does.
- `DestInjective`: requires an `Extensible` output, as `DestPathShape` does.
- `DestinationsReady`: requires an `Extensible` output, as `DestPathShape` does.
- `CopyCommandQuotes`: requires that neither printed path contains `"`. The program pastes both paths between `"` without escaping, and a log type or host holding `"` breaks the quoting: the command then no longer names the paths, and the rest of the name reaches PowerShell unquoted (`QuoteInTypeReachesSource` shows the condition fails).
- `NormalizedRoundTrip`: covers paths with a drive letter or no drive only. Paths on a share drive such as `\\nas\C$\out` also round-trip in pathlib, but the model proves that only for the `\\<host>\<letter>$` share in `ParseShareRender`.
- `DestRoundTrip`: covers outputs with a drive letter or no drive only. An output on a share drive such as `\\nas\C$\out` is not covered.
- `JobNamesItsPaths`: covers outputs with a drive letter or no drive only, as `DestRoundTrip` does, and only jobs whose printed paths hold no `"`, as `CopyCommandQuotes` requires.
- `SourcePathShape`, `RemoteDirShape`, `DestPathShape` and the other path lemmas require a host name with no separator (not `?` or `.`), and log types that are plain file names (`HostName`, `PlainName`, `FetchableInput`). For other names, pathlib would read extra drives or components out of the text, and the lemmas say nothing.
- `DestInjective`: path equality is exact here. pathlib's `==` compares `str(p).lower()` and NTFS ignores case, so in the program `PC1` and `pc1`, or `Security` and `security`, write the same file. The lemma proves distinct destinations only for names that differ exactly, not after case folding.
- `MakeDirsEffect`: folder existence is tested by exact path equality. On Windows, `mkdir` of `D:\out\security` when `D:\out\Security` exists finds the folder, while the model asks `creatable`.
- `ExampleSourceShape`: states the example's source as a path value rather than as one printed string. The printed text is `SourcePathShape`'s second clause applied to that value.
- `ExampleDest`: states the example's destination as the path `D:/out/Security/Security_10.0.0.1.evtx` parses to. It does not spell out the text with backslashes; `DestPathText` gives that text in general.
