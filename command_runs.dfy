/**
 * The log of commands a machine has run, each with whether it succeeded,
 * and the log a list of commands leaves when an oracle decides each outcome.
 */
module CommandRuns {
  /** One command run: its argument vector and whether it succeeded. */
  datatype Attempt = Attempt(argv: seq<string>, succeeded: bool)

  /** The command for each item, in order. */
  function Jobs(items: seq<string>, job: string -> seq<string>): (r: seq<seq<string>>)
    ensures |r| == |items|
    decreases |items|
  {
    if items == [] then []
    else Jobs(items[..|items| - 1], job) + [job(items[|items| - 1])]
  }

  /** One more item adds its command at the end. */
  lemma JobsStep(items: seq<string>, job: string -> seq<string>, i: int)
    requires 0 <= i < |items|
    ensures Jobs(items[..i + 1], job) == Jobs(items[..i], job) + [job(items[i])]
  {
    assert items[..i + 1][..i] == items[..i];
  }

  /** The k-th command is the one for the k-th item. */
  lemma {:induction false} JobsAt(items: seq<string>, job: string -> seq<string>, k: int)
    requires 0 <= k < |items|
    ensures Jobs(items, job)[k] == job(items[k])
    decreases |items|
  {
    if k < |items| - 1 {
      JobsAt(items[..|items| - 1], job, k);
    }
  }

  /** The attempts left by running `cmds` one after another, the first of
      them as run number `start`; `copies(n, argv)` says whether run number
      `n` succeeds. */
  function Outcomes(cmds: seq<seq<string>>, start: nat, copies: (nat, seq<string>) -> bool): seq<Attempt>
  {
    seq(|cmds|, k requires 0 <= k < |cmds| => Attempt(cmds[k], copies(start + k, cmds[k])))
  }

  /** Running one more command extends the log by its attempt. */
  lemma RunStep(runs0: seq<Attempt>, done: seq<seq<string>>, c: seq<string>,
                before: seq<Attempt>, after: seq<Attempt>, copies: (nat, seq<string>) -> bool)
    requires before == runs0 + Outcomes(done, |runs0|, copies)
    requires after == before + [Attempt(c, copies(|before|, c))]
    ensures after == runs0 + Outcomes(done + [c], |runs0|, copies)
  {
  }

  /** Running the commands for a list of items makes exactly one attempt per
      item, in list order, each with that item's command; whatever the
      outcome of one, the next is attempted. */
  lemma TaskAttempts(items: seq<string>, job: string -> seq<string>, start: nat, copies: (nat, seq<string>) -> bool)
    ensures var r := Outcomes(Jobs(items, job), start, copies);
            && |r| == |items|
            && forall k :: 0 <= k < |items| ==> r[k] == Attempt(job(items[k]), copies(start + k, job(items[k])))
  {
    forall k | 0 <= k < |items| ensures Jobs(items, job)[k] == job(items[k]) {
      JobsAt(items, job, k);
    }
  }
}
