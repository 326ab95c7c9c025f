/**
 * The severity model both repository validators share
 * (scripts/validate_ui_flow.py and scripts/validate_docs_consistency.py):
 * each check is MVS, Tier or Warning; `run_all_checks` counts the failed
 * checks of each severity, and the exit code is 1 for any MVS failure, else
 * 2 for any Tier failure, else 0.
 */
module SeverityReport {

  datatype Severity = Mvs | Tier | Warning

  /** What the tally reads of one check result. */
  datatype Outcome = Outcome(severity: Severity, passed: bool)

  /** `mvs_failures`, `tier_failures` and `warnings` of a `ValidationReport`. */
  datatype Counts = Counts(mvsFailures: nat, tierFailures: nat, warnings: nat)

  /** The counters after the tally loop has seen `outcomes`. */
  function Tally(outcomes: seq<Outcome>): (c: Counts)
    ensures c.mvsFailures + c.tierFailures + c.warnings <= |outcomes|
  {
    if outcomes == [] then Counts(0, 0, 0)
    else
      var c := Tally(outcomes[..|outcomes| - 1]);
      var o := outcomes[|outcomes| - 1];
      if o.passed then c
      else match o.severity
        case Mvs => c.(mvsFailures := c.mvsFailures + 1)
        case Tier => c.(tierFailures := c.tierFailures + 1)
        case Warning => c.(warnings := c.warnings + 1)
  }

  /** The positions of the failed checks of one severity. */
  function FailedAt(outcomes: seq<Outcome>, s: Severity): set<nat>
  {
    set i: nat | i < |outcomes| && !outcomes[i].passed && outcomes[i].severity == s
  }

  /** The positions of all failed checks. */
  function Failed(outcomes: seq<Outcome>): set<nat>
  {
    set i: nat | i < |outcomes| && !outcomes[i].passed
  }

  /** The counter of one severity. */
  function Counter(c: Counts, s: Severity): nat
  {
    match s
    case Mvs => c.mvsFailures
    case Tier => c.tierFailures
    case Warning => c.warnings
  }

  /** Each counter is the number of failed checks of its severity. */
  lemma {:induction false} TallyCountsFailures(outcomes: seq<Outcome>, s: Severity)
    ensures Counter(Tally(outcomes), s) == |FailedAt(outcomes, s)|
  {
    if outcomes != [] {
      var n := |outcomes| - 1;
      TallyCountsFailures(outcomes[..n], s);
      FailedAtSnoc(outcomes, s);
      assert n !in FailedAt(outcomes[..n], s);
    } else {
      assert FailedAt(outcomes, s) == {};
    }
  }

  /** The failed positions of one severity grow by at most the last position. */
  lemma FailedAtSnoc(outcomes: seq<Outcome>, s: Severity)
    requires outcomes != []
    ensures var n := |outcomes| - 1;
      FailedAt(outcomes, s) == FailedAt(outcomes[..n], s) + if !outcomes[n].passed && outcomes[n].severity == s then {n} else {}
  {
    var n := |outcomes| - 1;
    forall i: nat | i < n
      ensures outcomes[..n][i] == outcomes[i]
    {
    }
  }

  /** Every failed check raises exactly one counter. */
  lemma TallyCountsEveryFailure(outcomes: seq<Outcome>)
    ensures Tally(outcomes).mvsFailures + Tally(outcomes).tierFailures + Tally(outcomes).warnings == |Failed(outcomes)|
  {
    TallyCountsFailures(outcomes, Mvs);
    TallyCountsFailures(outcomes, Tier);
    TallyCountsFailures(outcomes, Warning);
    PartitionFailed(outcomes);
  }

  /** The failed positions split by severity. */
  lemma PartitionFailed(outcomes: seq<Outcome>)
    ensures Failed(outcomes) == FailedAt(outcomes, Mvs) + FailedAt(outcomes, Tier) + FailedAt(outcomes, Warning)
    ensures |Failed(outcomes)| == |FailedAt(outcomes, Mvs)| + |FailedAt(outcomes, Tier)| + |FailedAt(outcomes, Warning)|
  {
    var m, t, w := FailedAt(outcomes, Mvs), FailedAt(outcomes, Tier), FailedAt(outcomes, Warning);
    assert m * t == {} && (m + t) * w == {};
    assert |m + t| == |m| + |t|;
    assert |m + t + w| == |m + t| + |w|;
  }

  /** The tally loop of `run_all_checks`. */
  method TallyFailures(outcomes: seq<Outcome>) returns (c: Counts)
    ensures c == Tally(outcomes)
  {
    c := Counts(0, 0, 0);
    var i := 0;
    while i < |outcomes|
      invariant 0 <= i <= |outcomes|
      invariant c == Tally(outcomes[..i])
    {
      assert outcomes[..i + 1][..i] == outcomes[..i];
      var o := outcomes[i];
      if !o.passed {
        if o.severity == Mvs {
          c := c.(mvsFailures := c.mvsFailures + 1);
        } else if o.severity == Tier {
          c := c.(tierFailures := c.tierFailures + 1);
        } else {
          c := c.(warnings := c.warnings + 1);
        }
      }
      i := i + 1;
    }
    assert outcomes[..i] == outcomes;
  }

  /** `ValidationReport.exit_code`. */
  function ExitCode(c: Counts): (code: int)
    ensures code == 0 <==> c.mvsFailures == 0 && c.tierFailures == 0
  {
    if c.mvsFailures > 0 then 1
    else if c.tierFailures > 0 then 2
    else 0
  }

  /** The exit code of a set of check outcomes: 1 for a failed MVS check, else 2 for a failed Tier check, else 0; warnings never matter. */
  lemma ExitCodeOfOutcomes(outcomes: seq<Outcome>)
    ensures ExitCode(Tally(outcomes)) == 1 <==> exists i :: 0 <= i < |outcomes| && !outcomes[i].passed && outcomes[i].severity == Mvs
    ensures ExitCode(Tally(outcomes)) == 2 <==>
      (forall i :: 0 <= i < |outcomes| && outcomes[i].severity == Mvs ==> outcomes[i].passed)
      && exists i :: 0 <= i < |outcomes| && !outcomes[i].passed && outcomes[i].severity == Tier
    ensures ExitCode(Tally(outcomes)) == 0 <==>
      forall i :: 0 <= i < |outcomes| && outcomes[i].severity != Warning ==> outcomes[i].passed
  {
    TallyCountsFailures(outcomes, Mvs);
    TallyCountsFailures(outcomes, Tier);
    NonEmptyFailedAt(outcomes, Mvs);
    NonEmptyFailedAt(outcomes, Tier);
  }

  lemma NonEmptyFailedAt(outcomes: seq<Outcome>, s: Severity)
    ensures |FailedAt(outcomes, s)| > 0 <==> exists i :: 0 <= i < |outcomes| && !outcomes[i].passed && outcomes[i].severity == s
  {
    var f := FailedAt(outcomes, s);
    if f != {} {
      var i :| i in f;
      assert 0 <= i < |outcomes| && !outcomes[i].passed && outcomes[i].severity == s;
    }
    if exists i :: 0 <= i < |outcomes| && !outcomes[i].passed && outcomes[i].severity == s {
      var i :| 0 <= i < |outcomes| && !outcomes[i].passed && outcomes[i].severity == s;
      assert i in f;
    }
  }

  /** The warning counter never changes the exit code. */
  lemma ExitCodeIgnoresWarnings(c: Counts, w: nat)
    ensures ExitCode(c.(warnings := w)) == ExitCode(c)
    ensures ExitCode(c) in {0, 1, 2}
  {
  }
}
