/**
 * The compiler warm-up of `startLatexWarmup` (src/utils/latexWarmup.js):
 * one background compile of a fixed document at process start whose outcome
 * is only logged. Its `close` and `error` handlers have no "already handled"
 * flag, so each one that runs clears the timer, logs and removes the directory.
 */
module Warmup {
  import opened Wrappers
  import opened Bytes
  import SourcePrep

  const MaxTailBytes: nat := 1024
  const DefaultTimeoutMs: nat := 60000

  /** The fixed warm-up document. */
  const WarmSource: string :=
    SourcePrep.DocClass + "{article}\n\\begin{document}\nWarmup" + "\\end{document}"

  /** The warm-up document is complete already: the compile path's wrapping would leave it as it is. */
  lemma WarmSourceIsComplete()
    ensures SourcePrep.DeclaresClass(WarmSource)
    ensures SourcePrep.WrapIfPartial(WarmSource) == WarmSource
  {
    assert SourcePrep.DocClassWordAt(WarmSource, 0);
  }

  /** Switched off only by `LATEX_WARMUP` set to exactly `0` or `false`. */
  predicate Enabled(setting: Option<string>) {
    !(setting == Some("0") || setting == Some("false"))
  }

  lemma EnabledUnlessSwitchedOff(setting: Option<string>)
    ensures setting.None? ==> Enabled(setting)
    ensures Enabled(Some("1")) && Enabled(Some("FALSE")) && Enabled(Some(""))
    ensures !Enabled(Some("0")) && !Enabled(Some("false"))
  {
  }

  /** What a handler writes to the log. */
  datatype Report =
    | TimedOut
    | Exited(code: Option<int>, stdoutTail: seq<byte>, stderrTail: seq<byte>)
    | Complete
    | FailedToStart(message: string)

  datatype Event =
    | StdoutData(chunk: seq<byte>)
    | StderrData(chunk: seq<byte>)
    | TimerFired
    | ChildError(message: string)
    | ChildClosed(code: Option<int>)
  {
    predicate Finishes() {
      ChildError? || ChildClosed?
    }
  }

  datatype WarmState = WarmState(
    out: seq<byte>, err: seq<byte>,
    timedOut: bool, timerArmed: bool, killed: bool, dirExists: bool,
    reports: seq<Report>)

  function Started(): WarmState {
    WarmState([], [], false, true, false, true, [])
  }

  /** The `close` handler's log line: timed out, a non-zero (or missing) exit code with both tails, or complete. */
  function CloseReport(timedOut: bool, code: Option<int>, out: seq<byte>, err: seq<byte>): (r: Report)
    ensures r.TimedOut? <==> timedOut
    ensures r.Complete? <==> !timedOut && code == Some(0)
    ensures r.Exited? <==> !timedOut && code != Some(0)
    ensures r.Exited? ==>
      && r.code == code
      && r.stdoutTail == Tail(out, MaxTailBytes) && r.stderrTail == Tail(err, MaxTailBytes)
      && |r.stdoutTail| <= MaxTailBytes && |r.stderrTail| <= MaxTailBytes
  {
    if timedOut then TimedOut
    else if code != Some(0) then Exited(code, Tail(out, MaxTailBytes), Tail(err, MaxTailBytes))
    else Complete
  }

  /** One handler run to completion; both finishing handlers clear the timer and remove the directory. */
  function Step(w: WarmState, e: Event): WarmState {
    match e
    case StdoutData(d) => w.(out := w.out + d)
    case StderrData(d) => w.(err := w.err + d)
    case TimerFired => if w.timerArmed then w.(timedOut := true, killed := true, timerArmed := false) else w
    case ChildError(m) => w.(timerArmed := false, dirExists := false, reports := w.reports + [FailedToStart(m)])
    case ChildClosed(c) =>
      w.(timerArmed := false, dirExists := false, reports := w.reports + [CloseReport(w.timedOut, c, w.out, w.err)])
  }

  function Run(w: WarmState, es: seq<Event>): WarmState
    decreases |es|
  {
    if es == [] then w else Run(Step(w, es[0]), es[1..])
  }

  /** How many finishing events a trace holds. */
  function Finishers(es: seq<Event>): nat
    decreases |es|
  {
    if es == [] then 0 else (if es[0].Finishes() then 1 else 0) + Finishers(es[1..])
  }

  /**
   * The invariant: the child is killed exactly when the timer fired, and a
   * report has been written exactly when the timer is cleared for good and
   * the directory removed.
   */
  predicate Sound(w: WarmState) {
    && w.killed == w.timedOut
    && (w.reports != [] ==> !w.timerArmed && !w.dirExists)
    && (w.reports == [] ==> w.dirExists && (w.timerArmed <==> !w.timedOut))
  }

  /** Each finishing event writes one report, and nothing else writes any. */
  lemma {:induction false} ReportsCountFinishers(w: WarmState, es: seq<Event>)
    requires Sound(w)
    ensures Sound(Run(w, es))
    ensures |Run(w, es).reports| == |w.reports| + Finishers(es)
    ensures Run(w, es).reports[..|w.reports|] == w.reports
    decreases |es|
  {
    if es != [] {
      var w1 := Step(w, es[0]);
      assert Sound(w1);
      ReportsCountFinishers(w1, es[1..]);
      assert w1.reports[..|w.reports|] == w.reports;
      assert Run(w, es).reports[..|w1.reports|] == w1.reports;
      assert Run(w, es).reports[..|w.reports|] == Run(w, es).reports[..|w1.reports|][..|w.reports|];
    }
  }

  /** With no guard, a child that reports an error and then closes is logged twice. */
  lemma ErrorThenCloseLogsTwice(m: string, c: Option<int>)
    ensures Run(Started(), [ChildError(m), ChildClosed(c)]).reports
      == [FailedToStart(m), CloseReport(false, c, [], [])]
  {
    var es := [ChildError(m), ChildClosed(c)];
    var w1 := Step(Started(), ChildError(m));
    assert w1.reports == [FailedToStart(m)] && !w1.timedOut && w1.out == [] && w1.err == [];
    assert es[1..] == [ChildClosed(c)];
    assert Run(Started(), es) == Run(w1, [ChildClosed(c)]);
    assert Run(w1, [ChildClosed(c)]) == Step(w1, ChildClosed(c));
  }

  /** After any finishing event the timer is gone: a later timer event neither marks a timeout nor kills. */
  lemma {:induction false} NoKillAfterFinish(w: WarmState, es: seq<Event>)
    requires Sound(w) && w.reports != []
    ensures Run(w, es).killed == w.killed && Run(w, es).timedOut == w.timedOut
    ensures !Run(w, es).dirExists
    decreases |es|
  {
    if es != [] {
      NoKillAfterFinish(Step(w, es[0]), es[1..]);
    }
  }

  /** One enabled warm-up after its spawn: the handlers' shared locals. */
  class WarmupRun {
    const tmpDir: string
    const command: string
    const args: seq<string>
    const timeoutMs: nat

    var out: seq<byte>
    var err: seq<byte>
    var timedOut: bool
    var timerArmed: bool
    var killed: bool
    var dirExists: bool
    var reports: seq<Report>

    function State(): WarmState
      reads this
    {
      WarmState(out, err, timedOut, timerArmed, killed, dirExists, reports)
    }

    predicate Valid()
      reads this
    {
      Sound(State())
    }

    constructor (tmpDir: string, command: string, timeoutMs: nat)
      ensures Valid() && State() == Started()
      ensures this.tmpDir == tmpDir && this.command == command && this.timeoutMs == timeoutMs
      ensures args == ["-o", tmpDir, "warm.tex"]
    {
      this.tmpDir, this.command, this.timeoutMs := tmpDir, command, timeoutMs;
      args := ["-o", tmpDir, "warm.tex"];
      out, err := [], [];
      timedOut, killed := false, false;
      timerArmed, dirExists := true, true;
      reports := [];
    }

    method OnStdout(d: seq<byte>)
      requires Valid()
      modifies this
      ensures Valid() && State() == Step(old(State()), StdoutData(d))
    {
      out := out + d;
    }

    method OnStderr(d: seq<byte>)
      requires Valid()
      modifies this
      ensures Valid() && State() == Step(old(State()), StderrData(d))
    {
      err := err + d;
    }

    method OnTimer()
      requires Valid()
      modifies this
      ensures Valid() && State() == Step(old(State()), TimerFired)
    {
      if timerArmed {
        timedOut, killed, timerArmed := true, true, false;
      }
    }

    method OnClose(code: Option<int>)
      requires Valid()
      modifies this
      ensures Valid() && State() == Step(old(State()), ChildClosed(code))
    {
      timerArmed := false;
      reports := reports + [CloseReport(timedOut, code, out, err)];
      dirExists := false;
    }

    method OnError(message: string)
      requires Valid()
      modifies this
      ensures Valid() && State() == Step(old(State()), ChildError(message))
    {
      timerArmed := false;
      reports := reports + [FailedToStart(message)];
      dirExists := false;
    }
  }

  /** The answer of `mkdtemp`, and of `writeFile(warm.tex)`. */
  datatype FsResult = FsOk | FsFailed(message: string)

  /**
   * `startLatexWarmup`: nothing when switched off; a failing `mkdtemp` or
   * `writeFile` only logs (`failure`), and a failing `writeFile` leaves its
   * directory behind; otherwise a running warm-up.
   */
  method StartLatexWarmup(setting: Option<string>, tectonicPath: Option<string>, timeoutMs: Option<nat>,
                          tmpDir: string, mkdtemp: FsResult, write: FsResult)
    returns (run: WarmupRun?, failure: Option<string>, strayDir: bool)
    ensures !Enabled(setting) ==> run == null && failure.None? && !strayDir
    ensures Enabled(setting) && mkdtemp.FsFailed? ==> run == null && failure == Some(mkdtemp.message) && !strayDir
    ensures Enabled(setting) && mkdtemp.FsOk? && write.FsFailed? ==>
      run == null && failure == Some(write.message) && strayDir
    ensures Enabled(setting) && mkdtemp.FsOk? && write.FsOk? ==>
      failure.None? && !strayDir && run != null && fresh(run) && run.Valid() && run.State() == Started()
      && run.args == ["-o", tmpDir, "warm.tex"] && run.tmpDir == tmpDir
      && run.command == (if tectonicPath.Some? && tectonicPath.value != "" then tectonicPath.value else "tectonic")
      && run.timeoutMs == timeoutMs.GetOr(DefaultTimeoutMs)
  {
    if !Enabled(setting) {
      return null, None, false;
    }
    if mkdtemp.FsFailed? {
      return null, Some(mkdtemp.message), false;
    }
    if write.FsFailed? {
      return null, Some(write.message), true;
    }
    var command := if tectonicPath.Some? && tectonicPath.value != "" then tectonicPath.value else "tectonic";
    run := new WarmupRun(tmpDir, command, timeoutMs.GetOr(DefaultTimeoutMs));
    failure, strayDir := None, false;
  }
}
