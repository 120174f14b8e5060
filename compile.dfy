/**
 * The compile request pipeline of `compileLatex`
 * (src/controllers/compile.controller.js): input validation, the prepared
 * source and compiler arguments, and the lifecycle of one attempt. The
 * child process is a stream of events (output chunks, the timer, a spawn
 * error, the close with its exit code); the filesystem is the temp
 * directory's existence plus the answer `readFile` gives for `main.pdf`.
 */
module Compile {
  import opened Wrappers
  import opened Text
  import opened Bytes
  import SourcePrep

  const MaxLogBytes: nat := 4096
  const DefaultTimeoutMs: nat := 15000

  // ------------------------------------------------------------------ requests

  /** `req.body` after the route's text parser: a string, or anything else. */
  datatype Body = TextBody(text: string) | OtherBody

  datatype Request = Request(body: Body, contentType: Option<string>, contentLength: Option<string>)

  /** Operator configuration read from the environment; `timeoutMs` is the number a set `LATEX_TIMEOUT_MS` denotes. */
  datatype Config = Config(tectonicPath: Option<string>, tectonicFlags: Option<string>, timeoutMs: Option<nat>)

  // ------------------------------------------------------------------- replies

  /** A `log` field: a decoded stderr tail or an error message. */
  datatype Log = StderrTail(bytes: seq<byte>) | Message(text: string)

  datatype Reply =
    | Json(status: nat, message: string, log: Option<Log>)
    | Unsupported(contentType: string, contentLength: string)
    | Pdf(pdfType: string, disposition: string, byteLength: nat, body: seq<byte>)
  {
    function Status(): nat {
      match this
      case Json(status, _, _) => status
      case Unsupported(_, _) => 415
      case Pdf(_, _, _, _) => 200
    }
  }

  const NotInstalled: string :=
    "Tectonic is not installed on the server. Install it and ensure PATH or set TECTONIC_PATH to the full path of tectonic."

  /** `x || d` for a header or environment string. */
  function OrDefault(x: Option<string>, d: string): (r: string)
    ensures x.Some? && x.value != "" ==> r == x.value
    ensures x.None? || x.value == "" ==> r == d
  {
    if x.Some? && x.value != "" then x.value else d
  }

  // ---------------------------------------------------------------- validation

  datatype Admission = Admitted(raw: string) | Refused(reply: Reply)

  /**
   * The three checks that run before any directory is made or process spawned,
   * in their order: not a string (415), empty or blank (422), holds NUL (400).
   */
  function Admit(req: Request): (a: Admission)
    ensures a.Refused? && a.reply.Status() == 415 <==> req.body.OtherBody?
    ensures a.Refused? && a.reply.Status() == 422 <==> req.body.TextBody? && IsBlank(req.body.text)
    ensures a.Refused? && a.reply.Status() == 400 <==>
      req.body.TextBody? && !IsBlank(req.body.text) && '\0' in req.body.text
    ensures a.Admitted? <==> req.body.TextBody? && !IsBlank(req.body.text) && '\0' !in req.body.text
    ensures a.Admitted? ==> a.raw == req.body.text
    ensures a.Refused? && req.body.OtherBody? ==>
      a.reply == Unsupported(OrDefault(req.contentType, "none"), OrDefault(req.contentLength, "unknown"))
  {
    match req.body
    case OtherBody =>
      Refused(Unsupported(OrDefault(req.contentType, "none"), OrDefault(req.contentLength, "unknown")))
    case TextBody(raw) =>
      if raw == "" || Trim(raw) == "" then Refused(Json(422, "Empty LaTeX source.", None))
      else if '\0' in raw then Refused(Json(400, "Invalid input: contains binary data.", None))
      else Admitted(raw)
  }

  // ------------------------------------------------------------- command line

  function Command(cfg: Config): string {
    OrDefault(cfg.tectonicPath, "tectonic")
  }

  function TimeoutMs(cfg: Config): (t: nat)
    ensures cfg.timeoutMs.None? ==> t == DefaultTimeoutMs
  {
    cfg.timeoutMs.GetOr(DefaultTimeoutMs)
  }

  /** `TECTONIC_FLAGS.trim().split(/\s+/)` when the variable is set and non-empty; nothing otherwise. */
  function FlagArgs(flags: Option<string>): seq<string> {
    if flags.Some? && flags.value != "" then SplitSpaces(Trim(flags.value)) else []
  }

  /** Flags are passed as the whitespace-separated words of the variable, none empty and none holding space. */
  lemma FlagArgsAreWords(flags: string)
    requires !IsBlank(flags)
    ensures NoEmptyPiece(FlagArgs(Some(flags)))
    ensures forall k :: 0 <= k < |FlagArgs(Some(flags))| ==> NoSpace(FlagArgs(Some(flags))[k])
    ensures Concat(FlagArgs(Some(flags))) == NonSpace(flags)
  {
    var t := Trim(flags);
    SplitTrimmedHasNoEmptyPiece(t, "");
    SplitPiecesHaveNoSpace(t, "");
    SplitKeepsNonSpace(t, "");
    TrimKeepsNonSpace(flags);
  }

  /** A set but blank `TECTONIC_FLAGS` passes one empty argument. */
  lemma BlankFlagsPassEmptyArgument(flags: string)
    requires flags != "" && IsBlank(flags)
    ensures FlagArgs(Some(flags)) == [""]
  {
  }

  /** The argument vector: `-o <dir>`, then the operator's flags, then `main.tex`. */
  method BuildArgs(tmpDir: string, flags: Option<string>) returns (args: seq<string>)
    ensures |args| == 3 + |FlagArgs(flags)|
    ensures args[0] == "-o" && args[1] == tmpDir && args[|args| - 1] == "main.tex"
    ensures args[2..|args| - 1] == FlagArgs(flags)
    ensures args == ["-o", tmpDir] + FlagArgs(flags) + ["main.tex"]
  {
    args := ["-o", tmpDir];
    if flags.Some? && flags.value != "" {
      args := args + SplitSpaces(Trim(flags.value));
    }
    args := args + ["main.tex"];
  }

  // ---------------------------------------------------------- outcome replies

  /** What the child-process `error` handler sends. */
  datatype SpawnError = SpawnError(code: string, message: string, text: string)

  /** `String(err.message || err)`. */
  function ErrorText(err: SpawnError): string {
    if err.message != "" then err.message else err.text
  }

  function ErrorReply(err: SpawnError): (r: Reply)
    ensures r.Json? && r.Status() == 500
    ensures err.code == "ENOENT" ==> r.message == NotInstalled && r.log.None?
    ensures err.code != "ENOENT" ==> r.message == "Failed to start compiler" && r.log == Some(Message(ErrorText(err)))
  {
    if err.code == "ENOENT" then Json(500, NotInstalled, None)
    else Json(500, "Failed to start compiler", Some(Message(ErrorText(err))))
  }

  /** The stderr tail attached to a failure: all of stderr up to 4096 bytes, else exactly its last 4096. */
  function LogTail(stderr: seq<byte>): (r: seq<byte>)
    ensures |stderr| <= MaxLogBytes ==> r == stderr
    ensures |stderr| > MaxLogBytes ==> |r| == MaxLogBytes && r == stderr[|stderr| - MaxLogBytes..]
  {
    Tail(stderr, MaxLogBytes)
  }

  /** The answer of `readFile(main.pdf)`. */
  datatype ReadResult = Read(bytes: seq<byte>) | ReadFailed(message: string)

  /** `code === 0` for an exit code that is `null` when the child was killed by a signal. */
  predicate ExitedCleanly(code: Option<int>) {
    code == Some(0)
  }

  /** What the `close` handler sends, from the flags and buffers at that moment. */
  function CloseReply(timedOut: bool, code: Option<int>, read: ReadResult, stderr: seq<byte>): (r: Reply)
    ensures r.Status() == 408 <==> timedOut
    ensures r.Status() == 400 <==>
      !timedOut && (!ExitedCleanly(code) || (read.Read? && !HasPdfMagic(read.bytes)))
    ensures r.Status() == 400 ==> r.Json? && r.log == Some(StderrTail(LogTail(stderr)))
    ensures r.Status() == 500 <==> !timedOut && ExitedCleanly(code) && read.ReadFailed?
    ensures r.Status() == 500 ==> r == Json(500, "Internal error reading compiled PDF", Some(Message(read.message)))
    ensures r.Status() == 200 <==> !timedOut && ExitedCleanly(code) && read.Read? && HasPdfMagic(read.bytes)
    ensures r.Status() == 200 ==>
      r.Pdf? && r.body == read.bytes && r.byteLength == |r.body| && HasPdfMagic(r.body)
      && r.pdfType == "application/pdf" && r.disposition == "inline; filename=\"output.pdf\""
  {
    if timedOut then Json(408, "Compilation timed out after 15s.", None)
    else if !ExitedCleanly(code) then Json(400, "LaTeX compilation failed", Some(StderrTail(LogTail(stderr))))
    else match read
      case ReadFailed(msg) => Json(500, "Internal error reading compiled PDF", Some(Message(msg)))
      case Read(pdf) =>
        if |pdf| == 0 || !HasPdfMagic(pdf) then
          Json(400, "Compilation did not produce a valid PDF", Some(StderrTail(LogTail(stderr))))
        else Pdf("application/pdf", "inline; filename=\"output.pdf\"", |pdf|, pdf)
  }

  /** An exit code of 0 with an unusable `main.pdf` gets the same shape of answer as a failed compile: 400 with the log tail. */
  lemma CleanExitWithBadPdfIsCompileFailure(code: Option<int>, pdf: seq<byte>, stderr: seq<byte>)
    requires !HasPdfMagic(pdf)
    ensures CloseReply(false, Some(0), Read(pdf), stderr).Status() == CloseReply(false, Some(1), Read(pdf), stderr).Status() == 400
    ensures CloseReply(false, Some(0), Read(pdf), stderr).log == CloseReply(false, Some(1), Read(pdf), stderr).log
  {
  }

  // -------------------------------------------------------- attempt lifecycle

  datatype Event =
    | StdoutData(chunk: seq<byte>)
    | StderrData(chunk: seq<byte>)
    | TimerFired
    | ChildError(err: SpawnError)
    | ChildClosed(code: Option<int>, read: ReadResult)
  {
    /** The two events whose handlers call `finalize`. */
    predicate Finishes() {
      ChildError? || ChildClosed?
    }
  }

  /**
   * The locals of one `compileLatex` call after the spawn, plus what the
   * response object has sent (`sent`; `res.headersSent` is `sent != []`).
   */
  datatype Attempt = Attempt(
    stdout: seq<byte>, stderr: seq<byte>,
    timedOut: bool, responded: bool, timerArmed: bool, killed: bool,
    dirExists: bool, sent: seq<Reply>)

  /** Just after the spawn: empty buffers, armed timer, directory present, nothing sent. */
  function Started(): Attempt {
    Attempt([], [], false, false, true, false, true, [])
  }

  /** `finalize(send)`: the first caller sends `reply`; every caller clears the timer and removes the directory. */
  function Finish(a: Attempt, reply: Reply): Attempt {
    if a.responded || a.sent != [] then a.(timerArmed := false, dirExists := false)
    else a.(responded := true, timerArmed := false, sent := a.sent + [reply], dirExists := false)
  }

  /** The reply a finishing event's `finalize` would send from state `a`. */
  function ReplyTo(a: Attempt, e: Event): Reply
    requires e.Finishes()
  {
    if e.ChildError? then ErrorReply(e.err) else CloseReply(a.timedOut, e.code, e.read, a.stderr)
  }

  /** One event handler run to completion. A cleared timer never fires. */
  function Step(a: Attempt, e: Event): Attempt {
    match e
    case StdoutData(d) => a.(stdout := a.stdout + d)
    case StderrData(d) => a.(stderr := a.stderr + d)
    case TimerFired => if a.timerArmed then a.(timedOut := true, killed := true, timerArmed := false) else a
    case ChildError(_) => Finish(a, ReplyTo(a, e))
    case ChildClosed(_, _) => Finish(a, ReplyTo(a, e))
  }

  function Run(a: Attempt, es: seq<Event>): Attempt
    decreases |es|
  {
    if es == [] then a else Run(Step(a, es[0]), es[1..])
  }

  /**
   * The attempt's invariant: at most one reply, sent exactly when `responded`;
   * once it is sent the timer is cleared and the directory gone, and until then
   * the directory exists; the child is killed exactly when the timer fired; a
   * 408 is only ever sent for a timed-out attempt.
   */
  predicate Sound(a: Attempt) {
    && |a.sent| <= 1
    && (a.responded <==> a.sent != [])
    && (a.responded ==> !a.timerArmed && !a.dirExists)
    && (!a.responded ==> a.dirExists)
    && a.killed == a.timedOut
    && (a.sent != [] && a.sent[0].Status() == 408 ==> a.timedOut)
  }

  lemma StartedSound()
    ensures Sound(Started())
  {
  }

  lemma StepSound(a: Attempt, e: Event)
    requires Sound(a)
    ensures Sound(Step(a, e))
    ensures a.sent != [] ==> Step(a, e).sent == a.sent
    ensures e.Finishes() ==> Step(a, e).sent != []
    ensures e.Finishes() && !a.responded ==> Step(a, e).sent == [ReplyTo(a, e)]
    ensures !e.Finishes() ==> Step(a, e).sent == a.sent
  {
  }

  /** Every sequence of events keeps the invariant, and a sent reply is never replaced. */
  lemma {:induction false} RunSound(a: Attempt, es: seq<Event>)
    requires Sound(a)
    ensures Sound(Run(a, es))
    ensures a.sent != [] ==> Run(a, es).sent == a.sent
    decreases |es|
  {
    if es != [] {
      StepSound(a, es[0]);
      RunSound(Step(a, es[0]), es[1..]);
    }
  }

  /**
   * Exactly once: whatever order the events come in, once an `error` or a
   * `close` has been handled exactly one reply has been sent, the timer is
   * cleared and the directory removed.
   */
  lemma {:induction false} AnsweredOnceAndCleaned(a: Attempt, es: seq<Event>, i: nat)
    requires Sound(a)
    requires i < |es| && es[i].Finishes()
    ensures |Run(a, es).sent| == 1
    ensures !Run(a, es).timerArmed && !Run(a, es).dirExists
    decreases |es|
  {
    StepSound(a, es[0]);
    if i == 0 {
      RunSound(Step(a, es[0]), es[1..]);
    } else {
      AnsweredOnceAndCleaned(Step(a, es[0]), es[1..], i - 1);
    }
  }

  /** The first `error` or `close` decides the reply; later ones only clean up. */
  lemma {:induction false} FirstFinisherDecides(a: Attempt, es: seq<Event>, i: nat)
    requires Sound(a) && !a.responded
    requires i < |es| && es[i].Finishes()
    requires forall j :: 0 <= j < i ==> !es[j].Finishes()
    ensures Run(a, es).sent == [ReplyTo(Run(a, es[..i]), es[i])]
    decreases |es|
  {
    StepSound(a, es[0]);
    if i == 0 {
      assert es[..0] == [];
      RunSound(Step(a, es[0]), es[1..]);
    } else {
      assert !Step(a, es[0]).responded;
      FirstFinisherDecides(Step(a, es[0]), es[1..], i - 1);
      assert es[1..][..i - 1] == es[..i][1..];
    }
  }

  /** A 408 reply comes with the child killed. */
  lemma TimeoutReplyMeansKilled(es: seq<Event>)
    requires Run(Started(), es).sent != [] && Run(Started(), es).sent[0].Status() == 408
    ensures Run(Started(), es).killed
  {
    RunSound(Started(), es);
  }

  // ------------------------------------------------------------- the attempt object

  /** One attempt after its source was written and the compiler spawned. */
  class CompileAttempt {
    const tmpDir: string
    const source: string
    const command: string
    const args: seq<string>
    const timeoutMs: nat

    var stdout: seq<byte>
    var stderr: seq<byte>
    var timedOut: bool
    var responded: bool
    var timerArmed: bool
    var killed: bool
    var dirExists: bool
    var sent: seq<Reply>

    function State(): Attempt
      reads this
    {
      Attempt(stdout, stderr, timedOut, responded, timerArmed, killed, dirExists, sent)
    }

    predicate Valid()
      reads this
    {
      Sound(State())
    }

    constructor (tmpDir: string, source: string, command: string, args: seq<string>, timeoutMs: nat)
      ensures Valid() && State() == Started()
      ensures this.tmpDir == tmpDir && this.source == source && this.command == command
      ensures this.args == args && this.timeoutMs == timeoutMs
    {
      this.tmpDir, this.source, this.command := tmpDir, source, command;
      this.args, this.timeoutMs := args, timeoutMs;
      stdout, stderr := [], [];
      timedOut, responded, killed := false, false, false;
      timerArmed, dirExists := true, true;
      sent := [];
    }

    method OnStdout(d: seq<byte>)
      requires Valid()
      modifies this
      ensures Valid() && State() == Step(old(State()), StdoutData(d))
    {
      stdout := stdout + d;
    }

    method OnStderr(d: seq<byte>)
      requires Valid()
      modifies this
      ensures Valid() && State() == Step(old(State()), StderrData(d))
    {
      stderr := stderr + d;
    }

    /** The timer callback: mark the attempt timed out and kill the child. */
    method OnTimer()
      requires Valid()
      modifies this
      ensures Valid() && State() == Step(old(State()), TimerFired)
    {
      if timerArmed {
        timedOut := true;
        killed := true;
        timerArmed := false;
      }
    }

    method Finalize(reply: Reply)
      requires Valid()
      modifies this
      ensures State() == Finish(old(State()), reply)
    {
      if responded || sent != [] {
        timerArmed := false;
        dirExists := false;
        return;
      }
      responded := true;
      timerArmed := false;
      sent := sent + [reply];
      dirExists := false;
    }

    method OnError(err: SpawnError)
      requires Valid()
      modifies this
      ensures Valid() && State() == Step(old(State()), ChildError(err))
    {
      Finalize(ErrorReply(err));
      StepSound(old(State()), ChildError(err));
    }

    method OnClose(code: Option<int>, read: ReadResult)
      requires Valid()
      modifies this
      ensures Valid() && State() == Step(old(State()), ChildClosed(code, read))
    {
      // The winner reads main.pdf before the directory is removed.
      if !responded && sent == [] {
        assert dirExists;
      }
      Finalize(CloseReply(timedOut, code, read, stderr));
      StepSound(old(State()), ChildClosed(code, read));
    }
  }

  // ---------------------------------------------------------------- the handler

  /** The answer of `mkdtemp`. */
  datatype TempDir = Created(path: string) | MkdtempFailed(message: string)

  /** The answer of `writeFile(main.tex)`. */
  datatype WriteResult = Written | WriteFailed(message: string)

  /**
   * `compileLatex` up to the spawn. A refused request gets its reply with no
   * directory and no attempt; a failing `mkdtemp` or `writeFile` gets the
   * outer 500, and after a failing `writeFile` the directory stays behind.
   */
  method CompileLatex(req: Request, cfg: Config, dir: TempDir, write: WriteResult)
    returns (reply: Option<Reply>, attempt: CompileAttempt?, strayDir: bool)
    ensures Admit(req).Refused? ==> reply == Some(Admit(req).reply) && attempt == null && !strayDir
    ensures Admit(req).Admitted? && dir.MkdtempFailed? ==>
      reply == Some(Json(500, "Internal server error", Some(Message(dir.message)))) && attempt == null && !strayDir
    ensures Admit(req).Admitted? && dir.Created? && write.WriteFailed? ==>
      reply == Some(Json(500, "Internal server error", Some(Message(write.message)))) && attempt == null && strayDir
    ensures Admit(req).Admitted? && dir.Created? && write.Written? ==>
      reply.None? && !strayDir && attempt != null && fresh(attempt) && attempt.Valid()
      && attempt.State() == Started() && attempt.tmpDir == dir.path
      && attempt.source == SourcePrep.PrepareSource(Admit(req).raw)
      && attempt.args == ["-o", dir.path] + FlagArgs(cfg.tectonicFlags) + ["main.tex"]
      && attempt.command == Command(cfg) && attempt.timeoutMs == TimeoutMs(cfg)
  {
    var admission := Admit(req);
    if admission.Refused? {
      return Some(admission.reply), null, false;
    }
    if dir.MkdtempFailed? {
      return Some(Json(500, "Internal server error", Some(Message(dir.message)))), null, false;
    }
    if write.WriteFailed? {
      return Some(Json(500, "Internal server error", Some(Message(write.message)))), null, true;
    }
    var source := SourcePrep.PrepareSource(admission.raw);
    var args := BuildArgs(dir.path, cfg.tectonicFlags);
    attempt := new CompileAttempt(dir.path, source, Command(cfg), args, TimeoutMs(cfg));
    reply, strayDir := None, false;
  }
}
