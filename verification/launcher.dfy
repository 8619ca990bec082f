/** `NewPipeMode` and `LaunchPipe` (launcher_pipe.go): prepare the flags for
    pipe mode, then create two pipes, bind the child-side ends through the
    platform binder, format the arguments, start the child, release the
    child-side ends and wrap the parent-side ends in a `PipeWebSocket`.

    Every operating-system step is an input (`World`); the flag formatter and
    the default command setup are parameters, since their bodies belong to
    the rest of the launcher. */
module Launcher {
  import opened Errors
  import opened Flags
  import opened Process
  import opened Binder
  import Transport

  const WritePipeContext := "failed to create write pipe"
  const ReadPipeContext := "failed to create read pipe"

  /** The launcher fields this core reads or writes. `launched` is the
      at-most-once latch behind `hasLaunched`; `parserDone` is `parser.done`. */
  datatype Launcher = Launcher(flags: Flags, launched: bool, parserDone: bool, pid: Option<nat>)

  /** `NewPipeMode`, applied to the launcher `New()` returned: no debugging
      port, no leakless helper, the pipe flag on, URL parsing switched off. */
  function NewPipeMode(base: Launcher): (l: Launcher)
    ensures RemoteDebuggingPort !in l.flags && Leakless !in l.flags
    ensures RemoteDebuggingPipe in l.flags && l.flags[RemoteDebuggingPipe] == []
    ensures forall f :: f != RemoteDebuggingPort && f != Leakless && f != RemoteDebuggingPipe ==>
              (f in l.flags <==> f in base.flags) && (f in l.flags ==> l.flags[f] == base.flags[f])
    ensures l.parserDone
    ensures l.launched == base.launched && l.pid == base.pid
  {
    var noPort := Delete(base.flags, RemoteDebuggingPort);
    var noLeakless := Delete(noPort, Leakless);
    base.(flags := Set(noLeakless, RemoteDebuggingPipe, []), parserDone := true)
  }

  // ------------------------------------------------------------ the launch

  /** `os.Pipe()`: the read end and the write end of a fresh pipe, or an error. */
  datatype PipeOutcome = PipeOk(read: File, write: File) | PipeErr(err: Err)

  /** `cmd.Start()`: the child's pid, or an error. */
  datatype StartOutcome = StartOk(pid: nat) | StartErr(err: Err)

  /** What the operating system decides during one launch: the browser binary
      lookup, the two `os.Pipe` calls, `cmd.Start`, and what the child will
      write on its output pipe before that stream ends with `childEnd`. */
  datatype World = World(
    bin: Result<string>,
    writePipe: PipeOutcome,
    readPipe: PipeOutcome,
    start: StartOutcome,
    childOutput: seq<Transport.byte>,
    childEnd: Err)

  /** The state of one pipe end as the parent holds it. */
  datatype EndState = NotCreated | Open | Closed

  /** The four ends: `writePipe` yields (chromeRead, ourWrite), `readPipe`
      yields (ourRead, chromeWrite). */
  datatype Ends = Ends(chromeRead: EndState, ourWrite: EndState, ourRead: EndState, chromeWrite: EndState)

  datatype Role = ChromeRead | OurWrite | OurRead | ChromeWrite

  function StateOf(e: Ends, role: Role): EndState {
    match role
    case ChromeRead => e.chromeRead
    case OurWrite => e.ourWrite
    case OurRead => e.ourRead
    case ChromeWrite => e.chromeWrite
  }

  const NoEnds := Ends(NotCreated, NotCreated, NotCreated, NotCreated)

  /** Nothing the parent created is still open. */
  predicate NoneOpen(e: Ends) {
    forall role :: StateOf(e, role) != Open
  }

  /** One `LaunchPipe` call: the launcher afterwards, the state of every pipe
      end in the parent, the arguments `FormatArgs` produced (if it ran), the
      command handed to `cmd.Start` (if it got that far), and the transport
      given to the protocol client or the error returned. */
  datatype Launch = Launch(
    launcher: Launcher,
    ends: Ends,
    args: Option<seq<string>>,
    spawned: Option<Cmd>,
    result: Result<Transport.PipeWebSocket>)

  /** Every step of the launch succeeds. */
  predicate LaunchSucceeds(l: Launcher, w: World, bind: PipeBinder) {
    && !l.launched
    && w.bin.Success?
    && w.writePipe.PipeOk?
    && w.readPipe.PipeOk?
    && bind(l.flags, w.writePipe.read, w.readPipe.write).result.Success?
    && w.start.StartOk?
  }

  /** `LaunchPipe`. `bind` is the platform's `preparePipeConfig`, `format` is
      `FormatArgs`, `setupCmd` the launcher's default command setup. */
  function LaunchPipe(l: Launcher, w: World, bind: PipeBinder,
                      format: Flags -> seq<string>, setupCmd: Cmd -> Cmd): (r: Launch)
    // at most one launch per launcher, and a refused one touches nothing
    ensures l.launched ==> r == Launch(l, NoEnds, None, None, Failure(AlreadyLaunched))
    ensures r.launcher.launched
    // nothing else of the launcher changes but the binder's flags and, on success, the pid
    ensures r.launcher.parserDone == l.parserDone
    ensures r.result.Failure? ==> r.launcher.pid == l.pid
    ensures r.ends.ourRead == NotCreated ==> r.launcher.flags == l.flags
    // a failed binary lookup is returned unchanged, before any pipe exists
    ensures !l.launched && w.bin.Failure? ==> r.result == Failure(w.bin.error) && r.ends == NoEnds
    ensures r.result.Success? <==> LaunchSucceeds(l, w, bind)
    // no pipe end outlives a failed launch
    ensures r.result.Failure? ==> NoneOpen(r.ends)
    // success: the child-side ends are released, the parent-side ends belong to the transport
    ensures r.result.Success? ==>
              && r.ends == Ends(Closed, Open, Open, Closed)
              && r.result.value.input.file == w.readPipe.read
              && r.result.value.output.file == w.writePipe.write
              && !r.result.value.input.closed && !r.result.value.output.closed
              && Transport.Valid(r.result.value)
              && Transport.Unread(r.result.value) == w.childOutput
              && r.result.value.output.written == []
              && r.result.value.input.end == w.childEnd
              && r.launcher.pid == Some(w.start.pid)
    // arguments are formatted only after a successful binding, from the flags it left
    ensures r.args.Some? <==>
              !l.launched && w.bin.Success? && w.writePipe.PipeOk? && w.readPipe.PipeOk? &&
              bind(l.flags, w.writePipe.read, w.readPipe.write).result.Success?
    ensures r.args.Some? ==>
              && r.launcher.flags == bind(l.flags, w.writePipe.read, w.readPipe.write).flags
              && r.args.value == format(r.launcher.flags)
    ensures r.spawned.Some? ==> r.args.Some?
    // the started command is `exec.Command(bin, args...)`, then the default setup, then the closure
    ensures r.spawned.Some? ==>
              r.spawned.value == Apply(bind(l.flags, w.writePipe.read, w.readPipe.write).result.value,
                                       setupCmd(Command(w.bin.value, r.args.value)))
    // once both pipes exist, the launcher keeps whatever flags the binder left, failed or not
    ensures !l.launched && w.bin.Success? && w.writePipe.PipeOk? && w.readPipe.PipeOk? ==>
              r.launcher.flags == bind(l.flags, w.writePipe.read, w.readPipe.write).flags
    ensures r.args.Some? ==> r.spawned.Some?
    // the failure of the first pipe is reported with its context, before anything exists
    ensures !l.launched && w.bin.Success? && w.writePipe.PipeErr? ==>
              r.ends == NoEnds && r.result == Failure(Wrapped(WritePipeContext, w.writePipe.err))
    // the failure of the second pipe closes both ends of the first
    ensures !l.launched && w.bin.Success? && w.writePipe.PipeOk? && w.readPipe.PipeErr? ==>
              && r.ends == Ends(Closed, Closed, NotCreated, NotCreated)
              && r.result == Failure(Wrapped(ReadPipeContext, w.readPipe.err))
    // a failed binding returns the binder's own error and starts nothing
    ensures !l.launched && w.bin.Success? && w.writePipe.PipeOk? && w.readPipe.PipeOk? &&
            bind(l.flags, w.writePipe.read, w.readPipe.write).result.Failure? ==>
              && r.result == Failure(bind(l.flags, w.writePipe.read, w.readPipe.write).result.error)
              && r.spawned.None?
    // a failed binding or a failed start closes all four ends
    ensures r.result.Failure? && r.ends.ourRead != NotCreated ==>
              r.ends == Ends(Closed, Closed, Closed, Closed)
    ensures r.spawned.Some? && w.start.StartErr? ==> r.result == Failure(w.start.err)
  {
    if l.launched then
      Launch(l, NoEnds, None, None, Failure(AlreadyLaunched))
    else
      var l := l.(launched := true);
      match w.bin
      case Failure(e) => Launch(l, NoEnds, None, None, Failure(e))
      case Success(bin) =>
        match w.writePipe
        case PipeErr(e) =>
          Launch(l, NoEnds, None, None, Failure(Wrapped(WritePipeContext, e)))
        case PipeOk(chromeReadPipe, ourWritePipe) =>
          match w.readPipe
          case PipeErr(e) =>
            Launch(l, Ends(Closed, Closed, NotCreated, NotCreated), None, None,
                   Failure(Wrapped(ReadPipeContext, e)))
          case PipeOk(ourReadPipe, chromeWritePipe) =>
            var binding := bind(l.flags, chromeReadPipe, chromeWritePipe);
            var l := l.(flags := binding.flags);
            match binding.result
            case Failure(e) =>
              Launch(l, Ends(Closed, Closed, Closed, Closed), None, None, Failure(e))
            case Success(configureCmd) =>
              var args := format(l.flags);
              var cmd := Apply(configureCmd, setupCmd(Command(bin, args)));
              match w.start
              case StartErr(e) =>
                Launch(l, Ends(Closed, Closed, Closed, Closed), Some(args), Some(cmd), Failure(e))
              case StartOk(pid) =>
                var ws := Transport.NewPipeWebSocket(ourReadPipe, ourWritePipe, w.childOutput, w.childEnd);
                Launch(l.(pid := Some(pid)), Ends(Closed, Open, Open, Closed), Some(args), Some(cmd), Success(ws))
  }

  /** A second launch on the same launcher, whatever the world does, is
      refused before any pipe is created and starts nothing. */
  lemma SecondLaunchRefused(l: Launcher, w1: World, w2: World, bind: PipeBinder,
                            format: Flags -> seq<string>, setupCmd: Cmd -> Cmd)
    ensures var first := LaunchPipe(l, w1, bind, format, setupCmd);
            var second := LaunchPipe(first.launcher, w2, bind, format, setupCmd);
            && second.result == Failure(AlreadyLaunched)
            && second.ends == NoEnds
            && second.spawned.None?
            && second.launcher == first.launcher
  {
  }

  // ---------------------------------------- reference: a rollback list

  /** The step a launch stops at: the first that fails, or `Done`. */
  datatype Stage = Guard | Binary | FirstPipe | SecondPipe | Bind | Starting | Done

  function StopStage(l: Launcher, w: World, bind: PipeBinder): Stage {
    if l.launched then Guard
    else if w.bin.Failure? then Binary
    else if w.writePipe.PipeErr? then FirstPipe
    else if w.readPipe.PipeErr? then SecondPipe
    else if bind(l.flags, w.writePipe.read, w.readPipe.write).result.Failure? then Bind
    else if w.start.StartErr? then Starting
    else Done
  }

  /** The ends acquired before a stage runs, in acquisition order. */
  function Acquired(s: Stage): seq<Role> {
    match s
    case Guard | Binary | FirstPipe => []
    case SecondPipe => [ChromeRead, OurWrite]
    case Bind | Starting | Done => [ChromeRead, OurWrite, OurRead, ChromeWrite]
  }

  /** The discipline of scoped acquisition: every acquired end is on a rollback
      list; a failing stage closes the whole list, while success closes only
      the ends handed to the child and transfers the others to the transport. */
  function RollbackState(s: Stage, role: Role): EndState {
    if role !in Acquired(s) then NotCreated
    else if s != Done then Closed
    else if role == ChromeRead || role == ChromeWrite then Closed
    else Open
  }

  /** `LaunchPipe`'s hand-written closes follow the rollback discipline on
      every path. */
  lemma LaunchFollowsRollback(l: Launcher, w: World, bind: PipeBinder,
                              format: Flags -> seq<string>, setupCmd: Cmd -> Cmd, role: Role)
    ensures StateOf(LaunchPipe(l, w, bind, format, setupCmd).ends, role) == RollbackState(StopStage(l, w, bind), role)
    ensures LaunchPipe(l, w, bind, format, setupCmd).result.Success? <==> StopStage(l, w, bind) == Done
  {
  }
}
