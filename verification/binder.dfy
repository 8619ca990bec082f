/** The one signature both platform variants of `preparePipeConfig` share:
    given the two child-side pipe ends and the current flags, produce the new
    flags and a deferred configurator for the not-yet-started command. */
module Binder {
  import opened Errors
  import opened Flags
  import opened Process

  /** The closure `preparePipeConfig` returns, written as data: one constructor
      per platform's closure body, applied by `Apply`. */
  datatype Configurator =
    | InheritHandles(readHandle: nat, writeHandle: nat) // the Windows closure
    | PassExtraFiles(readPipe: File, writePipe: File)   // the Unix closure

  /** Runs the closure on the command, as `configureCmd(cmd)` does. */
  function Apply(c: Configurator, cmd: Cmd): (r: Cmd)
    // the Windows closure: the handle list is exactly (read, write); any other
    // attribute already set stays; nothing else of the command changes
    ensures c.InheritHandles? ==>
              && r.sysProcAttr.Some?
              && r.sysProcAttr.value.additionalInheritedHandles == [c.readHandle, c.writeHandle]
              && r.sysProcAttr.value.settings ==
                 (if cmd.sysProcAttr.Some? then cmd.sysProcAttr.value.settings else [])
              && r.(sysProcAttr := cmd.sysProcAttr) == cmd
    // the Unix closure: the extra files become exactly (read, write), replacing
    // any earlier list; nothing else of the command changes
    ensures c.PassExtraFiles? ==>
              r.extraFiles == [c.readPipe, c.writePipe] && r.(extraFiles := cmd.extraFiles) == cmd
  {
    match c
    case InheritHandles(r, w) =>
      var attr := if cmd.sysProcAttr.None? then EmptySysProcAttr else cmd.sysProcAttr.value;
      cmd.(sysProcAttr := Some(attr.(additionalInheritedHandles := [r, w])))
    case PassExtraFiles(r, w) =>
      cmd.(extraFiles := [r, w])
  }

  /** What one binder call leaves behind: the launcher's flags afterwards, the
      handles it marked inheritable (in call order), and the closure or error.
      The binder is given files, not their open/closed state: it cannot close
      the pipes, whose lifetime stays with the launcher. */
  datatype Binding = Binding(flags: Flags, marked: seq<nat>, result: Result<Configurator>)

  /** `(l *Launcher) preparePipeConfig(readPipe, writePipe)`, with the
      launcher's flags passed in and returned. */
  type PipeBinder = (Flags, File, File) -> Binding
}
