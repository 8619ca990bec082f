/** The launch with each platform's binder plugged in: how the child learns
    where its pipes are, and what a refused handle mark does to the launch. */
module LaunchPlatforms {
  import opened Errors
  import opened Flags
  import opened Process
  import opened Launcher
  import Binder
  import PipeWindows
  import PipeUnix

  /** Windows: after a successful launch the command inherits exactly the two
      child-side handles, read end first; the arguments were formatted from
      flags that carry both handle values; and reading that flag value back
      yields the inherited handles in the same order. */
  lemma WindowsLaunchWiring(l: Launcher, w: World, format: Flags -> seq<string>, setupCmd: Cmd -> Cmd)
    requires LaunchSucceeds(l, w, PipeWindows.AsBinder(None, None))
    ensures var r := LaunchPipe(l, w, PipeWindows.AsBinder(None, None), format, setupCmd);
            var handles := [w.writePipe.read.fd, w.readPipe.write.fd];
            && r.spawned.Some?
            && r.spawned.value.sysProcAttr.Some?
            && r.spawned.value.sysProcAttr.value.additionalInheritedHandles == handles
            && RemoteDebuggingIoPipes in r.launcher.flags
            && r.args == Some(format(r.launcher.flags))
            && r.spawned.value == Binder.Apply(Binder.InheritHandles(handles[0], handles[1]),
                                               setupCmd(Command(w.bin.value, format(r.launcher.flags))))
            && r.launcher.flags == Set(l.flags, RemoteDebuggingIoPipes,
                                       [PipeWindows.HandlesValue(handles[0], handles[1])])
            && PipeWindows.ParseHandlesValue(r.launcher.flags[RemoteDebuggingIoPipes][0]) == Some((handles[0], handles[1]))
  {

  }

  /** Windows: if either handle cannot be made inheritable the launch fails
      with the binder's wrapped error, all four ends are closed, no argument
      list is formatted, no process is started and the flags are unchanged. */
  lemma WindowsMarkFailure(l: Launcher, w: World, markRead: Option<Err>, markWrite: Option<Err>,
                           format: Flags -> seq<string>, setupCmd: Cmd -> Cmd)
    requires !l.launched && w.bin.Success? && w.writePipe.PipeOk? && w.readPipe.PipeOk?
    requires markRead.Some? || markWrite.Some?
    ensures var r := LaunchPipe(l, w, PipeWindows.AsBinder(markRead, markWrite), format, setupCmd);
            && r.result == Failure(if markRead.Some?
                                   then Wrapped(PipeWindows.ReadHandleContext, markRead.value)
                                   else Wrapped(PipeWindows.WriteHandleContext, markWrite.value))
            && r.ends == Ends(Closed, Closed, Closed, Closed)
            && r.args.None? && r.spawned.None?
            && r.launcher.flags == l.flags
  {

  }

  /** Unix: after a successful launch the child finds, at descriptor 3, the
      read end of the pipe whose write end the transport sends on, and at
      descriptor 4 the write end of the pipe whose read end the transport
      receives from; no flag was added. */
  lemma UnixLaunchWiring(l: Launcher, w: World, format: Flags -> seq<string>, setupCmd: Cmd -> Cmd)
    requires LaunchSucceeds(l, w, PipeUnix.AsBinder())
    ensures var r := LaunchPipe(l, w, PipeUnix.AsBinder(), format, setupCmd);
            && r.spawned.Some?
            && ChildDescriptor(r.spawned.value, PipeUnix.ChildReadDescriptor) == Some(w.writePipe.read)
            && ChildDescriptor(r.spawned.value, PipeUnix.ChildWriteDescriptor) == Some(w.readPipe.write)
            && r.result.value.output.file == w.writePipe.write
            && r.result.value.input.file == w.readPipe.read
            && r.launcher.flags == l.flags
            && r.args == Some(format(l.flags))
            && r.spawned.value == Binder.Apply(Binder.PassExtraFiles(w.writePipe.read, w.readPipe.write),
                                               setupCmd(Command(w.bin.value, format(l.flags))))
  {

  }

  /** Unix: binding never fails, so once both pipes exist only `cmd.Start`
      decides the launch. */
  lemma UnixBindingNeverFails(l: Launcher, w: World, format: Flags -> seq<string>, setupCmd: Cmd -> Cmd)
    requires !l.launched && w.bin.Success? && w.writePipe.PipeOk? && w.readPipe.PipeOk?
    ensures var r := LaunchPipe(l, w, PipeUnix.AsBinder(), format, setupCmd);
            && r.args.Some? && r.spawned.Some?
            && (r.result.Success? <==> w.start.StartOk?)
  {

  }
}
