/** `preparePipeConfig` for every platform but Windows (launcher_pipe_unix.go):
    no flag, no OS call; the closure hands the two child-side ends to the child
    as its descriptors 3 and 4. */
module PipeUnix {
  import opened Errors
  import opened Flags
  import opened Process
  import opened Binder

  /** The descriptor the child reads its commands from. */
  const ChildReadDescriptor: nat := 3
  /** The descriptor the child writes its replies to. */
  const ChildWriteDescriptor: nat := 4

  /** The Unix binder: it cannot fail and leaves the flags alone. */
  function PreparePipeConfig(flags: Flags, readPipe: File, writePipe: File): (b: Binding)
    ensures b.result.Success?
    ensures b.flags == flags && b.marked == []
  {
    Binding(flags, [], Success(PassExtraFiles(readPipe, writePipe)))
  }

  /** The binder as a `PipeBinder`. */
  function AsBinder(): PipeBinder {
    (flags, readPipe, writePipe) => PreparePipeConfig(flags, readPipe, writePipe)
  }

  /** After the closure runs, the child finds the read end at descriptor 3, the
      write end at descriptor 4 and nothing beyond; whatever `ExtraFiles` held
      before is replaced, not extended, and nothing else of the command changes. */
  lemma ConfigurePlacesDescriptors(flags: Flags, readPipe: File, writePipe: File, cmd: Cmd)
    ensures var b := PreparePipeConfig(flags, readPipe, writePipe);
            var c := Apply(b.result.value, cmd);
            && ChildDescriptor(c, ChildReadDescriptor) == Some(readPipe)
            && ChildDescriptor(c, ChildWriteDescriptor) == Some(writePipe)
            && (forall n: nat :: n > ChildWriteDescriptor ==> ChildDescriptor(c, n).None?)
            && c.extraFiles == [readPipe, writePipe]
            && c.(extraFiles := cmd.extraFiles) == cmd
  {
  }
}
