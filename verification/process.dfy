/** The parts of an `exec.Cmd` the pipe launcher configures, and the view the
    child process gets of the files it inherits. */
module Process {
  import opened Errors

  /** An open `*os.File` as the parent holds it; `fd` is what `Fd()` returns,
      which on Windows is the numeric HANDLE value. */
  datatype File = File(fd: nat)

  /** `syscall.SysProcAttr` on Windows: the explicit inherited-handle list and,
      standing for every other field, the settings someone else put there. */
  datatype SysProcAttr = SysProcAttr(additionalInheritedHandles: seq<nat>, settings: seq<string>)

  /** The zero value `syscall.SysProcAttr{}`. */
  const EmptySysProcAttr := SysProcAttr([], [])

  datatype Cmd = Cmd(
    path: string,
    args: seq<string>,
    extraFiles: seq<File>,
    sysProcAttr: Option<SysProcAttr>)

  /** `exec.Command(path, args...)`: nothing inherited yet, no attributes. */
  function Command(path: string, args: seq<string>): Cmd {
    Cmd(path, args, [], None)
  }

  /** Standard input, output and error occupy descriptors 0-2 of the child;
      `ExtraFiles[i]` becomes descriptor `3 + i`. */
  const FirstExtraDescriptor: nat := 3

  /** The file the child finds at descriptor `n`, when `n` comes from `ExtraFiles`. */
  function ChildDescriptor(cmd: Cmd, n: nat): (r: Option<File>)
    ensures r.Some? <==> FirstExtraDescriptor <= n < FirstExtraDescriptor + |cmd.extraFiles|
    ensures r.Some? ==> r.value in cmd.extraFiles
  {
    if FirstExtraDescriptor <= n < FirstExtraDescriptor + |cmd.extraFiles|
    then Some(cmd.extraFiles[n - FirstExtraDescriptor])
    else None
  }
}
