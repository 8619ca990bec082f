/** `preparePipeConfig` for Windows (launcher_pipe_windows.go): mark both
    child-side handles inheritable, publish their values in the
    `--remote-debugging-io-pipes=<read>,<write>` flag, and return a closure that
    lists them as the command's additional inherited handles. */
module PipeWindows {
  import opened Errors
  import opened Flags
  import opened Process
  import opened Binder
  import Decimal

  const ReadHandleContext := "failed to make read handle inheritable"
  const WriteHandleContext := "failed to make write handle inheritable"

  /** The flag value, `fmt.Sprintf("%d,%d", readHandle, writeHandle)`: one
      comma, with the read handle's decimal digits before it and the write
      handle's after it. */
  function HandlesValue(readHandle: nat, writeHandle: nat): (s: string)
    ensures var i := |Decimal.Format(readHandle)|;
            && i < |s| && s[i] == ','
            && ',' !in s[..i] && ',' !in s[i + 1..]
            && Decimal.Parse(s[..i]) == Some(readHandle)
            && Decimal.Parse(s[i + 1..]) == Some(writeHandle)
            && |s| == i + 1 + |Decimal.Format(writeHandle)|
  {
    var a := Decimal.Format(readHandle);
    var b := Decimal.Format(writeHandle);
    var s := a + "," + b;
    assert s[..|a|] == a && s[|a| + 1..] == b;
    Decimal.ParseFormat(readHandle);
    Decimal.ParseFormat(writeHandle);
    s
  }

  /** How the child reads the flag value back: two decimal numbers split at
      the first comma. */
  function ParseHandlesValue(s: string): Option<(nat, nat)> {
    match Decimal.IndexOf(s, ',')
    case None => None
    case Some(i) =>
      match (Decimal.Parse(s[..i]), Decimal.Parse(s[i + 1..]))
      case (Some(r), Some(w)) => Some((r, w))
      case _ => None
  }

  /** The child recovers exactly the two handle values, read end first. */
  lemma HandlesValueRoundTrip(readHandle: nat, writeHandle: nat)
    ensures ParseHandlesValue(HandlesValue(readHandle, writeHandle)) == Some((readHandle, writeHandle))
  {

  }

  /** The Windows binder. `markRead` and `markWrite` are the outcomes of the
      two `SetHandleInformation(handle, HANDLE_FLAG_INHERIT, HANDLE_FLAG_INHERIT)`
      calls (`None` for success); the second call is only made when the first
      succeeded. */
  function PreparePipeConfig(flags: Flags, readPipe: File, writePipe: File,
                             markRead: Option<Err>, markWrite: Option<Err>): (b: Binding)
    // the flag is written only once both handles are inheritable
    ensures b.result.Success? <==> markRead.None? && markWrite.None?
    ensures b.result.Failure? ==> b.flags == flags
    ensures b.result.Success? ==>
              && b.result.value == InheritHandles(readPipe.fd, writePipe.fd)
              && b.flags == Set(flags, RemoteDebuggingIoPipes, [HandlesValue(readPipe.fd, writePipe.fd)])
    // a failed read mark stops before the write handle is touched
    ensures markRead.Some? ==>
              b.result == Failure(Wrapped(ReadHandleContext, markRead.value)) && b.marked == []
    // a failed write mark keeps the read handle's mark: nothing is rolled back
    ensures markRead.None? && markWrite.Some? ==>
              b.result == Failure(Wrapped(WriteHandleContext, markWrite.value)) && b.marked == [readPipe.fd]
    // success means both handles were marked, read handle first
    ensures b.result.Success? ==> b.marked == [readPipe.fd, writePipe.fd]
    ensures b.marked <= [readPipe.fd, writePipe.fd]
  {
    var readHandle := readPipe.fd;
    var writeHandle := writePipe.fd;
    if markRead.Some? then
      Binding(flags, [], Failure(Wrapped(ReadHandleContext, markRead.value)))
    else if markWrite.Some? then
      Binding(flags, [readHandle], Failure(Wrapped(WriteHandleContext, markWrite.value)))
    else
      Binding(Set(flags, RemoteDebuggingIoPipes, [HandlesValue(readHandle, writeHandle)]),
              [readHandle, writeHandle],
              Success(InheritHandles(readHandle, writeHandle)))
  }

  /** The binder as a `PipeBinder`, once the two `SetHandleInformation`
      outcomes are fixed. */
  function AsBinder(markRead: Option<Err>, markWrite: Option<Err>): PipeBinder {
    (flags, readPipe, writePipe) => PreparePipeConfig(flags, readPipe, writePipe, markRead, markWrite)
  }

  /** With both marks granted, the flag value names the very handles the
      closure passes on, so the child can find the pipes it inherited. */
  lemma FlagNamesInheritedHandles(flags: Flags, readPipe: File, writePipe: File, cmd: Cmd)
    ensures var b := PreparePipeConfig(flags, readPipe, writePipe, None, None);
            && RemoteDebuggingIoPipes in b.flags
            && |b.flags[RemoteDebuggingIoPipes]| == 1
            && b.result.Success?
            && ParseHandlesValue(b.flags[RemoteDebuggingIoPipes][0]) ==
               Some((Apply(b.result.value, cmd).sysProcAttr.value.additionalInheritedHandles[0],
                     Apply(b.result.value, cmd).sysProcAttr.value.additionalInheritedHandles[1]))
  {

  }
}
