# Pipe transport of the rod browser launcher, modelled in Dafny

This project models the pipe mode of rod's browser launcher (`lib/launcher`).
In pipe mode the launcher talks to the browser over two anonymous OS pipes
instead of a WebSocket. It has three parts:

- **`PipeWebSocket`**, the transport. Messages are terminated by a single zero
  byte. `Send` writes the message and its terminator. `Read` returns the bytes
  before the next terminator. Any I/O error closes the transport. `Close` closes
  both pipe ends and reports the first error.
- **`LaunchPipe`**, the launch sequence. It creates two pipes (four ends) and
  has the platform binder prepare the child-side ends. It formats the
  command-line arguments, starts the browser, closes the child-side ends in the
  parent, and hands the parent-side ends to a `PipeWebSocket`. `NewPipeMode`
  sets up the flags for pipe mode.
- **`preparePipeConfig`**, the platform binder, in two variants:
  - On Windows it marks both handles inheritable, puts their values into the
    `--remote-debugging-io-pipes=<read>,<write>` flag, and lists them as
    additional inherited handles.
  - Elsewhere it passes the two ends as `ExtraFiles`, which become descriptors 3
    and 4 in the child.

The model is functional: immutable datatypes and pure functions. The transport
holds an outbound byte sequence and an inbound byte sequence with a cursor. Each
side has a `closed` flag. The launch is a pure function over the state of the
four pipe ends. Every operating-system outcome is an explicit input:

- `os.Pipe`, `cmd.Start` and the browser-binary lookup (`World`)
- `SetHandleInformation` (the `markRead` / `markWrite` outcomes)
- write and close failures (`WriteOutcome`, the close faults)

Both binders have the type `Binder.PipeBinder`, so either one plugs into
`Launcher.LaunchPipe`. The closure a binder returns is written as data
(`Binder.Configurator`), and `Binder.Apply` runs it on the command.

Files:

- `errors.dfy`: errors, Option and Result
- `decimal.dfy`: `%d` and its inverse
- `flags.dfy`: the flag store
- `process.dfy`: the command and the child's descriptors
- `binder.dfy`: the shared binder signature
- `pipe_windows.dfy`, `pipe_unix.dfy`: the two binders
- `transport.dfy`: `PipeWebSocket`
- `launcher.dfy`: `NewPipeMode` and `LaunchPipe`
- `launch_platforms.dfy`: the launch with each binder

The Unix closure assigns `ExtraFiles = [read, write]`, which replaces any earlier
list rather than appending to it (`PipeUnix.ConfigurePlacesDescriptors`).

## Model

| member | source | states |
|---|---|---|
| `Transport.NewPipeWebSocket` | lib/launcher/launcher_pipe.go:124-130 | the new transport reads from `in` and writes to `out`; both are open, nothing is written yet and the whole inbound stream is unread; the stream's end error is the one given |
| `Transport.Send` | lib/launcher/launcher_pipe.go:133-139 | a successful send appends exactly `data ++ [0]` and leaves the transport open; it succeeds iff the out file is open and the write succeeds; a failed write closes both ends, returns the write's error and leaves at most a strict prefix of the frame on the wire; sending on a closed transport returns `ErrClosed` and writes nothing; the files themselves never change |
| `Transport.SendAddsOneDelimiter` | lib/launcher/launcher_pipe.go:134 | one send of a zero-free payload adds exactly one delimiter, as the last byte |
| `Transport.FailedSendLeavesNoFrame` | lib/launcher/launcher_pipe.go:134-138 | the bytes of a failed send of a zero-free payload contain no delimiter, so the peer never sees them as a message |
| `Transport.Read` | lib/launcher/launcher_pipe.go:142-153 | succeeds iff the transport is open and a delimiter lies ahead; the message is the zero-free run before the first delimiter and the cursor moves just past that delimiter; otherwise the transport is closed and the error is returned: `ErrClosed` if it was already closed, else the stream's own end error, with the unterminated tail consumed and dropped; a read on a closed transport moves no cursor, and the files never change |
| `Transport.LoneDelimiterIsEmptyMessage` | lib/launcher/launcher_pipe.go:143-152 | a delimiter at the cursor reads as the empty message and advances the cursor by one |
| `Transport.ReadFirstFrame` | lib/launcher/launcher_pipe.go:143-152 | a stream that starts with the frame of a zero-free message reads as exactly that message, leaves the transport open and leaves the rest of the stream unread |
| `Transport.FrameIsUnique` | lib/launcher/launcher_pipe.go:143 | a stream starting with a frame determines the zero-free message inside it |
| `Transport.SendAll` | lib/launcher/launcher_pipe.go:133-139 | successful sends of n messages on an open transport append their frames in call order |
| `Transport.ReadMany` | lib/launcher/launcher_pipe.go:142-153 | n successful reads return n zero-free messages |
| `Transport.ReadManyFrames` | lib/launcher/launcher_pipe.go:142-153 | reading a stream that begins with the frames of `ms` returns `ms` in order, leaves the transport open and moves the cursor to just past the last frame |
| `Transport.SendThenRead` | lib/launcher/launcher_pipe.go:133-152 | round trip: a zero-free payload sent on one end is read back unchanged by the peer reading that pipe |
| `Transport.RoundTrip` | lib/launcher/launcher_pipe.go:133-152 | round trip for n messages: the peer reads all of them, unchanged and in send order |
| `Transport.Close` | lib/launcher/launcher_pipe.go:156-163 | both ends are closed whatever the first close reported; `in`'s error wins over `out`'s; the result is nil iff both files were open and both closes succeeded; closing an already-closed file reports `ErrClosed`; no stream or cursor changes |
| `Transport.FailureIsSticky` | lib/launcher/launcher_pipe.go:133-147 | after a failed `Send` or `Read`, every later `Send` and `Read` fails with `ErrClosed`, and so does a later `Close` |
| `Transport.CloseIsFinal` | lib/launcher/launcher_pipe.go:156-163 | after `Close`, whatever it reported, `Send` writes nothing and fails, `Read` fails and a second `Close` reports `ErrClosed` |
| `Launcher.NewPipeMode` | lib/launcher/launcher_pipe.go:18-28 | the debugging-port and leakless flags are removed, the pipe flag is set with no value, every other flag is unchanged and URL parsing is marked done |
| `Launcher.LaunchPipe` | lib/launcher/launcher_pipe.go:32-105 | an already-launched launcher is refused before any pipe exists and is left unchanged; every launch sets the launched latch and otherwise changes only the binder's flags and, on success, the pid; a failed binary lookup returns its own error before any pipe exists; the launch succeeds iff every step succeeds; no end is left open after a failure; on success the two child-side ends are closed and the transport holds `in` = our read end and `out` = our write end, has written nothing, has all of the child's output unread and reports the pipe's own end error when that output runs out; a first-pipe failure is wrapped as "failed to create write pipe"; a second-pipe failure is wrapped as "failed to create read pipe" and closes both ends of the first pipe; a binder failure returns the binder's own error and starts nothing; a binder or start failure closes all four ends; arguments are formatted only after a successful binding, from the flags the binder left; once both pipes exist the launcher keeps the binder's flags, failed or not; the started command is `exec.Command(bin, args...)` after the default setup, with the binder's closure applied last |
| `Launcher.SecondLaunchRefused` | lib/launcher/launcher_pipe.go:33-35 | a second launch on the same launcher returns `ErrAlreadyLaunched`, creates no pipe, starts nothing and changes nothing |
| `Launcher.LaunchFollowsRollback` | lib/launcher/launcher_pipe.go:46-89 | on every path each end ends in the state a rollback list prescribes: ends not yet acquired do not exist; a failing step closes every acquired end; success closes the child-side ends and keeps the parent-side ends open |
| `PipeWindows.PreparePipeConfig` | lib/launcher/launcher_pipe_windows.go:16-43 | succeeds iff both handles are marked inheritable, and then has marked both (read first), returns the closure for exactly (read, write) and sets `RemoteDebuggingIoPipes` to `"<read>,<write>"`; a failed read mark gives "failed to make read handle inheritable" and never tries the write handle; a failed write mark gives "failed to make write handle inheritable" and the read handle stays marked; on failure the flags are unchanged |
| `PipeWindows.HandlesValue` | lib/launcher/launcher_pipe_windows.go:31 | the `%d,%d` flag value has exactly one comma, right after the read handle's digits; the part before it is exactly the read handle's `%d` digits and the part after it exactly the write handle's, each reading back as its handle |
| `Binder.Apply` | lib/launcher/launcher_pipe_windows.go:34-42 | running a configurator changes only what its closure assigns. The Windows closure sets the inherited-handle list to exactly `[read, write]`, keeps other attributes of an existing `SysProcAttr` and starts from a zero one otherwise. The Unix closure (launcher_pipe_unix.go lines 13-16) sets `ExtraFiles` to exactly `[read, write]`, replacing any earlier list |
| `PipeWindows.HandlesValueRoundTrip` | lib/launcher/launcher_pipe_windows.go:29-31 | splitting the `%d,%d` flag value at its comma and reading both numbers gives back the read handle and then the write handle |
| `Decimal.Format` | lib/launcher/launcher_pipe_windows.go:31 | `%d` of a handle is a non-empty run of decimal digits with no leading zero (only zero itself is written `0`) |
| `Decimal.ParseFormat` | lib/launcher/launcher_pipe_windows.go:31 | reading back a `%d` rendering gives the original number |
| `PipeWindows.FlagNamesInheritedHandles` | lib/launcher/launcher_pipe_windows.go:29-41 | the flag value decodes to the two handles the closure passes to the child, in the same order |
| `PipeUnix.PreparePipeConfig` | lib/launcher/launcher_pipe_unix.go:12-17 | the Unix binder never fails, sets no flag and marks no handle |
| `PipeUnix.ConfigurePlacesDescriptors` | lib/launcher/launcher_pipe_unix.go:11-16 | after the closure runs the child finds the read end at descriptor 3, the write end at descriptor 4 and nothing beyond; any earlier `ExtraFiles` list is replaced, and nothing else of the command changes |
| `LaunchPlatforms.WindowsLaunchWiring` | lib/launcher/launcher_pipe.go:60-78 | on Windows, a successful launch starts a command that inherits exactly the two child-side handles, read end first; the started command is `exec.Command(bin, args...)` with those arguments, formatted from flags carrying the handle values, which decode back in the same order |
| `LaunchPlatforms.WindowsMarkFailure` | lib/launcher/launcher_pipe.go:62-69 | on Windows, a refused handle mark fails the launch with the binder's wrapped error; all four ends are closed, no arguments are formatted, nothing is started and the flags are unchanged |
| `LaunchPlatforms.UnixLaunchWiring` | lib/launcher/launcher_pipe_unix.go:13-16 | after a successful launch, the child's descriptor 3 is the read end of the pipe the transport writes to and descriptor 4 is the write end of the pipe it reads from; no flag is added; the started command carries the arguments formatted from the unchanged flags |
| `LaunchPlatforms.UnixBindingNeverFails` | lib/launcher/launcher_pipe.go:62-85 | on Unix, once both pipes exist only `cmd.Start` decides whether the launch succeeds, and the arguments are always formatted |

## Left out

- Real pipes, `exec.Command`, `cmd.Start`, `SetHandleInformation`, the binary lookup (`getBin`) and file writes and closes are foreign calls. Each is an input outcome (`World`, `markRead`/`markWrite`, `WriteOutcome`, close faults).
- `FormatArgs` and `setupCmd` are parameters. Their bodies are not part of this model. `setupUserPreferences` and the deferred `ctxCancel` have no effect the model can observe, so they are omitted.
- The body of `hasLaunched` lies outside the modelled files. It is modelled as a test-and-set latch, so any attempt sets `launched` right after the guard, even one that fails later.
- The flag store's internals are not part of this model. `Set` and `Delete` are modelled as map updates; flag names are symbolic, not strings.
- The exit-watcher goroutine and `close(l.exit)` are omitted: they are concurrency that blocks on process exit. `cmd.Process.Pid` is recorded.
- The `cdp.Client` built on top of the transport is an external protocol client. The model returns the transport it would be given.
- The parser mutex in `NewPipeMode` is omitted; only its effect (`parserDone`) is modelled.
- `MustLaunchPipe` is omitted: it only panics on error.
- The transport has no locking. Concurrent `Send` or `Read` callers are not modelled; the model is sequential.
- A blocked `Read` is not modelled. The inbound stream is everything the peer will ever write, followed by the error that ends it (`EOF` or a read error).
- Transport.Read: a closed transport fails at once with `ErrClosed`. The code's `bufio.Reader` could first return a complete message already in its buffer; what it holds depends on how the OS split earlier reads. The buffering is not modelled.
- Transport.FailureIsSticky: the same buffering caveat applies to a `Read` after a failed `Send`.
- Transport.CloseIsFinal: the same buffering caveat applies to a `Read` after `Close`.
- I/O on a closed file is reported as `ErrClosed` itself. Go's `os.File` returns a `*PathError` whose cause is `os.ErrClosed`; the operation-and-path wrapper carries no information the transport uses.
- The aliasing of `append(data, '\x00')` is not modelled. When `cap(data) > len(data)` it writes the delimiter into the caller's backing array, beyond the caller's slice. The model's payloads are immutable values, so only the bytes written to the pipe are modelled.
- Integer widths are not modelled: handle values and descriptors are unbounded naturals, not `uintptr`.
