/** The launcher's command-line flag store, reduced to what the pipe launcher
    touches: a map from flag name to its values. */
module Flags {

  /** The flag names the pipe launcher edits; every other flag is `Other`. */
  datatype Flag =
    | RemoteDebuggingPort
    | Leakless
    | RemoteDebuggingPipe
    | RemoteDebuggingIoPipes
    | Other(name: string)

  type Flags = map<Flag, seq<string>>

  /** `Launcher.Set(name, values...)`: the flag is present with exactly these values. */
  function Set(f: Flags, name: Flag, values: seq<string>): Flags {
    f[name := values]
  }

  /** `Launcher.Delete(name)`: the flag is absent. */
  function Delete(f: Flags, name: Flag): Flags {
    f - {name}
  }
}
