/** The HTTP server's run options: mode, the readiness-check switch and the
    middleware list. */
module ServerRunConfig {

  import opened Base

  /** `ServerRunOptions{Mode, Healthz, Middlewares}`; a nil slice is `[]`. */
  datatype ServerRunOptions = ServerRunOptions(mode: string, healthz: bool, middlewares: seq<string>)

  /** `ServerRunDefaults`, the zero value. */
  const ServerRunDefaults := ServerRunOptions("", false, [])

  /** `NewServerRunOptions` copies the zero-valued defaults. */
  function NewServerRunOptions(): (s: ServerRunOptions)
    ensures s.mode == ""
    ensures !s.healthz
    ensures s.middlewares == []
  {
    ServerRunOptions(ServerRunDefaults.mode, ServerRunDefaults.healthz, ServerRunDefaults.middlewares)
  }

  /** `Validate` reports nothing, whatever the field values. */
  function Validate(s: ServerRunOptions): (errs: seq<ValidationError>)
    ensures errs == []
  {
    []
  }
}
