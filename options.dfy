/** The API server's complete options: the bind options, the server-run
    options and the log options, built from their own constructors and
    validated by concatenating the three validators' errors. */
module AppOptions {

  import opened Base
  import ApiServerConfig
  import ServerRunConfig
  import LogConfig

  /** `Options{ApiServerOptions, ServerRunOptions, LogOptions}`. */
  datatype Options = Options(
    api: ApiServerConfig.ApiServerOptions,
    server: ServerRunConfig.ServerRunOptions,
    log: LogConfig.LogOptions)

  /** `NewOptions`: each part comes from its own constructor. */
  function NewOptions(): (o: Options)
    ensures o.api == ApiServerConfig.NewApiServerOptions()
    ensures o.server == ServerRunConfig.NewServerRunOptions()
    ensures o.log == LogConfig.NewLogOptions()
  {
    Options(ApiServerConfig.NewApiServerOptions(), ServerRunConfig.NewServerRunOptions(), LogConfig.NewLogOptions())
  }

  /** `Validate`: the bind-option errors come first, then the server-run
      errors (of which there are none), then the log errors. As a whole the
      options are clean exactly when the port is in range, the level parses and
      the format is accepted. */
  function Validate(o: Options, levelOk: string -> bool): (errs: seq<ValidationError>)
    ensures |errs| == |ApiServerConfig.Validate(o.api)| + |LogConfig.Validate(o.log, levelOk)|
    ensures errs[..|ApiServerConfig.Validate(o.api)|] == ApiServerConfig.Validate(o.api)
    ensures errs[|ApiServerConfig.Validate(o.api)|..] == LogConfig.Validate(o.log, levelOk)
    ensures errs == [] <==>
      ApiServerConfig.PortInRange(o.api.bindPort)
      && levelOk(o.log.level) && LogConfig.FormatAccepted(o.log.formatter)
    ensures |errs| <= 3
  {
    ApiServerConfig.Validate(o.api) + ServerRunConfig.Validate(o.server) + LogConfig.Validate(o.log, levelOk)
  }

  /** The length of the result is the sum of the three validators' lengths, and
      the result is empty exactly when each of them is. */
  lemma ValidateIsConcatenation(o: Options, levelOk: string -> bool)
    ensures |Validate(o, levelOk)|
         == |ApiServerConfig.Validate(o.api)| + |ServerRunConfig.Validate(o.server)|
            + |LogConfig.Validate(o.log, levelOk)|
    ensures Validate(o, levelOk) == [] <==>
      ApiServerConfig.Validate(o.api) == [] && ServerRunConfig.Validate(o.server) == []
      && LogConfig.Validate(o.log, levelOk) == []
  {
  }

  /** The default options validate clean, provided the level parser accepts
      "debug". */
  lemma DefaultsValid(levelOk: string -> bool)
    requires levelOk("debug")
    ensures Validate(NewOptions(), levelOk) == []
  {
    ApiServerConfig.DefaultsValid();
    LogConfig.DefaultsValid(levelOk);
  }
}
