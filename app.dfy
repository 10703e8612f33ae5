/** The API server's run function: build the configuration, set up the
    logger, then run the server, stopping at the first error. */
module App {

  import opened Base
  import opened Text
  import AppOptions
  import LogConfig

  /** The logger formatters `initLog` may install, with the settings it gives
      them. Both carry the caller prettifier `CallerLabel`. */
  datatype Formatter =
    | JsonFormatter(timestampFormat: string)
    | TextFormatter(timestampFormat: string, fullTimestamp: bool)

  /** What `initLog` does to the global logger: the level it sets, the
      formatter it installs (`None`: the formatter is left as it was) and
      whether it turns on caller reporting. */
  datatype LogSetup = LogSetup(level: string, formatter: Option<Formatter>, reportCaller: bool)

  /** `initLog`. A level the parser rejects is returned as the error before
      anything is set. Otherwise the level is set and the formatter is chosen by
      an exact, case-sensitive comparison: "json" installs the JSON formatter,
      "text" the text formatter with full timestamps and caller reporting, and
      any other string leaves the formatter alone and still succeeds. */
  function InitLog(lo: LogConfig.LogOptions, levelOk: string -> bool): (r: Result<LogSetup, ValidationError>)
    ensures r.Err? <==> !levelOk(lo.level)
    ensures r.Err? ==> r.error == InvalidLogLevel(lo.level)
    ensures r.Ok? ==> r.value.level == lo.level
    ensures r.Ok? ==> (r.value.formatter == Some(JsonFormatter(lo.timeFormatter)) <==> lo.formatter == LogConfig.FormatJson)
    ensures r.Ok? ==> (r.value.formatter == Some(TextFormatter(lo.timeFormatter, true)) <==> lo.formatter == LogConfig.FormatText)
    ensures r.Ok? ==> (r.value.formatter == None <==> lo.formatter != LogConfig.FormatJson && lo.formatter != LogConfig.FormatText)
    ensures r.Ok? ==> (r.value.reportCaller <==> lo.formatter == LogConfig.FormatText)
  {
    if !levelOk(lo.level) then Err(InvalidLogLevel(lo.level))
    else if lo.formatter == LogConfig.FormatJson then
      Ok(LogSetup(lo.level, Some(JsonFormatter(lo.timeFormatter)), false))
    else if lo.formatter == LogConfig.FormatText then
      Ok(LogSetup(lo.level, Some(TextFormatter(lo.timeFormatter, true)), true))
    else
      Ok(LogSetup(lo.level, None, false))
  }

  /** The validator's format check is case-insensitive but `initLog`'s choice is
      not: "JSON" passes validation and then installs no formatter at all. */
  lemma UppercaseJsonKeepsFormatter(lo: LogConfig.LogOptions, levelOk: string -> bool)
    requires lo.formatter == "JSON" && levelOk(lo.level)
    ensures LogConfig.Validate(lo, levelOk) == []
    ensures InitLog(lo, levelOk) == Ok(LogSetup(lo.level, None, false))
  {
    LogConfig.UppercaseFormatsAccepted();
  }

  /** `initLog` with the formatter compared in lowercase, as the validator
      compares it. */
  function InitLogFolded(lo: LogConfig.LogOptions, levelOk: string -> bool): (r: Result<LogSetup, ValidationError>)
    ensures r.Err? <==> !levelOk(lo.level)
    ensures r.Ok? ==> r.value.level == lo.level
  {
    InitLog(lo.(formatter := ToLower(lo.formatter)), levelOk)
  }

  /** With the lowercase comparison, every options value that validates clean
      gets a formatter installed, the one its formatter names in any case. */
  lemma ValidatedFormatIsInstalled(lo: LogConfig.LogOptions, levelOk: string -> bool)
    requires LogConfig.Validate(lo, levelOk) == []
    ensures InitLogFolded(lo, levelOk).Ok?
    ensures InitLogFolded(lo, levelOk).value.formatter.Some?
    ensures ToLower(lo.formatter) == LogConfig.FormatJson ==>
      InitLogFolded(lo, levelOk).value.formatter == Some(JsonFormatter(lo.timeFormatter))
    ensures ToLower(lo.formatter) == LogConfig.FormatText ==>
      InitLogFolded(lo, levelOk).value.formatter == Some(TextFormatter(lo.timeFormatter, true))
  {
  }

  /** On the lowercase formatters the two versions agree. */
  lemma FoldedAgreesOnLowercase(lo: LogConfig.LogOptions, levelOk: string -> bool)
    requires ToLower(lo.formatter) == lo.formatter
    ensures InitLogFolded(lo, levelOk) == InitLog(lo, levelOk)
  {
    assert lo.(formatter := ToLower(lo.formatter)) == lo;
  }

  /** The caller prettifier shared by both formatters: the function name, and
      the file's base name, a ':' and the decimal line number. */
  function CallerLabel(funcName: string, file: string, line: int): (caller: (string, string))
    ensures caller.0 == funcName
  {
    (funcName, PathBase(file) + ":" + Itoa(line))
  }

  /** For a file `dir/name` whose name holds neither '/' nor ':', the label's
      second part splits at ':' into the name and a number that reads back as
      the line. */
  lemma CallerLabelFields(funcName: string, dir: string, name: string, line: int)
    requires name != [] && '/' !in name && ':' !in name
    ensures Split(CallerLabel(funcName, dir + "/" + name, line).1, ':') == [name, Itoa(line)]
    ensures ParseInt(Split(CallerLabel(funcName, dir + "/" + name, line).1, ':')[1]) == Some(line)
  {
    PathBaseOfJoin(dir, name);
    ItoaHasNoColon(line);
    SplitPair(name, Itoa(line), ':');
    assert CallerLabel(funcName, dir + "/" + name, line).1 == name + [':'] + Itoa(line);
    ItoaRoundTrip(line);
  }

  /** Why `run` stopped: the log setup failed, or the server returned an error. */
  datatype AppError = LogInitFailed(cause: ValidationError) | ServeFailed(message: string)

  /** What `run` did: the logger setup when it got that far, whether it went on
      to run the server, and the error it returned. */
  datatype RunTrace = RunTrace(logSetup: Option<LogSetup>, served: bool, err: Option<AppError>)

  /** `run(opts)`. Building the configuration wraps the options and never
      fails; a log-setup error is returned before the server runs; otherwise the
      server's own result is returned. `serve` is the server run, abstract:
      it maps the options to the error it ends with, `None` for success. */
  function RunApp(opts: AppOptions.Options, levelOk: string -> bool, serve: AppOptions.Options -> Option<string>): (t: RunTrace)
    ensures t.served <==> levelOk(opts.log.level)
    ensures !t.served ==> t.logSetup == None && t.err == Some(LogInitFailed(InvalidLogLevel(opts.log.level)))
    ensures t.served ==> t.logSetup == Some(InitLog(opts.log, levelOk).value)
    ensures t.served ==> (t.err == None <==> serve(opts) == None)
    ensures t.served && serve(opts).Some? ==> t.err == Some(ServeFailed(serve(opts).value))
  {
    var cfg := opts;
    match InitLog(cfg.log, levelOk)
    case Err(e) => RunTrace(None, false, Some(LogInitFailed(e)))
    case Ok(setup) =>
      match serve(cfg)
      case Some(msg) => RunTrace(Some(setup), true, Some(ServeFailed(msg)))
      case None => RunTrace(Some(setup), true, None)
  }

  /** Options that pass validation always reach the server run. */
  lemma ValidOptionsReachServer(opts: AppOptions.Options, levelOk: string -> bool, serve: AppOptions.Options -> Option<string>)
    requires AppOptions.Validate(opts, levelOk) == []
    ensures RunApp(opts, levelOk, serve).served
  {
  }
}
