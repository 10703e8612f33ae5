/** The logger's options: formatter, timestamp layout and level, their
    defaults, and the validator that runs before the logger is set up. */
module LogConfig {

  import opened Base
  import opened Text

  const FormatJson := "json"
  const FormatText := "text"

  /** `LogOptions{Formatter, TimeFormatter, Level}`. */
  datatype LogOptions = LogOptions(formatter: string, timeFormatter: string, level: string)

  /** `logDefaults`. */
  const LogDefaults := LogOptions("text", "2006-01-02 15:05:06.000", "debug")

  /** `NewLogOptions` copies the defaults field by field. */
  function NewLogOptions(): (lo: LogOptions)
    ensures lo.formatter == "text"
    ensures lo.timeFormatter == "2006-01-02 15:05:06.000"
    ensures lo.level == "debug"
  {
    LogOptions(LogDefaults.formatter, LogDefaults.timeFormatter, LogDefaults.level)
  }

  /** The format check: the lowercased formatter must be "json" or "text". */
  predicate FormatAccepted(formatter: string)
  {
    var f := ToLower(formatter);
    f == FormatJson || f == FormatText
  }

  /** `Validate`. The level parser of the logging library is abstract:
      `levelOk(l)` says whether it accepts `l`. A rejected level contributes
      one error, an unaccepted format one more, in that order; the timestamp
      layout is never looked at. */
  function Validate(lo: LogOptions, levelOk: string -> bool): (errs: seq<ValidationError>)
    ensures |errs| <= 2
    ensures errs == [] <==> levelOk(lo.level) && FormatAccepted(lo.formatter)
    ensures InvalidLogLevel(lo.level) in errs <==> !levelOk(lo.level)
    ensures InvalidLogFormat(lo.formatter) in errs <==> !FormatAccepted(lo.formatter)
    ensures forall i | 0 <= i < |errs| ::
      errs[i] == InvalidLogLevel(lo.level) || errs[i] == InvalidLogFormat(lo.formatter)
    ensures |errs| == 2 ==> errs == [InvalidLogLevel(lo.level), InvalidLogFormat(lo.formatter)]
  {
    var levelErrs := if levelOk(lo.level) then [] else [InvalidLogLevel(lo.level)];
    var formatErrs := if FormatAccepted(lo.formatter) then [] else [InvalidLogFormat(lo.formatter)];
    levelErrs + formatErrs
  }

  /** Only the lowercase form of the formatter matters: two formatters that
      agree up to ASCII case are both accepted or both rejected, and a
      formatter is accepted exactly when its own lowercase form is. */
  lemma FormatCheckIgnoresCase(f: string, g: string)
    ensures ToLower(f) == ToLower(g) ==> (FormatAccepted(f) <==> FormatAccepted(g))
    ensures FormatAccepted(f) <==> FormatAccepted(ToLower(f))
  {
    ToLowerIdempotent(f);
  }

  /** Mixed-case spellings pass the check. */
  lemma UppercaseFormatsAccepted()
    ensures FormatAccepted("JSON") && FormatAccepted("Text")
  {
    assert ToLower("JSON") == "json" by {
      assert |ToLower("JSON")| == 4;
      assert ToLower("JSON")[0] == 'j' && ToLower("JSON")[1] == 's';
      assert ToLower("JSON")[2] == 'o' && ToLower("JSON")[3] == 'n';
    }
    assert ToLower("Text") == "text" by {
      assert |ToLower("Text")| == 4;
      assert ToLower("Text")[0] == 't' && ToLower("Text")[1] == 'e';
      assert ToLower("Text")[2] == 'x' && ToLower("Text")[3] == 't';
    }
  }

  /** The timestamp layout is not validated: changing it changes nothing. */
  lemma TimeFormatterNotValidated(lo: LogOptions, layout: string, levelOk: string -> bool)
    ensures Validate(lo.(timeFormatter := layout), levelOk) == Validate(lo, levelOk)
  {
  }

  /** The defaults validate clean, provided the level parser accepts "debug". */
  lemma DefaultsValid(levelOk: string -> bool)
    requires levelOk("debug")
    ensures Validate(NewLogOptions(), levelOk) == []
  {
    assert ToLower("text") == "text";
  }
}
