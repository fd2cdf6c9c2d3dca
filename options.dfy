/**
  The processor's options: the defaults of its option fields, how `init` reads
  them from the `-A` option map, and the option names it reports as supported.
*/
module ProcessorOptions {
  import opened Wrappers

  /** Verbosity of the processor's diagnostics. */
  datatype LogLevel = DEBUG | INFO | ERRORS | NONE
  /** Whether types need the compiled-JSON marker or are picked up from their shape. */
  datatype AnnotationUsage = IMPLICIT | EXPLICIT
  /** What the analysis does with a property whose type it cannot resolve. */
  datatype UnknownTypes = ERROR | WARNING | IGNORE

  const LOG_LEVEL := "dsljson.loglevel"
  const ANNOTATION := "dsljson.annotation"
  const UNKNOWN := "dsljson.unknown"
  const JACKSON := "dsljson.jackson"
  const JSONB := "dsljson.jsonb"
  const CONFIGURATION := "dsljson.configuration"

  /** The option names, in the declaration order of the processor's `Options` enum. */
  const OptionNames: seq<string> := [LOG_LEVEL, ANNOTATION, UNKNOWN, JACKSON, JSONB, CONFIGURATION]

  const GRADLE_OPTION_ISOLATING := "org.gradle.annotation.processing.isolating"
  const GRADLE_OPTION_AGGREGATING := "org.gradle.annotation.processing.aggregating"

  /** `LogLevel.valueOf`: the constant with exactly this name, None where Java throws. */
  function ParseLogLevel(name: string): Option<LogLevel> {
    if name == "DEBUG" then Some(DEBUG)
    else if name == "INFO" then Some(INFO)
    else if name == "ERRORS" then Some(ERRORS)
    else if name == "NONE" then Some(NONE)
    else None
  }

  /** `AnnotationUsage.valueOf`. */
  function ParseAnnotationUsage(name: string): Option<AnnotationUsage> {
    if name == "IMPLICIT" then Some(IMPLICIT)
    else if name == "EXPLICIT" then Some(EXPLICIT)
    else None
  }

  /** `UnknownTypes.valueOf`. */
  function ParseUnknownTypes(name: string): Option<UnknownTypes> {
    if name == "ERROR" then Some(ERROR)
    else if name == "WARNING" then Some(WARNING)
    else if name == "IGNORE" then Some(IGNORE)
    else None
  }

  /** Lower-casing of ASCII letters; other characters are kept. */
  function LowerAscii(c: char): char {
    if 'A' <= c <= 'Z' then (c as int + 32) as char else c
  }

  /** `Boolean.parseBoolean`: true exactly for "true" in any letter case; never fails. */
  predicate ParseBoolean(s: string) {
    |s| == 4 && forall i :: 0 <= i < 4 ==> LowerAscii(s[i]) == "true"[i]
  }

  /** The value of an option when it is present and non-empty (`!= null && length() > 0`). */
  function Given(options: map<string, string>, name: string): Option<string> {
    if name in options && |options[name]| > 0 then Some(options[name]) else None
  }

  /** A snapshot of the option fields. */
  datatype Settings = Settings(
    logLevel: LogLevel,
    annotationUsage: AnnotationUsage,
    unknownTypes: UnknownTypes,
    withJackson: bool,
    withJsonb: bool,
    configurationFileName: Option<string>)

  /** The field initialisers. */
  const DefaultSettings := Settings(ERRORS, IMPLICIT, ERROR, false, false, None)

  /** `init`'s log-level step: None when the value names no constant. */
  function ApplyLogLevel(s: Settings, options: map<string, string>): Option<Settings> {
    match Given(options, LOG_LEVEL)
    case None => Some(s)
    case Some(name) => if ParseLogLevel(name).None? then None else Some(s.(logLevel := ParseLogLevel(name).value))
  }

  /** `init`'s annotation-usage step. */
  function ApplyAnnotationUsage(s: Settings, options: map<string, string>): Option<Settings> {
    match Given(options, ANNOTATION)
    case None => Some(s)
    case Some(name) => if ParseAnnotationUsage(name).None? then None else Some(s.(annotationUsage := ParseAnnotationUsage(name).value))
  }

  /** `init`'s unknown-types step. */
  function ApplyUnknownTypes(s: Settings, options: map<string, string>): Option<Settings> {
    match Given(options, UNKNOWN)
    case None => Some(s)
    case Some(name) => if ParseUnknownTypes(name).None? then None else Some(s.(unknownTypes := ParseUnknownTypes(name).value))
  }

  /** `init`'s last three steps, which cannot fail. */
  function ApplyFlags(s: Settings, options: map<string, string>): Settings {
    var s1 := if Given(options, JACKSON).Some? then s.(withJackson := ParseBoolean(Given(options, JACKSON).value)) else s;
    var s2 := if Given(options, JSONB).Some? then s1.(withJsonb := ParseBoolean(Given(options, JSONB).value)) else s1;
    if Given(options, CONFIGURATION).Some? then s2.(configurationFileName := Given(options, CONFIGURATION)) else s2
  }

  /**
    What `init` does to the option fields, one option after another; the first
    enum option whose value names no constant stops it (Java's
    IllegalArgumentException), with the earlier options already applied.
  */
  function ApplyOptions(s: Settings, options: map<string, string>): (Settings, Option<string>) {
    match ApplyLogLevel(s, options)
    case None => (s, Some(LOG_LEVEL))
    case Some(s1) =>
      match ApplyAnnotationUsage(s1, options)
      case None => (s1, Some(ANNOTATION))
      case Some(s2) =>
        match ApplyUnknownTypes(s2, options)
        case None => (s2, Some(UNKNOWN))
        case Some(s3) => (ApplyFlags(s3, options), None)
  }

  /** The processor object, as far as its option fields go. */
  class AnnotationProcessor {
    var logLevel: LogLevel
    var annotationUsage: AnnotationUsage
    var unknownTypes: UnknownTypes
    var withJackson: bool
    var withJsonb: bool
    var configurationFileName: Option<string>

    function Current(): Settings
      reads this
    {
      Settings(logLevel, annotationUsage, unknownTypes, withJackson, withJsonb, configurationFileName)
    }

    /** The configuration name is never the empty string (so it is either absent or names a class). */
    predicate Valid()
      reads this
    {
      configurationFileName != Some("")
    }

    constructor ()
      ensures Current() == DefaultSettings
      ensures Valid()
    {
      logLevel := ERRORS;
      annotationUsage := IMPLICIT;
      unknownTypes := ERROR;
      withJackson := false;
      withJsonb := false;
      configurationFileName := None;
    }

    /** `init`: reads the options; returns the option whose value was rejected, if any. */
    method Init(options: map<string, string>) returns (failure: Option<string>)
      modifies this
      ensures (Current(), failure) == ApplyOptions(old(Current()), options)
      ensures old(Valid()) ==> Valid()
    {
      var ok := ReadLogLevel(options);
      if !ok { return Some(LOG_LEVEL); }
      ok := ReadAnnotationUsage(options);
      if !ok { return Some(ANNOTATION); }
      ok := ReadUnknownTypes(options);
      if !ok { return Some(UNKNOWN); }
      ReadFlags(options);
      failure := None;
    }

    /** `init`, lines for `dsljson.loglevel`; false where `valueOf` throws. */
    method ReadLogLevel(options: map<string, string>) returns (ok: bool)
      modifies this
      ensures ok == ApplyLogLevel(old(Current()), options).Some?
      ensures Current() == if ok then ApplyLogLevel(old(Current()), options).value else old(Current())
    {
      ok := true;
      if LOG_LEVEL in options && |options[LOG_LEVEL]| > 0 {
        var level := ParseLogLevel(options[LOG_LEVEL]);
        if level.None? { return false; }
        logLevel := level.value;
      }
    }

    /** `init`, lines for `dsljson.annotation`. */
    method ReadAnnotationUsage(options: map<string, string>) returns (ok: bool)
      modifies this
      ensures ok == ApplyAnnotationUsage(old(Current()), options).Some?
      ensures Current() == if ok then ApplyAnnotationUsage(old(Current()), options).value else old(Current())
    {
      ok := true;
      if ANNOTATION in options && |options[ANNOTATION]| > 0 {
        var usage := ParseAnnotationUsage(options[ANNOTATION]);
        if usage.None? { return false; }
        annotationUsage := usage.value;
      }
    }

    /** `init`, lines for `dsljson.unknown`. */
    method ReadUnknownTypes(options: map<string, string>) returns (ok: bool)
      modifies this
      ensures ok == ApplyUnknownTypes(old(Current()), options).Some?
      ensures Current() == if ok then ApplyUnknownTypes(old(Current()), options).value else old(Current())
    {
      ok := true;
      if UNKNOWN in options && |options[UNKNOWN]| > 0 {
        var unknown := ParseUnknownTypes(options[UNKNOWN]);
        if unknown.None? { return false; }
        unknownTypes := unknown.value;
      }
    }

    /** `init`, lines for `dsljson.jackson`, `dsljson.jsonb` and `dsljson.configuration`. */
    method ReadFlags(options: map<string, string>)
      modifies this
      ensures Current() == ApplyFlags(old(Current()), options)
    {
      if JACKSON in options && |options[JACKSON]| > 0 {
        withJackson := ParseBoolean(options[JACKSON]);
      }
      if JSONB in options && |options[JSONB]| > 0 {
        withJsonb := ParseBoolean(options[JSONB]);
      }
      if CONFIGURATION in options && |options[CONFIGURATION]| > 0 {
        configurationFileName := Some(options[CONFIGURATION]);
      }
    }

    /**
      `getSupportedOptions`: every option name, plus Gradle's aggregating marker when a
      configuration name is set and its isolating marker otherwise.
    */
    method SupportedOptions() returns (supported: set<string>)
      ensures forall name :: name in OptionNames ==> name in supported
      ensures GRADLE_OPTION_AGGREGATING in supported
          <==> configurationFileName.Some? && configurationFileName.value != ""
      ensures GRADLE_OPTION_ISOLATING in supported
          <==> !(configurationFileName.Some? && configurationFileName.value != "")
      ensures forall name :: name in supported ==>
          name in OptionNames || name == GRADLE_OPTION_ISOLATING || name == GRADLE_OPTION_AGGREGATING
      ensures Valid() ==>
          && (GRADLE_OPTION_AGGREGATING in supported <==> configurationFileName.Some?)
          && (GRADLE_OPTION_ISOLATING in supported <==> configurationFileName.None?)
    {
      supported := {};
      var i := 0;
      while i < |OptionNames|
        invariant 0 <= i <= |OptionNames|
        invariant forall j :: 0 <= j < i ==> OptionNames[j] in supported
        invariant forall name :: name in supported ==> name in OptionNames[..i]
      {
        supported := supported + {OptionNames[i]};
        i := i + 1;
      }
      supported := supported + {
        if configurationFileName.None? || configurationFileName.value == "" then GRADLE_OPTION_ISOLATING
        else GRADLE_OPTION_AGGREGATING};
    }
  }

  /** An option that is absent or empty leaves its field as it was. */
  lemma UnsetOptionsKeepFields(s: Settings, options: map<string, string>)
    ensures var (r, _) := ApplyOptions(s, options);
      && (Given(options, LOG_LEVEL).None? ==> r.logLevel == s.logLevel)
      && (Given(options, ANNOTATION).None? ==> r.annotationUsage == s.annotationUsage)
      && (Given(options, UNKNOWN).None? ==> r.unknownTypes == s.unknownTypes)
      && (Given(options, JACKSON).None? ==> r.withJackson == s.withJackson)
      && (Given(options, JSONB).None? ==> r.withJsonb == s.withJsonb)
      && (Given(options, CONFIGURATION).None? ==> r.configurationFileName == s.configurationFileName)
  {
    LogLevelStep(s, options);
    var r1 := ApplyLogLevel(s, options);
    if r1.Some? {
      AnnotationUsageStep(r1.value, options);
      var r2 := ApplyAnnotationUsage(r1.value, options);
      if r2.Some? {
        UnknownTypesStep(r2.value, options);
        var r3 := ApplyUnknownTypes(r2.value, options);
        if r3.Some? {
          FlagsStep(r3.value, options);
        }
      }
    }
  }

  /** The log-level step touches only its own field, and only when the option is given. */
  lemma LogLevelStep(s: Settings, options: map<string, string>)
    ensures var r := ApplyLogLevel(s, options);
      r.Some? ==>
        && r.value == s.(logLevel := r.value.logLevel)
        && (Given(options, LOG_LEVEL).None? ==> r.value == s)
        && (Given(options, LOG_LEVEL).Some? ==> Some(r.value.logLevel) == ParseLogLevel(Given(options, LOG_LEVEL).value))
  {
  }

  lemma AnnotationUsageStep(s: Settings, options: map<string, string>)
    ensures var r := ApplyAnnotationUsage(s, options);
      r.Some? ==>
        && r.value == s.(annotationUsage := r.value.annotationUsage)
        && (Given(options, ANNOTATION).None? ==> r.value == s)
        && (Given(options, ANNOTATION).Some? ==> Some(r.value.annotationUsage) == ParseAnnotationUsage(Given(options, ANNOTATION).value))
  {
  }

  lemma UnknownTypesStep(s: Settings, options: map<string, string>)
    ensures var r := ApplyUnknownTypes(s, options);
      r.Some? ==>
        && r.value == s.(unknownTypes := r.value.unknownTypes)
        && (Given(options, UNKNOWN).None? ==> r.value == s)
        && (Given(options, UNKNOWN).Some? ==> Some(r.value.unknownTypes) == ParseUnknownTypes(Given(options, UNKNOWN).value))
  {
  }

  lemma FlagsStep(s: Settings, options: map<string, string>)
    ensures var r := ApplyFlags(s, options);
      && r.logLevel == s.logLevel && r.annotationUsage == s.annotationUsage && r.unknownTypes == s.unknownTypes
      && (Given(options, JACKSON).None? ==> r.withJackson == s.withJackson)
      && (Given(options, JSONB).None? ==> r.withJsonb == s.withJsonb)
      && (Given(options, CONFIGURATION).None? ==> r.configurationFileName == s.configurationFileName)
      && (Given(options, JACKSON).Some? ==> r.withJackson == ParseBoolean(Given(options, JACKSON).value))
      && (Given(options, JSONB).Some? ==> r.withJsonb == ParseBoolean(Given(options, JSONB).value))
      && (Given(options, CONFIGURATION).Some? ==> r.configurationFileName == Given(options, CONFIGURATION))
  {
  }

  /**
    `init` fails exactly when one of the three enum options is given a value that
    names no constant, and it names the first such option in the order read.
  */
  lemma OptionsFailOnlyOnUnknownConstants(s: Settings, options: map<string, string>)
    ensures var (_, failure) := ApplyOptions(s, options);
      var llBad := Given(options, LOG_LEVEL).Some? && ParseLogLevel(Given(options, LOG_LEVEL).value).None?;
      var auBad := Given(options, ANNOTATION).Some? && ParseAnnotationUsage(Given(options, ANNOTATION).value).None?;
      var unkBad := Given(options, UNKNOWN).Some? && ParseUnknownTypes(Given(options, UNKNOWN).value).None?;
      && (failure.None? <==> !llBad && !auBad && !unkBad)
      && (failure == Some(LOG_LEVEL) <==> llBad)
      && (failure == Some(ANNOTATION) <==> !llBad && auBad)
      && (failure == Some(UNKNOWN) <==> !llBad && !auBad && unkBad)
  {
  }

  /** When `init` succeeds, every given option is in force. */
  lemma GivenOptionsApplied(s: Settings, options: map<string, string>)
    requires ApplyOptions(s, options).1.None?
    ensures var r := ApplyOptions(s, options).0;
      && (Given(options, LOG_LEVEL).Some? ==> Some(r.logLevel) == ParseLogLevel(Given(options, LOG_LEVEL).value))
      && (Given(options, ANNOTATION).Some? ==> Some(r.annotationUsage) == ParseAnnotationUsage(Given(options, ANNOTATION).value))
      && (Given(options, UNKNOWN).Some? ==> Some(r.unknownTypes) == ParseUnknownTypes(Given(options, UNKNOWN).value))
      && (Given(options, JACKSON).Some? ==> r.withJackson == ParseBoolean(Given(options, JACKSON).value))
      && (Given(options, JSONB).Some? ==> r.withJsonb == ParseBoolean(Given(options, JSONB).value))
      && (Given(options, CONFIGURATION).Some? ==> r.configurationFileName == Given(options, CONFIGURATION))
  {
    LogLevelStep(s, options);
    var r1 := ApplyLogLevel(s, options).value;
    AnnotationUsageStep(r1, options);
    var r2 := ApplyAnnotationUsage(r1, options).value;
    UnknownTypesStep(r2, options);
    var r3 := ApplyUnknownTypes(r2, options).value;
    FlagsStep(r3, options);
  }

  /**
    The configuration name is only ever replaced by a non-empty value, so from the
    defaults it never becomes "": the processor's "configuration disabled" check
    against the empty name cannot succeed.
  */
  lemma ConfigurationNameNeverEmpty(s: Settings, options: map<string, string>)
    requires s.configurationFileName != Some("")
    ensures ApplyOptions(s, options).0.configurationFileName != Some("")
  {
  }

  /** Only "true", in any letter case, parses as true. */
  lemma ParseBooleanIgnoringCase(s: string)
    ensures ParseBoolean(s) <==>
      && |s| == 4
      && (s[0] == 't' || s[0] == 'T') && (s[1] == 'r' || s[1] == 'R')
      && (s[2] == 'u' || s[2] == 'U') && (s[3] == 'e' || s[3] == 'E')
  {
    if |s| == 4 && ParseBoolean(s) {
      assert LowerAscii(s[0]) == 't' && LowerAscii(s[1]) == 'r' && LowerAscii(s[2]) == 'u' && LowerAscii(s[3]) == 'e';
    }
  }
}
