/**
 * Model of src/clean_interfaces/utils/settings.py: the field validators of
 * the logging and interface settings, the computed `otel_export_enabled`
 * flag and its place in `model_dump`, the defaults, and the cached
 * settings instances behind `get_*`/`reset_*`.
 */
module Settings {
  import opened Wrappers
  import opened Text
  import opened PyValues

  const ValidLevels: set<string> := {"DEBUG", "INFO", "WARNING", "ERROR", "CRITICAL"}
  const ValidFormats: set<string> := {"json", "console", "plain"}

  /** `order` lists every element of `s` exactly once, in some order. */
  predicate OrderOf(order: seq<string>, s: set<string>) {
    && |order| == |s|
    && (forall i :: 0 <= i < |order| ==> order[i] in s)
    && (forall x :: x in s ==> x in order)
  }

  /** The declaration order of both sets is one of their orders, so the validators can be called. */
  lemma DeclarationOrders()
    ensures OrderOf(["DEBUG", "INFO", "WARNING", "ERROR", "CRITICAL"], ValidLevels)
    ensures OrderOf(["json", "console", "plain"], ValidFormats)
  {
  }

  /**
   * `str()` of a non-empty set of strings: its elements quoted and
   * comma-separated in braces. The element order follows string hashing, so
   * it is an input.
   */
  function SetDisplay(order: seq<string>): (shown: string)
    requires |order| >= 1
    ensures |shown| >= 2 && shown[0] == '{' && shown[|shown| - 1] == '}'
  {
    "{" + Join(seq(|order|, i requires 0 <= i < |order| => "'" + order[i] + "'"), ", ") + "}"
  }

  /** `validate_log_level`; `order` is the order in which `valid_levels` prints. */
  function ValidateLogLevel(v: string, order: seq<string>): (r: Result<string, Exception>)
    requires OrderOf(order, ValidLevels)
    ensures r.Success? <==> Upper(v) in ValidLevels
    ensures r.Success? ==> r.value in ValidLevels && r.value == Upper(v)
    ensures r.Failure? ==> r.error == ValueError("Invalid log level: " + v + ". Must be one of " + SetDisplay(order))
  {
    if Upper(v) !in ValidLevels then Failure(ValueError("Invalid log level: " + v + ". Must be one of " + SetDisplay(order)))
    else Success(Upper(v))
  }

  /** `validate_log_format`; `order` is the order in which `valid_formats` prints. */
  function ValidateLogFormat(v: string, order: seq<string>): (r: Result<string, Exception>)
    requires OrderOf(order, ValidFormats)
    ensures r.Success? <==> Lower(v) in ValidFormats
    ensures r.Success? ==> r.value in ValidFormats && r.value == Lower(v)
    ensures r.Failure? ==> r.error == ValueError("Invalid log format: " + v + ". Must be one of " + SetDisplay(order))
  {
    if Lower(v) !in ValidFormats then Failure(ValueError("Invalid log format: " + v + ". Must be one of " + SetDisplay(order)))
    else Success(Lower(v))
  }

  lemma UpperIdempotent(s: string)
    ensures Upper(Upper(s)) == Upper(s)
  {
  }

  lemma LowerIdempotent(s: string)
    ensures Lower(Lower(s)) == Lower(s)
  {
  }

  lemma UpperOfLower(s: string)
    ensures Upper(Lower(s)) == Upper(s)
  {
    assert forall i :: 0 <= i < |s| ==> UpperChar(LowerChar(s[i])) == UpperChar(s[i]);
  }

  lemma LowerOfUpper(s: string)
    ensures Lower(Upper(s)) == Lower(s)
  {
    assert forall i :: 0 <= i < |s| ==> LowerChar(UpperChar(s[i])) == LowerChar(s[i]);
  }

  /**
   * The log level is case-insensitive and normalising: the lower-case
   * spelling is accepted exactly when the value is, with the same result,
   * and a validated level validates to itself.
   */
  lemma LogLevelNormalises(v: string, order: seq<string>)
    requires OrderOf(order, ValidLevels)
    ensures ValidateLogLevel(Lower(v), order).Success? <==> ValidateLogLevel(v, order).Success?
    ensures ValidateLogLevel(v, order).Success? ==>
              ValidateLogLevel(Lower(v), order) == ValidateLogLevel(v, order)
              && ValidateLogLevel(ValidateLogLevel(v, order).value, order) == ValidateLogLevel(v, order)
  {
    UpperOfLower(v);
    UpperIdempotent(v);
  }

  /** The same for the log format, with the upper-case spelling. */
  lemma LogFormatNormalises(v: string, order: seq<string>)
    requires OrderOf(order, ValidFormats)
    ensures ValidateLogFormat(Upper(v), order).Success? <==> ValidateLogFormat(v, order).Success?
    ensures ValidateLogFormat(v, order).Success? ==>
              ValidateLogFormat(Upper(v), order) == ValidateLogFormat(v, order)
              && ValidateLogFormat(ValidateLogFormat(v, order).value, order) == ValidateLogFormat(v, order)
  {
    LowerOfUpper(v);
    LowerIdempotent(v);
  }

  lemma LogLevelExample(order: seq<string>)
    requires OrderOf(order, ValidLevels)
    ensures ValidateLogLevel("debug", order) == Success("DEBUG")
    ensures ValidateLogLevel("verbose", order)
            == Failure(ValueError("Invalid log level: verbose. Must be one of " + SetDisplay(order)))
  {
    assert Upper("debug") == "DEBUG";
    assert Upper("verbose") == "VERBOSE";
    assert "VERBOSE" !in ValidLevels by {
      assert |"VERBOSE"| == 7 && "VERBOSE"[0] == 'V';
    }
    assert "Invalid log level: " + "verbose" + ". Must be one of " == "Invalid log level: verbose. Must be one of ";
  }

  /** `validate_timeout`. */
  function ValidateTimeout(v: int): (r: Result<int, Exception>)
    ensures r.Success? <==> v > 0
    ensures r.Success? ==> r.value == v
    ensures r.Failure? ==> r.error == ValueError("Timeout must be a positive integer")
  {
    if v <= 0 then Failure(ValueError("Timeout must be a positive integer")) else Success(v)
  }

  /** `OTelExportMode`. */
  datatype OTelExportMode = FILE | OTLP | BOTH {
    function Value(): string {
      match this
      case FILE => "file"
      case OTLP => "otlp"
      case BOTH => "both"
    }
  }

  /** `otel_export_enabled`. */
  function OtelExportEnabled(mode: OTelExportMode): (enabled: bool)
    ensures enabled <==> mode != FILE
  {
    mode == OTLP || mode == BOTH
  }

  /** The fields of `LoggingSettings`. */
  datatype LoggingSettings = LoggingSettings(
    logLevel: string,
    logFormat: string,
    logFilePath: Option<string>,
    otelLogsExportMode: OTelExportMode,
    otelEndpoint: string,
    otelServiceName: string,
    otelExportTimeout: int)

  const Defaults := LoggingSettings("INFO", "json", None, FILE, "http://localhost:4317", "python-app", 30000)

  /** The defaults pass every validator unchanged, and export is off by default. */
  lemma DefaultsAreValid(levelOrder: seq<string>, formatOrder: seq<string>)
    requires OrderOf(levelOrder, ValidLevels) && OrderOf(formatOrder, ValidFormats)
    ensures ValidateLogLevel(Defaults.logLevel, levelOrder) == Success(Defaults.logLevel)
    ensures ValidateLogFormat(Defaults.logFormat, formatOrder) == Success(Defaults.logFormat)
    ensures ValidateTimeout(Defaults.otelExportTimeout) == Success(Defaults.otelExportTimeout)
    ensures !OtelExportEnabled(Defaults.otelLogsExportMode)
  {
    assert Upper("INFO") == "INFO";
    assert Lower("json") == "json";
  }

  const DumpKeys: seq<string> := ["log_level", "log_format", "log_file_path", "otel_logs_export_mode",
                                  "otel_endpoint", "otel_service_name", "otel_export_timeout"]

  /** `model_dump`: the fields in declaration order, then the computed flag. */
  function ModelDump(s: LoggingSettings): (v: Value)
    ensures v.Dict? && Keys(v.fields) == DumpKeys + ["otel_export_enabled"]
  {
    Dict([("log_level", Str(s.logLevel)),
          ("log_format", Str(s.logFormat)),
          ("log_file_path", if s.logFilePath.Some? then Str(s.logFilePath.value) else Null),
          ("otel_logs_export_mode", Str(s.otelLogsExportMode.Value())),
          ("otel_endpoint", Str(s.otelEndpoint)),
          ("otel_service_name", Str(s.otelServiceName)),
          ("otel_export_timeout", Int(s.otelExportTimeout)),
          ("otel_export_enabled", Bool(OtelExportEnabled(s.otelLogsExportMode)))])
  }

  /** The dumped `otel_export_enabled` is the property's value. */
  lemma ModelDumpCarriesFlag(s: LoggingSettings)
    ensures Get(ModelDump(s).fields, "otel_export_enabled") == Some(Bool(OtelExportEnabled(s.otelLogsExportMode)))
  {
    var f := ModelDump(s).fields;
    assert "otel_export_timeout"[12] != "otel_export_enabled"[12];
    GetAt(f, 7);
  }

  /** `InterfaceType`. */
  datatype InterfaceType = CLI | RESTAPI | MCP {
    function Value(): string {
      match this
      case CLI => "cli"
      case RESTAPI => "restapi"
      case MCP => "mcp"
    }
  }

  /** `InterfaceType(s)`: the member whose value is `s`, if any. */
  function InterfaceTypeOf(s: string): (r: Option<InterfaceType>)
    ensures r.Some? ==> r.value.Value() == s
    ensures r.None? ==> forall t: InterfaceType :: t.Value() != s
  {
    if s == "cli" then Some(CLI)
    else if s == "restapi" then Some(RESTAPI)
    else if s == "mcp" then Some(MCP)
    else None
  }

  /** `validate_interface_type`. */
  function ValidateInterfaceType(v: string): (r: Result<string, Exception>)
    ensures r.Success? <==> exists t: InterfaceType :: t.Value() == Lower(v)
    ensures r.Success? ==> r.value == Lower(v)
    ensures r.Failure? ==> r.error == ValueError("Invalid interface type: " + v + ". Must be one of ['cli', 'restapi', 'mcp']")
  {
    if InterfaceTypeOf(Lower(v)).Some? then Success(Lower(v))
    else Failure(ValueError("Invalid interface type: " + v + ". Must be one of ['cli', 'restapi', 'mcp']"))
  }

  /** A validated interface type always converts to its enum member (`interface_type_enum`). */
  lemma InterfaceTypeEnumDefined(v: string)
    requires ValidateInterfaceType(v).Success?
    ensures var s := ValidateInterfaceType(v).value;
      InterfaceTypeOf(s).Some? && InterfaceTypeOf(s).value.Value() == s
  {
    LowerIdempotent(v);
  }

  lemma InterfaceTypeExample()
    ensures ValidateInterfaceType("CLI") == Success("cli")
    ensures ValidateInterfaceType("grpc").Failure?
  {
    assert Lower("CLI") == "cli";
    assert Lower("grpc") == "grpc";
  }

  /** A settings object; its fields are fixed once built. */
  class LoggingSettingsObject {
    const values: LoggingSettings

    constructor (values: LoggingSettings)
      ensures this.values == values
    {
      this.values := values;
    }
  }

  class InterfaceSettingsObject {
    const interfaceType: string

    constructor (interfaceType: string)
      ensures this.interfaceType == interfaceType
    {
      this.interfaceType := interfaceType;
    }
  }

  /**
   * The two class-level `instance` attributes. The values a fresh settings
   * object would load from the environment are passed in.
   */
  class Registry {
    var logging: LoggingSettingsObject?
    var interface: InterfaceSettingsObject?

    constructor ()
      ensures logging == null && interface == null
    {
      logging := null;
      interface := null;
    }

    /** `get_settings`. */
    method GetSettings(loaded: LoggingSettings) returns (s: LoggingSettingsObject)
      modifies this
      ensures old(logging) != null ==> s == old(logging)
      ensures old(logging) == null ==> fresh(s) && s.values == loaded
      ensures logging == s && interface == old(interface)
    {
      if logging == null {
        logging := new LoggingSettingsObject(loaded);
      }
      s := logging;
    }

    /** `reset_settings`. */
    method ResetSettings()
      modifies this
      ensures logging == null && interface == old(interface)
    {
      logging := null;
    }

    /** `get_interface_settings`. */
    method GetInterfaceSettings(loaded: string) returns (s: InterfaceSettingsObject)
      modifies this
      ensures old(interface) != null ==> s == old(interface)
      ensures old(interface) == null ==> fresh(s) && s.interfaceType == loaded
      ensures interface == s && logging == old(logging)
    {
      if interface == null {
        interface := new InterfaceSettingsObject(loaded);
      }
      s := interface;
    }

    /** `reset_interface_settings`. */
    method ResetInterfaceSettings()
      modifies this
      ensures interface == null && logging == old(logging)
    {
      interface := null;
    }
  }

  /**
   * From a fresh start, two `get_settings` calls give the same object, built
   * from the first load; after `reset_settings` the next call builds a new
   * object from what is loaded then.
   */
  method CachingScenario(first: LoggingSettings, second: LoggingSettings)
    returns (a: LoggingSettingsObject, b: LoggingSettingsObject, c: LoggingSettingsObject)
    ensures a == b && a.values == first
    ensures c != a && c.values == second
  {
    var registry := new Registry();
    a := registry.GetSettings(first);
    b := registry.GetSettings(second);
    registry.ResetSettings();
    c := registry.GetSettings(second);
  }
}
