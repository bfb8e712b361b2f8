/**
 * Router configuration (config.go), its functional options (options.go) and
 * the log-level gate (log.go).
 *
 * Log levels are `log/slog` levels: Info 0, Warn 4, Error 8, and the
 * router's own LogLevelQuiet -8.
 */
module Configs {
  import opened Wrappers
  import opened Handlers

  type LogLevel = int

  const LevelInfo: LogLevel := 0
  const LevelWarn: LogLevel := 4
  const LevelError: LogLevel := 8
  const LogLevelQuiet: LogLevel := -8

  /** The package-level `globalErrorHandler`. */
  const GlobalErrorHandler: Handler := Func("globalErrorHandler")

  datatype Config = Config(
    removeTrailingSlash: bool,
    globalErrorHandler: Handler,
    logLevel: LogLevel)

  /** The defaults every router starts from. */
  function NewConfig(): (c: Config)
    ensures c.removeTrailingSlash
    ensures c.globalErrorHandler == GlobalErrorHandler
    ensures c.logLevel == LevelError
  {
    Config(true, GlobalErrorHandler, LevelError)
  }

  /** Go's zero `Config{}`: what a node built by `With` carries. */
  const ZeroConfig := Config(false, NilHandler, 0)

  /** The option closures of options.go. */
  datatype ConfigOption =
    | WithTrailingSlash               // sets RemoveTrailingSlash to false
    | WithErrorHandler(h: Handler)    // sets GlobalErrorHandler to h

  /** Applying one option: it writes its own field and no other. */
  function Apply(opt: ConfigOption, c: Config): (r: Config)
    ensures r.logLevel == c.logLevel
    ensures opt.WithTrailingSlash? ==>
      !r.removeTrailingSlash && r.globalErrorHandler == c.globalErrorHandler
    ensures opt.WithErrorHandler? ==>
      r.globalErrorHandler == opt.h && r.removeTrailingSlash == c.removeTrailingSlash
  {
    match opt
    case WithTrailingSlash => c.(removeTrailingSlash := false)
    case WithErrorHandler(h) => c.(globalErrorHandler := h)
  }

  /** Options applied in argument order, as `New` does. */
  function ApplyAll(opts: seq<ConfigOption>, c: Config): Config
    decreases |opts|
  {
    if opts == [] then c else ApplyAll(opts[1..], Apply(opts[0], c))
  }

  /** Applying an option a second time changes nothing. */
  lemma ApplyIdempotent(opt: ConfigOption, c: Config)
    ensures Apply(opt, Apply(opt, c)) == Apply(opt, c)
  {
  }

  /** Index of the last error-handler option, if any. */
  function LastErrorHandler(opts: seq<ConfigOption>): (k: int)
    ensures -1 <= k < |opts|
    ensures k >= 0 ==> opts[k].WithErrorHandler?
    ensures forall j :: k < j < |opts| ==> !opts[j].WithErrorHandler?
    decreases |opts|
  {
    if opts == [] then -1
    else if opts[|opts| - 1].WithErrorHandler? then |opts| - 1
    else LastErrorHandler(opts[..|opts| - 1])
  }

  /**
   * What a list of options produces: the last error handler given wins,
   * trailing-slash removal is off as soon as one WithTrailingSlash appears,
   * and the log level is untouched.
   */
  lemma {:induction false} ApplyAllEffect(opts: seq<ConfigOption>, c: Config)
    ensures ApplyAll(opts, c).logLevel == c.logLevel
    ensures ApplyAll(opts, c).removeTrailingSlash ==
      (c.removeTrailingSlash && forall i :: 0 <= i < |opts| ==> !opts[i].WithTrailingSlash?)
    ensures ApplyAll(opts, c).globalErrorHandler ==
      (var k := LastErrorHandler(opts); if k < 0 then c.globalErrorHandler else opts[k].h)
    decreases |opts|
  {
    if opts != [] {
      ApplyAllEffect(opts[1..], Apply(opts[0], c));
      var k := LastErrorHandler(opts);
      var k' := LastErrorHandler(opts[1..]);
      if k' >= 0 {
        assert opts[k' + 1] == opts[1..][k'];
        assert k == k' + 1 by { LastErrorHandlerUnique(opts, k' + 1); }
      } else {
        assert forall j :: 1 <= j < |opts| ==> !opts[j].WithErrorHandler? by {
          forall j | 1 <= j < |opts| ensures !opts[j].WithErrorHandler? {
            assert opts[j] == opts[1..][j - 1];
          }
        }
        LastErrorHandlerNone(opts);
      }
      forall i | 1 <= i < |opts| ensures opts[i] == opts[1..][i - 1] { }
    }
  }

  lemma LastErrorHandlerUnique(opts: seq<ConfigOption>, k: int)
    requires 0 <= k < |opts| && opts[k].WithErrorHandler?
    requires forall j :: k < j < |opts| ==> !opts[j].WithErrorHandler?
    ensures LastErrorHandler(opts) == k
    decreases |opts|
  {
    if k < |opts| - 1 {
      assert opts[..|opts| - 1][k] == opts[k];
      LastErrorHandlerUnique(opts[..|opts| - 1], k);
    }
  }

  lemma LastErrorHandlerNone(opts: seq<ConfigOption>)
    requires opts != []
    requires forall j :: 1 <= j < |opts| ==> !opts[j].WithErrorHandler?
    ensures LastErrorHandler(opts) == (if opts[0].WithErrorHandler? then 0 else -1)
  {
    if opts[0].WithErrorHandler? { LastErrorHandlerUnique(opts, 0); }
  }

  /** log.go `isLogCanShow`: whether a message at `level` passes the configured level. */
  function IsLogCanShow(configured: LogLevel, level: LogLevel): (r: bool)
    ensures r <==>
      configured in {LevelInfo, LevelWarn, LevelError} &&
      level in {LevelInfo, LevelWarn, LevelError} &&
      level <= configured
  {
    if configured == LogLevelQuiet then false
    else if configured == LevelInfo && level == LevelInfo then true
    else if (configured == LevelWarn && level == LevelInfo) || (configured == LevelWarn && level == LevelWarn) then true
    else if (configured == LevelError && level == LevelInfo) || (configured == LevelError && level == LevelWarn)
      || (configured == LevelError && level == LevelError) then true
    else false
  }

  /** A record handed to `slog`: its level, its message text and the extra arguments. */
  datatype LogRecord = LogRecord(level: LogLevel, message: string, args: seq<string>)

  /** log.go `Log`: the record handed to the logger, or nothing when the gate is closed. */
  function Log(configured: LogLevel, level: LogLevel, message: string, args: seq<string>): (r: Option<LogRecord>)
    ensures r.Some? <==> IsLogCanShow(configured, level)
    ensures r.Some? ==> r.value == LogRecord(level, message, args)
  {
    if !IsLogCanShow(configured, level) then None else Some(LogRecord(level, message, args))
  }
}
