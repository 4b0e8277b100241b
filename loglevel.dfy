/** `getLevel` and the output rule of wire/init.go, with logrus's level numbering. */
module LogLevel {
  import opened Wrappers

  /** logrus levels, most severe first. */
  datatype Level = Panic | Fatal | Error | Warn | Info | Debug | Trace

  /** The configuration name of each level. */
  function Name(l: Level): string {
    match l
    case Panic => "PANIC"
    case Fatal => "FATAL"
    case Error => "ERROR"
    case Warn => "WARN"
    case Info => "INFO"
    case Debug => "DEBUG"
    case Trace => "TRACE"
  }

  /** The names the logger configuration accepts (`oneof=…` in utils/config/config.go). */
  const ConfigLevels: set<string> := {"TRACE", "DEBUG", "INFO", "WARN", "ERROR", "FATAL", "PANIC"}

  const InvalidLevel := "invalid logger level"

  /** `getLevel(level)`; a `Failure` is the panic with its message. */
  function GetLevel(level: string): (r: Result<Level, string>)
    ensures r.Success? ==> Name(r.value) == level
    ensures r.Failure? ==> r.error == InvalidLevel && forall l :: Name(l) != level
  {
    match level
    case "TRACE" => Success(Trace)
    case "DEBUG" => Success(Debug)
    case "INFO" => Success(Info)
    case "WARN" => Success(Warn)
    case "ERROR" => Success(Error)
    case "FATAL" => Success(Fatal)
    case "PANIC" => Success(Panic)
    case _ => Failure(InvalidLevel)
  }

  /** Every level is reached from its own name. */
  lemma GetLevelOfName(l: Level)
    ensures GetLevel(Name(l)) == Success(l)
  {
  }

  /** `getLevel` accepts exactly the names the configuration validates. */
  lemma AcceptedNamesAreConfigLevels(level: string)
    ensures GetLevel(level).Success? <==> level in ConfigLevels
  {
  }

  /** Names are case-sensitive: the lower-case spelling panics. */
  lemma LowercaseNamesPanic()
    ensures GetLevel("info") == Failure(InvalidLevel)
    ensures GetLevel("debug") == Failure(InvalidLevel)
  {
  }

  /** `Name` is one-to-one, so the name-level correspondence is a bijection. */
  lemma NameInjective(a: Level, b: Level)
    requires Name(a) == Name(b)
    ensures a == b
  {
  }

  const TestEnvironment := "TEST"

  /** What `InitializeDependency` configures: the level, and whether output is
      discarded. */
  datatype LoggerSetup = LoggerSetup(level: Level, discardOutput: bool)

  /** The logger set-up for an environment and a configured level name. */
  function Setup(environment: string, level: string): (r: Result<LoggerSetup, string>)
    ensures r.Success? <==> level in ConfigLevels
    ensures r.Success? ==> Name(r.value.level) == level
    ensures r.Success? ==> (r.value.discardOutput <==> environment == TestEnvironment)
  {
    AcceptedNamesAreConfigLevels(level);
    match GetLevel(level)
    case Success(l) => Success(LoggerSetup(l, environment == TestEnvironment))
    case Failure(e) => Failure(e)
  }
}
