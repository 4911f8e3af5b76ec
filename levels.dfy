/** The severity table: logging levels on the left, reporting levels on the right (index.js:6-12). */
module Levels {
  import opened JsValues

  /** The logging library's level ordinals. Only their distinctness matters to the proofs. */
  const TRACE: int := 10
  const DEBUG: int := 20
  const INFO: int := 30
  const WARN: int := 40
  const ERROR: int := 50
  const FATAL: int := 60

  /** The reporting service's levels. */
  datatype RollbarLevel = Debug | Info | Warning | Error | Critical {
    /** The level as the payload spells it. */
    function Name(): string {
      match this
      case Debug => "debug"
      case Info => "info"
      case Warning => "warning"
      case Error => "error"
      case Critical => "critical"
    }
  }

  /** The fixed table `levelMapping`. */
  const LevelMapping: map<int, RollbarLevel> :=
    map[TRACE := Debug, DEBUG := Debug, INFO := Info, WARN := Warning, ERROR := Error, FATAL := Critical]

  /**
   * `levelMapping[record.level] || 'error'` (index.js:55). Stated by the
   * preimage of each reporting level: which logging levels end up there.
   */
  function RollbarLevelOf(level: Value): (r: RollbarLevel)
    ensures r == Debug <==> level == Num(TRACE) || level == Num(DEBUG)
    ensures r == Info <==> level == Num(INFO)
    ensures r == Warning <==> level == Num(WARN)
    ensures r == Critical <==> level == Num(FATAL)
    ensures r == Error <==> level !in {Num(TRACE), Num(DEBUG), Num(INFO), Num(WARN), Num(FATAL)}
  {
    if level.Num? && level.n in LevelMapping then LevelMapping[level.n] else Error
  }

  /** The six levels as the payload spells them, and the default for every other level. */
  lemma SeverityTable(other: Value)
    requires other !in {Num(TRACE), Num(DEBUG), Num(INFO), Num(WARN), Num(ERROR), Num(FATAL)}
    ensures RollbarLevelOf(Num(TRACE)).Name() == "debug"
    ensures RollbarLevelOf(Num(DEBUG)).Name() == "debug"
    ensures RollbarLevelOf(Num(INFO)).Name() == "info"
    ensures RollbarLevelOf(Num(WARN)).Name() == "warning"
    ensures RollbarLevelOf(Num(ERROR)).Name() == "error"
    ensures RollbarLevelOf(Num(FATAL)).Name() == "critical"
    ensures RollbarLevelOf(other).Name() == "error"
  {
  }
}
