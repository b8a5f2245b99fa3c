/** The difficulty schedule: five timed levels, the last one effectively
    endless. */
module Levels {

  /** Duration in seconds, base spawn interval in milliseconds and the
      multiplier applied to a new obstacle's fall speed. */
  datatype LevelDef = LevelDef(duration: nat, spawnInterval: real, speedMul: real)

  const Schedule: seq<LevelDef> := [
    LevelDef(12, 720.0, 1.3),
    LevelDef(15, 600.0, 1.45),
    LevelDef(18, 480.0, 1.7),
    LevelDef(22, 420.0, 2.0),
    LevelDef(9999, 360.0, 2.5)
  ]

  /** Index of the final level. */
  const LastLevel: nat := 4

  /** Floor under which the fallback spawner never ramps the interval. */
  const MinSpawnInterval: real := 260.0

  type LevelIndex = i: nat | i <= 4

  /** `min(i, LEVELS.length - 1)`: the level a request for level `i` selects. */
  function ClampLevel(i: nat): (j: LevelIndex)
    ensures j <= i
    ensures i <= LastLevel ==> j == i
    ensures i > LastLevel ==> j == LastLevel
  {
    if i <= LastLevel then i else LastLevel
  }

  function Level(i: LevelIndex): (d: LevelDef)
    ensures d.duration > 0 && d.spawnInterval >= MinSpawnInterval && d.speedMul > 1.0
  {
    Schedule[i]
  }

  /** Timer value, in milliseconds, a level starts with. */
  function LevelTime(i: LevelIndex): (t: real)
    ensures t >= 12000.0
  {
    Level(i).duration as real * 1000.0
  }

  /** Later levels spawn more often and make obstacles fall faster. */
  lemma ScheduleHardens(i: LevelIndex, j: LevelIndex)
    requires i < j
    ensures Level(j).spawnInterval < Level(i).spawnInterval
    ensures Level(j).speedMul > Level(i).speedMul
    ensures Level(j).duration > Level(i).duration
  {
  }

  /** The final level never ends for good: when its timer runs out, the
      next level requested is the final level again, re-armed with its full
      9999 seconds. */
  lemma FinalLevelRefires()
    ensures ClampLevel(LastLevel + 1) == LastLevel
    ensures LevelTime(ClampLevel(LastLevel + 1)) == 9999000.0
  {
  }
}
