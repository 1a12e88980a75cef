/** Severity levels of the logger: the five integer constants and the
    table that maps each one to its display label. */
module Levels {

  const DebugLevel: int := 0
  const InfoLevel: int := 1
  const WarningLevel: int := 2
  const ErrorLevel: int := 3
  const FatalLevel: int := 4

  /** Declared next to the other defaults but never read by the constructor. */
  const DefaultLevel: int := ErrorLevel

  /** The read-only level-to-label table. */
  const LevelMap: map<int, string> := map[
    DebugLevel := "DEBUG",
    InfoLevel := "INFO",
    WarningLevel := "WARNING",
    ErrorLevel := "ERROR",
    FatalLevel := "FATAL"
  ]

  /** A level is known when the label table has an entry for it. */
  predicate IsLevel(l: int) {
    l in LevelMap
  }

  /** Looks a level up in the label table; like a Go map read, a missing key
      yields the empty string. */
  function Label(l: int): (r: string)
    ensures r != "" <==> DebugLevel <= l <= FatalLevel
    ensures l == DebugLevel ==> r == "DEBUG"
    ensures l == InfoLevel ==> r == "INFO"
    ensures l == WarningLevel ==> r == "WARNING"
    ensures l == ErrorLevel ==> r == "ERROR"
    ensures l == FatalLevel ==> r == "FATAL"
  {
    if l in LevelMap then LevelMap[l] else ""
  }

  /** The labels of two distinct known levels differ, so a line's label
      identifies the level of its event. */
  lemma LabelInjective(a: int, b: int)
    requires IsLevel(a) && IsLevel(b)
    ensures Label(a) == Label(b) ==> a == b
  {
  }

  /** The value SetLevel stores: a known level is kept, anything else
      falls back to ErrorLevel. */
  function Validated(level: int): (r: int)
    ensures IsLevel(r)
    ensures DebugLevel <= level <= FatalLevel ==> r == level
    ensures !(DebugLevel <= level <= FatalLevel) ==> r == ErrorLevel
  {
    if level in LevelMap then level else ErrorLevel
  }
}
