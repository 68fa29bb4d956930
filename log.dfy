/** Log levels (log): parsing a level name. */
module Log {
  import opened Common

  /** `slog`'s levels. */
  const LevelDebug := -4
  const LevelInfo := 0
  const LevelWarn := 4
  const LevelError := 8

  const ErrUnknownLogLevel := "unknown log level"

  /** `ParseLevel`: the level and the error, as the Go function returns
      them. */
  function ParseLevel(lvl: string): (r: (int, Option<string>))
    ensures r.1.None? <==> lvl == "debug" || lvl == "info" || lvl == "warn" || lvl == "error"
    ensures r.1.Some? ==> r == (0, Some(ErrUnknownLogLevel))
    ensures lvl == "debug" ==> r.0 == LevelDebug
    ensures lvl == "info" ==> r.0 == LevelInfo
    ensures lvl == "warn" ==> r.0 == LevelWarn
    ensures lvl == "error" ==> r.0 == LevelError
  {
    if lvl == "debug" then (LevelDebug, None)
    else if lvl == "info" then (LevelInfo, None)
    else if lvl == "warn" then (LevelWarn, None)
    else if lvl == "error" then (LevelError, None)
    else (0, Some(ErrUnknownLogLevel))
  }

  /** Names are matched exactly: other casings and padded names are
      unknown, and the four names give four increasing levels. */
  lemma ParseLevelExact()
    ensures ParseLevel("DEBUG") == ParseLevel("Info") == ParseLevel(" info ") == ParseLevel("") == (0, Some(ErrUnknownLogLevel))
    ensures ParseLevel("debug").0 < ParseLevel("info").0 < ParseLevel("warn").0 < ParseLevel("error").0
  {
  }
}
