/** The behaviours the repository's tests exercise, stated for every clock
    and every call time. */
module Scenarios {
  import opened Levels
  import opened Layout
  import opened Logger
  import opened Writer

  /** A fresh service named "my-logger" at `level`, writing to an empty buffer. */
  function Configured(level: int): (s: Service)
    ensures s.serviceName == "my-logger" && s.timeLoyaut == DefaultTimeLoyaut
    ensures s.out == [] && s.pending == [] && s.status == Running
    ensures DebugLevel <= level <= FatalLevel ==> s.level == level
  {
    SetOutput(SetLevel(SetServiceName(NewLoggerService(), "my-logger"), level), [])
  }

  /** At Info, a Debug call followed by an Info call writes only the Info
      line, and that line carries the service name and the message. */
  lemma InfoFiltersDebug(clock: TimeFormatter, t1: Instant, t2: Instant)
    ensures var q := Info(Debug(Configured(InfoLevel), "test debug", t1), "test info", t2);
      && Drain(q, clock).out == [Line("my-logger", clock(t2, DefaultTimeLoyaut), "INFO", "test info")]
      && Contains(Drain(q, clock).out[0], "my-logger")
      && Contains(Drain(q, clock).out[0], "test info")
  {
    var q := Info(Debug(Configured(InfoLevel), "test debug", t1), "test info", t2);
    DrainWritesAccepted(q, clock);
    assert q.pending == [Event("test debug", t1, DebugLevel), Event("test info", t2, InfoLevel)];
    assert Accepted(q.pending, InfoLevel) == [Event("test info", t2, InfoLevel)];
    LineContainsNameAndMessage("my-logger", clock(t2, DefaultTimeLoyaut), "INFO", "test info");
  }

  /** At Error, Debug and Info calls are dropped and the Error line is the
      only output. */
  lemma ErrorFiltersLower(clock: TimeFormatter, t1: Instant, t2: Instant, t3: Instant)
    ensures var q := Error(Info(Debug(Configured(ErrorLevel), "test debug", t1), "test info", t2), "test error", t3);
      Drain(q, clock).out == [Line("my-logger", clock(t3, DefaultTimeLoyaut), "ERROR", "test error")]
  {
    var q := Error(Info(Debug(Configured(ErrorLevel), "test debug", t1), "test info", t2), "test error", t3);
    DrainWritesAccepted(q, clock);
    assert q.pending == [Event("test debug", t1, DebugLevel), Event("test info", t2, InfoLevel), Event("test error", t3, ErrorLevel)];
    AcceptedStep(q.pending, ErrorLevel);
    AcceptedStep(q.pending[1..], ErrorLevel);
    assert Accepted(q.pending, ErrorLevel) == [Event("test error", t3, ErrorLevel)];
  }

  /** At Fatal, Debug, Info and Error calls write nothing; Fatal then writes
      its line and exits with status 1. */
  lemma FatalOnlyFatal(clock: TimeFormatter, t1: Instant, t2: Instant, t3: Instant, t4: Instant)
    ensures var q := Error(Info(Debug(Configured(FatalLevel), "test debug", t1), "test info", t2), "test error", t3);
      && Drain(q, clock).out == []
      && Fatal(Drain(q, clock), clock, "test fatal", t4).out
           == [Line("my-logger", clock(t4, DefaultTimeLoyaut), "FATAL", "test fatal")]
      && Fatal(Drain(q, clock), clock, "test fatal", t4).status == Exited(1)
  {
    QuietAtFatal(clock, t1, t2, t3);
  }

  /** The first half of the Fatal tests: at Fatal, Debug, Info and Error
      calls leave the buffer empty and the configuration as set up. */
  lemma QuietAtFatal(clock: TimeFormatter, t1: Instant, t2: Instant, t3: Instant)
    ensures var d := Drain(Error(Info(Debug(Configured(FatalLevel), "test debug", t1), "test info", t2), "test error", t3), clock);
      && d.out == [] && d.status == Running
      && d.serviceName == "my-logger" && d.timeLoyaut == DefaultTimeLoyaut
  {
    var q := Error(Info(Debug(Configured(FatalLevel), "test debug", t1), "test info", t2), "test error", t3);
    DrainWritesAccepted(q, clock);
    DrainEmptiesQueue(q, clock);
    assert q.pending == [Event("test debug", t1, DebugLevel), Event("test info", t2, InfoLevel), Event("test error", t3, ErrorLevel)];
    NothingBelowFatal(q.pending);
  }

  /** Two accepted events are written in the order they were handed over. */
  lemma FirstBeforeSecond(clock: TimeFormatter, level: int, t1: Instant, t2: Instant)
    requires DebugLevel <= level <= InfoLevel
    ensures var q := Info(Info(Configured(level), "first", t1), "second", t2);
      Drain(q, clock).out == [
        Line("my-logger", clock(t1, DefaultTimeLoyaut), "INFO", "first"),
        Line("my-logger", clock(t2, DefaultTimeLoyaut), "INFO", "second")]
  {
    var q := Info(Info(Configured(level), "first", t1), "second", t2);
    DrainWritesAccepted(q, clock);
    assert q.pending == [Event("first", t1, InfoLevel), Event("second", t2, InfoLevel)];
    assert Accepted(q.pending, level) == q.pending;
  }

  /** At Debug, a Debug call is written, and its line carries the service
      name and the message. */
  lemma DebugWritten(clock: TimeFormatter, t: Instant)
    ensures var q := Debug(Configured(DebugLevel), "test debug", t);
      && Drain(q, clock).out == [Line("my-logger", clock(t, DefaultTimeLoyaut), "DEBUG", "test debug")]
      && Contains(Drain(q, clock).out[0], "my-logger")
      && Contains(Drain(q, clock).out[0], "test debug")
  {
    var q := Debug(Configured(DebugLevel), "test debug", t);
    DrainWritesAccepted(q, clock);
    assert q.pending == [Event("test debug", t, DebugLevel)];
    LineContainsNameAndMessage("my-logger", clock(t, DefaultTimeLoyaut), "DEBUG", "test debug");
  }

  /** At Debug, a Debugf call is written with the interpolated message, and
      its line carries the service name and that message. */
  lemma DebugfWritten(clock: TimeFormatter, sprintf: Interpolator, t: Instant)
    ensures var q := Debugf(Configured(DebugLevel), sprintf, "format %s", ["debugf"], t);
      && Drain(q, clock).out == [Line("my-logger", clock(t, DefaultTimeLoyaut), "DEBUG", sprintf("format %s", ["debugf"]))]
      && Contains(Drain(q, clock).out[0], "my-logger")
      && Contains(Drain(q, clock).out[0], sprintf("format %s", ["debugf"]))
  {
    var q := Debugf(Configured(DebugLevel), sprintf, "format %s", ["debugf"], t);
    DrainWritesAccepted(q, clock);
    assert q.pending == [Event(sprintf("format %s", ["debugf"]), t, DebugLevel)];
    LineContainsNameAndMessage("my-logger", clock(t, DefaultTimeLoyaut), "DEBUG", sprintf("format %s", ["debugf"]));
  }

  /** At Info, Debugf then Infof writes only the Infof line. */
  lemma InfofFiltersDebugf(clock: TimeFormatter, sprintf: Interpolator, t1: Instant, t2: Instant)
    ensures var q := Infof(Debugf(Configured(InfoLevel), sprintf, "format %s", ["debugf"], t1), sprintf, "format %s", ["infof"], t2);
      Drain(q, clock).out == [Line("my-logger", clock(t2, DefaultTimeLoyaut), "INFO", sprintf("format %s", ["infof"]))]
  {
    var q := Infof(Debugf(Configured(InfoLevel), sprintf, "format %s", ["debugf"], t1), sprintf, "format %s", ["infof"], t2);
    DrainWritesAccepted(q, clock);
    assert q.pending == [Event(sprintf("format %s", ["debugf"]), t1, DebugLevel), Event(sprintf("format %s", ["infof"]), t2, InfoLevel)];
    assert Accepted(q.pending, InfoLevel) == [Event(sprintf("format %s", ["infof"]), t2, InfoLevel)];
  }

  /** At Error, Debugf, Infof then Errorf writes only the Errorf line. */
  lemma ErrorfFiltersLower(clock: TimeFormatter, sprintf: Interpolator, t1: Instant, t2: Instant, t3: Instant)
    ensures var q := Errorf(Infof(Debugf(Configured(ErrorLevel), sprintf, "format %s", ["debugf"], t1),
                                  sprintf, "format %s", ["infof"], t2), sprintf, "format %s", ["errorf"], t3);
      Drain(q, clock).out == [Line("my-logger", clock(t3, DefaultTimeLoyaut), "ERROR", sprintf("format %s", ["errorf"]))]
  {
    var q := Errorf(Infof(Debugf(Configured(ErrorLevel), sprintf, "format %s", ["debugf"], t1),
                          sprintf, "format %s", ["infof"], t2), sprintf, "format %s", ["errorf"], t3);
    DrainWritesAccepted(q, clock);
    assert q.pending == [Event(sprintf("format %s", ["debugf"]), t1, DebugLevel),
                         Event(sprintf("format %s", ["infof"]), t2, InfoLevel),
                         Event(sprintf("format %s", ["errorf"]), t3, ErrorLevel)];
    AcceptedStep(q.pending, ErrorLevel);
    AcceptedStep(q.pending[1..], ErrorLevel);
    assert Accepted(q.pending, ErrorLevel) == [Event(sprintf("format %s", ["errorf"]), t3, ErrorLevel)];
  }

  /** At Fatal, Debug, Info and Error leave the buffer empty; after switching
      to another writer `w`, Fatalf appends its interpolated FATAL line there,
      the buffer stays empty, and the process exits with status 1. */
  lemma FatalfOnlyFatal(clock: TimeFormatter, sprintf: Interpolator, w: seq<string>,
                        t1: Instant, t2: Instant, t3: Instant, t4: Instant)
    ensures var q := Error(Info(Debug(Configured(FatalLevel), "test debug", t1), "test info", t2), "test error", t3);
      var r := Fatalf(SetOutput(Drain(q, clock), w), clock, sprintf, "format %s", ["fatalf"], t4);
      && Drain(q, clock).out == []
      && r.out == w + [Line("my-logger", clock(t4, DefaultTimeLoyaut), "FATAL", sprintf("format %s", ["fatalf"]))]
      && r.status == Exited(1)
  {
    QuietAtFatal(clock, t1, t2, t3);
  }
}
