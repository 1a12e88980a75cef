/** The logging service with its goroutine and channel taken apart: the
    configuration record, the queue of events handed to the writer, the
    lines already written to the current output, and whether the process
    has exited. */
module Logger {
  import opened Levels
  import opened Layout

  /** A clock reading; its rendering is left to a TimeFormatter. */
  type Instant = int
  /** One argument of a formatted call, as the interpolator receives it. */
  type Arg = string
  /** Renders an instant with a time layout (Go's Time.Format). */
  type TimeFormatter = (Instant, string) -> string
  /** Interpolates arguments into a format string (Go's fmt.Sprintf). */
  type Interpolator = (string, seq<Arg>) -> string

  /** Go's time.RFC1123 layout. */
  const DefaultTimeLoyaut: string := "Mon, 02 Jan 2006 15:04:05 MST"
  const DefaultServiceName: string := "logger"
  /** The status Fatal and Fatalf exit the process with. */
  const FatalExitCode: int := 1

  datatype Event = Event(message: string, time: Instant, level: int)

  datatype Status = Running | Exited(code: int)

  /** `out` holds the lines written to the current writer; `pending` holds the
      events accepted from callers that the writer has not yet handled. */
  datatype Service = Service(
    timeLoyaut: string,
    serviceName: string,
    level: int,
    out: seq<string>,
    pending: seq<Event>,
    status: Status)

  /** The parts of a Service an operation may change. */
  datatype Field = TimeLoyautField | ServiceNameField | LevelField | OutField | PendingField | StatusField

  /** Every part of the service outside `changed` is the same in `a` and `b`. */
  predicate Unchanged(a: Service, b: Service, changed: set<Field>) {
    && (TimeLoyautField !in changed ==> a.timeLoyaut == b.timeLoyaut)
    && (ServiceNameField !in changed ==> a.serviceName == b.serviceName)
    && (LevelField !in changed ==> a.level == b.level)
    && (OutField !in changed ==> a.out == b.out)
    && (PendingField !in changed ==> a.pending == b.pending)
    && (StatusField !in changed ==> a.status == b.status)
  }

  /** The level invariant: the minimum level and the level of every queued
      event are among the five known levels. */
  predicate Valid(s: Service) {
    && IsLevel(s.level)
    && forall i :: 0 <= i < |s.pending| ==> IsLevel(s.pending[i].level)
  }

  /** A fresh service: default name and layout, nothing written, nothing
      queued. The level is left at its zero value, Debug, not DefaultLevel. */
  function NewLoggerService(): (s: Service)
    ensures Valid(s) && s.status == Running
    ensures s.serviceName == "logger" && s.timeLoyaut == DefaultTimeLoyaut
    ensures s.level == DebugLevel && s.level != DefaultLevel
    ensures s.out == [] && s.pending == []
  {
    Service(DefaultTimeLoyaut, DefaultServiceName, 0, [], [], Running)
  }

  function SetTimeLoyaut(s: Service, t: string): (r: Service)
    ensures r.timeLoyaut == t
    ensures Unchanged(s, r, {TimeLoyautField})
    ensures Valid(s) ==> Valid(r)
  {
    s.(timeLoyaut := t)
  }

  function SetServiceName(s: Service, name: string): (r: Service)
    ensures r.serviceName == name
    ensures Unchanged(s, r, {ServiceNameField})
    ensures Valid(s) ==> Valid(r)
  {
    s.(serviceName := name)
  }

  /** Switches to another writer; `w` is what that writer already holds.
      Lines written to the previous writer stay there. */
  function SetOutput(s: Service, w: seq<string>): (r: Service)
    ensures r.out == w
    ensures Unchanged(s, r, {OutField})
    ensures Valid(s) ==> Valid(r)
  {
    s.(out := w)
  }

  /** Stores a known level unchanged and coerces any other integer to
      ErrorLevel, so the stored level is always known. */
  function SetLevel(s: Service, level: int): (r: Service)
    ensures IsLevel(r.level)
    ensures DebugLevel <= level <= FatalLevel ==> r.level == level
    ensures !(DebugLevel <= level <= FatalLevel) ==> r.level == ErrorLevel
    ensures Unchanged(s, r, {LevelField})
    ensures Valid(s) ==> Valid(r)
  {
    s.(level := Validated(level))
  }

  /** `r` is `s` with exactly the event `e` handed to the writer's queue,
      behind every event already accepted. */
  predicate Queued(s: Service, r: Service, e: Event) {
    r.pending == s.pending + [e] && Unchanged(s, r, {PendingField})
  }

  /** The unbuffered hand-off of one event to the writer. */
  function Submit(s: Service, e: Event): (r: Service)
    ensures Queued(s, r, e)
    ensures Valid(s) && IsLevel(e.level) ==> Valid(r)
  {
    s.(pending := s.pending + [e])
  }

  function Debug(s: Service, message: string, now: Instant): (r: Service)
    ensures Queued(s, r, Event(message, now, DebugLevel))
    ensures Valid(s) ==> Valid(r)
  {
    Submit(s, Event(message, now, DebugLevel))
  }

  function Debugf(s: Service, sprintf: Interpolator, format: string, values: seq<Arg>, now: Instant): (r: Service)
    ensures Queued(s, r, Event(sprintf(format, values), now, DebugLevel))
    ensures Valid(s) ==> Valid(r)
  {
    Submit(s, Event(sprintf(format, values), now, DebugLevel))
  }

  function Info(s: Service, message: string, now: Instant): (r: Service)
    ensures Queued(s, r, Event(message, now, InfoLevel))
    ensures Valid(s) ==> Valid(r)
  {
    Submit(s, Event(message, now, InfoLevel))
  }

  function Infof(s: Service, sprintf: Interpolator, format: string, values: seq<Arg>, now: Instant): (r: Service)
    ensures Queued(s, r, Event(sprintf(format, values), now, InfoLevel))
    ensures Valid(s) ==> Valid(r)
  {
    Submit(s, Event(sprintf(format, values), now, InfoLevel))
  }

  function Warning(s: Service, message: string, now: Instant): (r: Service)
    ensures Queued(s, r, Event(message, now, WarningLevel))
    ensures Valid(s) ==> Valid(r)
  {
    Submit(s, Event(message, now, WarningLevel))
  }

  function Warningf(s: Service, sprintf: Interpolator, format: string, values: seq<Arg>, now: Instant): (r: Service)
    ensures Queued(s, r, Event(sprintf(format, values), now, WarningLevel))
    ensures Valid(s) ==> Valid(r)
  {
    Submit(s, Event(sprintf(format, values), now, WarningLevel))
  }

  function Error(s: Service, message: string, now: Instant): (r: Service)
    ensures Queued(s, r, Event(message, now, ErrorLevel))
    ensures Valid(s) ==> Valid(r)
  {
    Submit(s, Event(message, now, ErrorLevel))
  }

  function Errorf(s: Service, sprintf: Interpolator, format: string, values: seq<Arg>, now: Instant): (r: Service)
    ensures Queued(s, r, Event(sprintf(format, values), now, ErrorLevel))
    ensures Valid(s) ==> Valid(r)
  {
    Submit(s, Event(sprintf(format, values), now, ErrorLevel))
  }

  /** The line the service writes for `e` under its current configuration. */
  function Render(s: Service, clock: TimeFormatter, e: Event): (line: string)
    ensures |line| > |s.serviceName| + |e.message| + |Label(e.level)|
    ensures s.serviceName <= line
    ensures line[|line| - 1] == '\n'
  {
    Line(s.serviceName, clock(e.time, s.timeLoyaut), Label(e.level), e.message)
  }

  /** Writes one event's line to the current output, whatever its level. */
  function Print(s: Service, clock: TimeFormatter, e: Event): (r: Service)
    ensures r.out == s.out + [Render(s, clock, e)]
    ensures Contains(r.out[|s.out|], s.serviceName) && Contains(r.out[|s.out|], e.message)
    ensures Unchanged(s, r, {OutField})
  {
    LineContainsNameAndMessage(s.serviceName, clock(e.time, s.timeLoyaut), Label(e.level), e.message);
    s.(out := s.out + [Render(s, clock, e)])
  }

  /** One iteration of the writer loop: take the oldest accepted event, drop
      it when its level is below the minimum, otherwise write its line. The
      writer waits while nothing is queued and is gone once the process
      has exited. */
  function WriterStep(s: Service, clock: TimeFormatter): (r: Service)
    ensures s.pending == [] || s.status.Exited? ==> r == s
    ensures s.pending != [] && s.status.Running? ==>
      && r.pending == s.pending[1..]
      && (|r.out| == |s.out| + 1 <==> s.pending[0].level >= s.level)
      && (s.pending[0].level >= s.level ==> r.out == s.out + [Render(s, clock, s.pending[0])])
      && (s.pending[0].level < s.level ==> r.out == s.out)
    ensures Unchanged(s, r, {OutField, PendingField})
    ensures Valid(s) ==> Valid(r)
  {
    if s.pending == [] || s.status.Exited? then s
    else
      var e := s.pending[0];
      var next := s.(pending := s.pending[1..]);
      if e.level < s.level then next else Print(next, clock, e)
  }

  /** Writes the line synchronously, bypassing the minimum level and the
      queue, then terminates the process with status 1. */
  function Fatal(s: Service, clock: TimeFormatter, message: string, now: Instant): (r: Service)
    ensures r.out == s.out + [Line(s.serviceName, clock(now, s.timeLoyaut), "FATAL", message)]
    ensures r.status == Exited(FatalExitCode)
    ensures Unchanged(s, r, {OutField, StatusField})
    ensures Valid(s) ==> Valid(r)
  {
    Print(s, clock, Event(message, now, FatalLevel)).(status := Exited(FatalExitCode))
  }

  function Fatalf(s: Service, clock: TimeFormatter, sprintf: Interpolator, format: string, values: seq<Arg>, now: Instant): (r: Service)
    ensures r.out == s.out + [Line(s.serviceName, clock(now, s.timeLoyaut), "FATAL", sprintf(format, values))]
    ensures r.status == Exited(FatalExitCode)
    ensures Unchanged(s, r, {OutField, StatusField})
    ensures Valid(s) ==> Valid(r)
  {
    Fatal(s, clock, sprintf(format, values), now)
  }
}
