/** The service driven by a sequence of operations: the calls of the
    LoggerService interface interleaved with receives of the writer loop. */
module Trace {
  import opened Levels
  import opened Layout
  import opened Logger
  import opened Writer

  /** What the service takes from its environment: the clock rendering and
      the format interpolation. */
  datatype Env = Env(clock: TimeFormatter, sprintf: Interpolator)

  /** One call on the service, or one event received by the writer loop. */
  datatype Op =
    | SetTimeLoyautOp(layout: string)
    | SetServiceNameOp(name: string)
    | SetLevelOp(level: int)
    | SetOutputOp(w: seq<string>)
    | DebugOp(message: string, now: Instant)
    | DebugfOp(format: string, values: seq<Arg>, now: Instant)
    | InfoOp(message: string, now: Instant)
    | InfofOp(format: string, values: seq<Arg>, now: Instant)
    | WarningOp(message: string, now: Instant)
    | WarningfOp(format: string, values: seq<Arg>, now: Instant)
    | ErrorOp(message: string, now: Instant)
    | ErrorfOp(format: string, values: seq<Arg>, now: Instant)
    | FatalOp(message: string, now: Instant)
    | FatalfOp(format: string, values: seq<Arg>, now: Instant)
    | DeliverOp

  /** Applies one operation. Once the process has exited nothing happens. */
  function Apply(s: Service, env: Env, op: Op): (r: Service)
    ensures s.status.Exited? ==> r == s
    ensures s.status.Running? ==> (r.status.Exited? <==> op.FatalOp? || op.FatalfOp?)
    ensures r.status.Exited? ==> r.status == s.status || r.status == Exited(FatalExitCode)
    ensures !op.SetOutputOp? ==> s.out <= r.out
    ensures Valid(s) ==> Valid(r)
  {
    if s.status.Exited? then s
    else match op
      case SetTimeLoyautOp(t) => SetTimeLoyaut(s, t)
      case SetServiceNameOp(n) => SetServiceName(s, n)
      case SetLevelOp(l) => SetLevel(s, l)
      case SetOutputOp(w) => SetOutput(s, w)
      case DebugOp(m, now) => Debug(s, m, now)
      case DebugfOp(f, vs, now) => Debugf(s, env.sprintf, f, vs, now)
      case InfoOp(m, now) => Info(s, m, now)
      case InfofOp(f, vs, now) => Infof(s, env.sprintf, f, vs, now)
      case WarningOp(m, now) => Warning(s, m, now)
      case WarningfOp(f, vs, now) => Warningf(s, env.sprintf, f, vs, now)
      case ErrorOp(m, now) => Error(s, m, now)
      case ErrorfOp(f, vs, now) => Errorf(s, env.sprintf, f, vs, now)
      case FatalOp(m, now) => Fatal(s, env.clock, m, now)
      case FatalfOp(f, vs, now) => Fatalf(s, env.clock, env.sprintf, f, vs, now)
      case DeliverOp => WriterStep(s, env.clock)
  }

  /** Applies a sequence of operations in order. A process only ever exits
      with the status Fatal gives it. */
  function ApplyAll(s: Service, env: Env, ops: seq<Op>): (r: Service)
    ensures r.status.Exited? ==> r.status == s.status || r.status == Exited(FatalExitCode)
    ensures s.status.Running? && r.status.Exited? ==>
      exists i :: 0 <= i < |ops| && (ops[i].FatalOp? || ops[i].FatalfOp?)
    decreases |ops|
  {
    if ops == [] then s else ApplyAll(Apply(s, env, ops[0]), env, ops[1..])
  }

  /** Every operation preserves the level invariant, so every state reached
      from a fresh service keeps a known minimum level. */
  lemma {:induction false} ApplyAllPreservesValid(s: Service, env: Env, ops: seq<Op>)
    requires Valid(s)
    ensures Valid(ApplyAll(s, env, ops))
    decreases |ops|
  {
    if ops != [] {
      ApplyAllPreservesValid(Apply(s, env, ops[0]), env, ops[1..]);
    }
  }

  lemma ReachableLevelIsKnown(env: Env, ops: seq<Op>)
    ensures DebugLevel <= ApplyAll(NewLoggerService(), env, ops).level <= FatalLevel
  {
    ApplyAllPreservesValid(NewLoggerService(), env, ops);
  }

  /** After the process has exited no operation changes anything. */
  lemma {:induction false} ExitedIsFinal(s: Service, env: Env, ops: seq<Op>)
    requires s.status.Exited?
    ensures ApplyAll(s, env, ops) == s
    decreases |ops|
  {
    if ops != [] {
      ExitedIsFinal(Apply(s, env, ops[0]), env, ops[1..]);
    }
  }

  /** Fatal writes exactly one FATAL line whatever the minimum level, exits
      with status 1, and no later operation adds output. */
  lemma FatalIsLastOutput(s: Service, env: Env, message: string, now: Instant, ops: seq<Op>)
    requires s.status.Running?
    ensures var r := ApplyAll(s, env, [FatalOp(message, now)] + ops);
      && r.out == s.out + [Line(s.serviceName, env.clock(now, s.timeLoyaut), "FATAL", message)]
      && r.status == Exited(1)
  {
    var t := Apply(s, env, FatalOp(message, now));
    assert ([FatalOp(message, now)] + ops)[1..] == ops;
    ExitedIsFinal(t, env, ops);
  }

  /** As FatalIsLastOutput, for the formatted variant. */
  lemma FatalfIsLastOutput(s: Service, env: Env, format: string, values: seq<Arg>, now: Instant, ops: seq<Op>)
    requires s.status.Running?
    ensures var r := ApplyAll(s, env, [FatalfOp(format, values, now)] + ops);
      && r.out == s.out + [Line(s.serviceName, env.clock(now, s.timeLoyaut), "FATAL", env.sprintf(format, values))]
      && r.status == Exited(1)
  {
    var t := Apply(s, env, FatalfOp(format, values, now));
    assert ([FatalfOp(format, values, now)] + ops)[1..] == ops;
    ExitedIsFinal(t, env, ops);
  }

  /** Without a change of writer, output is only ever appended to. */
  lemma {:induction false} OutputIsAppendOnly(s: Service, env: Env, ops: seq<Op>)
    requires forall i :: 0 <= i < |ops| ==> !ops[i].SetOutputOp?
    ensures s.out <= ApplyAll(s, env, ops).out
    decreases |ops|
  {
    if ops != [] {
      var t := Apply(s, env, ops[0]);
      OutputIsAppendOnly(t, env, ops[1..]);
    }
  }

  /** `n` receives of the writer loop. */
  function Delivers(n: nat): (ops: seq<Op>)
    ensures |ops| == n
    ensures forall i :: 0 <= i < n ==> ops[i] == DeliverOp
  {
    if n == 0 then [] else [DeliverOp] + Delivers(n - 1)
  }

  /** Letting the writer receive once per queued event is the same as
      draining the queue. */
  lemma {:induction false} DeliversDrain(s: Service, env: Env)
    ensures ApplyAll(s, env, Delivers(|s.pending|)) == Drain(s, env.clock)
    decreases |s.pending|
  {
    if s.pending != [] {
      if s.status.Exited? {
        ExitedIsFinal(s, env, Delivers(|s.pending|));
      } else {
        var t := Apply(s, env, DeliverOp);
        assert |t.pending| == |s.pending| - 1;
        assert Delivers(|s.pending|)[1..] == Delivers(|t.pending|);
        DeliversDrain(t, env);
      }
    }
  }
}
