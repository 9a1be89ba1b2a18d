/**
 * The package-level logging functions. Each checks the default logger
 * first and builds no record when it is disabled; `log` turns its variadic
 * arguments into attributes with an overlapping window, pairing argument
 * i with argument i + 1 for i below half the argument count.
 */
module Warp {
  import opened Wrappers
  import opened Slog

  /** The first n attributes `log` builds: Sprint(args[i]) = Sprint(args[i + 1]) for i < n. */
  function PairsUpTo<T>(args: seq<T>, sprint: T -> string, n: nat): (attrs: seq<Attr>)
    requires n <= |args| / 2
    ensures |attrs| == n
    ensures forall i :: 0 <= i < n ==> attrs[i] == Attr(sprint(args[i]), StringValue(sprint(args[i + 1])))
  {
    if n == 0 then []
    else PairsUpTo(args, sprint, n - 1) + [Attr(sprint(args[n - 1]), StringValue(sprint(args[n])))]
  }

  /** All the attributes `log` builds from `args`. */
  function ArgsToAttrs<T>(args: seq<T>, sprint: T -> string): seq<Attr> {
    PairsUpTo(args, sprint, |args| / 2)
  }

  /** ("k1", "v1", "k2") gives the one attribute k1 = v1; the trailing argument is dropped. */
  lemma OddLengthDropsLast()
    ensures ArgsToAttrs(["k1", "v1", "k2"], (s: string) => s) == [Attr("k1", StringValue("v1"))]
  {
    var attrs := ArgsToAttrs(["k1", "v1", "k2"], (s: string) => s);
    assert |attrs| == 1;
  }

  /** ("a", "1", "b", "2") gives a = 1 and 1 = b, not a = 1 and b = 2. */
  lemma WindowOverlaps()
    ensures ArgsToAttrs(["a", "1", "b", "2"], (s: string) => s)
         == [Attr("a", StringValue("1")), Attr("1", StringValue("b"))]
  {
    var attrs := ArgsToAttrs(["a", "1", "b", "2"], (s: string) => s);
    assert |attrs| == 2;
  }

  /**
   * log: when `logger` is enabled for `level`, builds the record stamped
   * `now` at call site `caller` with the attributes of `args` and hands it
   * to the logger's handler, whose error is dropped. Returns the record it
   * dispatched, or None when it returned early.
   */
  method Log<T>(logger: Handler, level: Level, msg: string, args: seq<T>,
                now: Time, caller: PC, sprint: T -> string) returns (dispatched: Option<Record>)
    ensures dispatched.Some? <==> logger.Enabled(level)
    ensures dispatched.Some? ==> dispatched.value == Record(now, level, msg, caller, ArgsToAttrs(args, sprint))
  {
    if !logger.Enabled(level) {
      return None;
    }
    var r := Record(now, level, msg, caller, []);
    var attrs: seq<Attr> := [];
    var i := 0;
    while i < |args| / 2
      invariant 0 <= i <= |args| / 2
      invariant attrs == PairsUpTo(args, sprint, i)
    {
      attrs := attrs + [Attr(sprint(args[i]), StringValue(sprint(args[i + 1])))];
      i := i + 1;
    }
    r := r.(attrs := r.attrs + attrs);
    var _ := logger.Handle(r);
    return Some(r);
  }

  /** logf: like log, with the message Sprintf(format, args...) and no attributes. */
  method Logf<T>(logger: Handler, level: Level, format: string, args: seq<T>,
                 now: Time, caller: PC, sprintf: (string, seq<T>) -> string) returns (dispatched: Option<Record>)
    ensures dispatched.Some? <==> logger.Enabled(level)
    ensures dispatched.Some? ==> dispatched.value == Record(now, level, sprintf(format, args), caller, [])
  {
    if !logger.Enabled(level) {
      return None;
    }
    var r := Record(now, level, sprintf(format, args), caller, []);
    var _ := logger.Handle(r);
    return Some(r);
  }

  method Debug<T>(logger: Handler, msg: string, args: seq<T>, now: Time, caller: PC, sprint: T -> string)
    returns (dispatched: Option<Record>)
    ensures dispatched.Some? <==> logger.Enabled(LevelDebug)
    ensures dispatched.Some? ==> dispatched.value == Record(now, LevelDebug, msg, caller, ArgsToAttrs(args, sprint))
  {
    dispatched := Log(logger, LevelDebug, msg, args, now, caller, sprint);
  }

  method Info<T>(logger: Handler, msg: string, args: seq<T>, now: Time, caller: PC, sprint: T -> string)
    returns (dispatched: Option<Record>)
    ensures dispatched.Some? <==> logger.Enabled(LevelInfo)
    ensures dispatched.Some? ==> dispatched.value == Record(now, LevelInfo, msg, caller, ArgsToAttrs(args, sprint))
  {
    dispatched := Log(logger, LevelInfo, msg, args, now, caller, sprint);
  }

  method Warn<T>(logger: Handler, msg: string, args: seq<T>, now: Time, caller: PC, sprint: T -> string)
    returns (dispatched: Option<Record>)
    ensures dispatched.Some? <==> logger.Enabled(LevelWarn)
    ensures dispatched.Some? ==> dispatched.value == Record(now, LevelWarn, msg, caller, ArgsToAttrs(args, sprint))
  {
    dispatched := Log(logger, LevelWarn, msg, args, now, caller, sprint);
  }

  method Error<T>(logger: Handler, msg: string, args: seq<T>, now: Time, caller: PC, sprint: T -> string)
    returns (dispatched: Option<Record>)
    ensures dispatched.Some? <==> logger.Enabled(LevelError)
    ensures dispatched.Some? ==> dispatched.value == Record(now, LevelError, msg, caller, ArgsToAttrs(args, sprint))
  {
    dispatched := Log(logger, LevelError, msg, args, now, caller, sprint);
  }

  method Debugf<T>(logger: Handler, format: string, args: seq<T>, now: Time, caller: PC,
                   sprintf: (string, seq<T>) -> string) returns (dispatched: Option<Record>)
    ensures dispatched.Some? <==> logger.Enabled(LevelDebug)
    ensures dispatched.Some? ==> dispatched.value == Record(now, LevelDebug, sprintf(format, args), caller, [])
  {
    dispatched := Logf(logger, LevelDebug, format, args, now, caller, sprintf);
  }

  method Infof<T>(logger: Handler, format: string, args: seq<T>, now: Time, caller: PC,
                  sprintf: (string, seq<T>) -> string) returns (dispatched: Option<Record>)
    ensures dispatched.Some? <==> logger.Enabled(LevelInfo)
    ensures dispatched.Some? ==> dispatched.value == Record(now, LevelInfo, sprintf(format, args), caller, [])
  {
    dispatched := Logf(logger, LevelInfo, format, args, now, caller, sprintf);
  }

  method Warnf<T>(logger: Handler, format: string, args: seq<T>, now: Time, caller: PC,
                  sprintf: (string, seq<T>) -> string) returns (dispatched: Option<Record>)
    ensures dispatched.Some? <==> logger.Enabled(LevelWarn)
    ensures dispatched.Some? ==> dispatched.value == Record(now, LevelWarn, sprintf(format, args), caller, [])
  {
    dispatched := Logf(logger, LevelWarn, format, args, now, caller, sprintf);
  }

  method Errorf<T>(logger: Handler, format: string, args: seq<T>, now: Time, caller: PC,
                   sprintf: (string, seq<T>) -> string) returns (dispatched: Option<Record>)
    ensures dispatched.Some? <==> logger.Enabled(LevelError)
    ensures dispatched.Some? ==> dispatched.value == Record(now, LevelError, sprintf(format, args), caller, [])
  {
    dispatched := Logf(logger, LevelError, format, args, now, caller, sprintf);
  }
}
