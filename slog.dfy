/**
 * The parts of Go's log/slog and io packages the logging core relies on,
 * reduced to what the core observes of them. Handlers from outside the
 * core (slog's text and JSON handlers, or any user handler) are values
 * that carry an enabling threshold, the error their Handle returns, and
 * the scoping they have accumulated.
 */
module Slog {
  import opened Wrappers

  /** slog.Level: a signed ordinal; larger is more severe. */
  type Level = int

  const LevelDebug: Level := -4
  const LevelInfo: Level := 0
  const LevelWarn: Level := 4
  const LevelError: Level := 8

  /** slog.LevelKey, the key of the built-in level attribute. */
  const LevelKey: string := "level"

  /** An instant (time.Time); only its formatting is ever observed. */
  type Time = nat

  /** A program counter captured at a call site (runtime.Callers). */
  type PC = nat

  /** slog.Value, restricted to the two kinds the core handles. */
  datatype Value = StringValue(s: string) | LevelValue(l: Level)

  /** slog.Attr */
  datatype Attr = Attr(key: string, value: Value)

  /** slog.Record: time, level, message, call site and attributes in order. */
  datatype Record = Record(time: Time, level: Level, message: string, pc: PC, attrs: seq<Attr>)

  /** A write failure reported by a handler. */
  datatype Error = WriteError(reason: string)

  /** One scoping step accumulated by WithAttrs or WithGroup. */
  datatype Scope = AttrsScope(attrs: seq<Attr>) | GroupScope(name: string)

  /**
   * An opaque slog.Handler: enabled from `threshold` up, its Handle
   * returns `failure` (None is a nil error), and `scopes` lists the
   * WithAttrs/WithGroup steps that derived it, oldest first.
   */
  datatype Handler = Handler(threshold: Level, failure: Option<Error>, scopes: seq<Scope>) {

    predicate Enabled(level: Level) {
      level >= threshold
    }

    function WithAttrs(attrs: seq<Attr>): Handler {
      this.(scopes := scopes + [AttrsScope(attrs)])
    }

    function WithGroup(name: string): Handler {
      this.(scopes := scopes + [GroupScope(name)])
    }

    function Handle(r: Record): Option<Error> {
      failure
    }
  }

  /** An io.Writer, by identity only. */
  datatype Writer = Stdout | Stderr | UserWriter(id: nat)

  /** slog.LevelVar, treated as a plain shared cell. */
  class LevelVar {
    var level: Level

    /** The zero LevelVar holds Info. */
    constructor ()
      ensures level == LevelInfo
    {
      level := LevelInfo;
    }

    method Set(l: Level)
      modifies this
      ensures level == l
    {
      level := l;
    }
  }

  /** slog.Leveler: a fixed Level, or a (possibly nil) *LevelVar. */
  datatype Leveler = ConstLevel(l: Level) | VarLevel(v: LevelVar?)

  /** Leveler.Level(); calling it on a nil *LevelVar panics. */
  function LevelOf(lv: Leveler): (r: Result<Level>)
    reads if lv.VarLevel? && lv.v != null then {lv.v} else {}
    ensures r.Panic? <==> lv.VarLevel? && lv.v == null
    ensures lv.ConstLevel? ==> r == Ok(lv.l)
    ensures lv.VarLevel? && lv.v != null ==> r == Ok(lv.v.level)
  {
    match lv
    case ConstLevel(l) => Ok(l)
    case VarLevel(v) => if v == null then Panic("nil *LevelVar") else Ok(v.level)
  }

  /** HandlerOptions.ReplaceAttr; a hook may panic. */
  type ReplaceFunc = (seq<string>, Attr) -> Result<Attr>

  /** slog.HandlerOptions (a pointer-shared record, updated in place by its users). */
  class HandlerOptions {
    var addSource: bool
    var level: Option<Leveler>
    var replaceAttr: Option<ReplaceFunc>

    constructor (addSource: bool, level: Option<Leveler>, replaceAttr: Option<ReplaceFunc>)
      ensures this.addSource == addSource && this.level == level && this.replaceAttr == replaceAttr
    {
      this.addSource := addSource;
      this.level := level;
      this.replaceAttr := replaceAttr;
    }
  }
}
