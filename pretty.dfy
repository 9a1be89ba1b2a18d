/**
 * The colourised console handler: one line per record, built from the
 * record alone: a grey timestamp, the level in its colour, the call site
 * for Debug and Error, the message, then the record's attributes.
 */
module Pretty {
  import opened Wrappers
  import opened Slog

  /** The time layout handed to time.Format; its rendering is opaque here. */
  const TimeFormat: string := "[15:04:05.000] "

  const Reset: string := "\U{1B}[0m"
  const ColorTime: string := "\U{1B}[90m"     // light grey
  const ColorError: string := "\U{1B}[91m"    // light red
  const ColorWarn: string := "\U{1B}[93m"     // light yellow
  const ColorDebug: string := "\U{1B}[95m"    // light magenta
  const ColorInfo: string := "\U{1B}[96m"     // light cyan
  const ColorSource: string := "\U{1B}[32m"   // green
  const ColorMessage: string := "\U{1B}[97m"  // white
  const ColorAttrs: string := "\U{1B}[34m"    // blue

  /**
   * The renderers Handle calls out to: time.Time.Format with TimeFormat,
   * slog.Level.String, the "file:line" of a program counter's frame, and
   * the %v rendering of a value.
   */
  datatype Env = Env(formatTime: Time -> string, levelString: Level -> string,
                     location: PC -> string, show: Value -> string)

  /** The escape written after the timestamp: one per standard level, none otherwise. */
  function LevelColor(level: Level): (c: string)
    ensures c == ColorDebug <==> level == LevelDebug
    ensures c == ColorInfo <==> level == LevelInfo
    ensures c == ColorWarn <==> level == LevelWarn
    ensures c == ColorError <==> level == LevelError
    ensures c == "" <==> level != LevelDebug && level != LevelInfo && level != LevelWarn && level != LevelError
  {
    if level == LevelDebug then ColorDebug
    else if level == LevelInfo then ColorInfo
    else if level == LevelWarn then ColorWarn
    else if level == LevelError then ColorError
    else ""
  }

  /** The call site is shown for Debug and for Error records. */
  predicate ShowsSource(level: Level) {
    level == LevelDebug || level == LevelError
  }

  function SourceSegment(level: Level, location: string): string {
    if ShowsSource(level) then ColorSource + "[ " + location + " ] " else ""
  }

  function AttrText(a: Attr, show: Value -> string): string {
    " " + a.key + " = " + show(a.value)
  }

  /** The attributes as " key = value" pieces, in record order. */
  function AttrsText(attrs: seq<Attr>, show: Value -> string): string
    decreases |attrs|
  {
    if |attrs| == 0 then ""
    else AttrsText(attrs[..|attrs| - 1], show) + AttrText(attrs[|attrs| - 1], show)
  }

  /** The attribute block, present exactly when the record has attributes. */
  function AttrsBlock(attrs: seq<Attr>, show: Value -> string): (s: string)
    ensures s == "" <==> |attrs| == 0
  {
    if |attrs| > 0 then ColorAttrs + AttrsText(attrs, show) else ""
  }

  /** What precedes the call site: timestamp, level colour, level text and a space. */
  function Head(time: string, level: Level, levelText: string): string {
    ColorTime + time + LevelColor(level) + levelText + " "
  }

  /** What follows the call site: the message, the attribute block and the reset. */
  function Tail(message: string, attrs: seq<Attr>, show: Value -> string): string {
    ColorMessage + message + AttrsBlock(attrs, show) + Reset
  }

  /** The rendered line, without its trailing newline. */
  function Line(time: string, level: Level, levelText: string, location: string, message: string,
                attrs: seq<Attr>, show: Value -> string): string
  {
    Head(time, level, levelText) + SourceSegment(level, location) + Tail(message, attrs, show)
  }

  /** Rendering a list of attributes is rendering its two halves one after the other. */
  lemma {:induction false} AttrsTextAppend(a: seq<Attr>, b: seq<Attr>, show: Value -> string)
    ensures AttrsText(a + b, show) == AttrsText(a, show) + AttrsText(b, show)
    decreases |b|
  {
    if |b| == 0 {
      assert a + b == a;
    } else {
      var b' := b[..|b| - 1];
      assert (a + b)[..|a + b| - 1] == a + b';
      assert (a + b)[|a + b| - 1] == b[|b| - 1];
      AttrsTextAppend(a, b', show);
    }
  }

  /** Removing a common prefix and suffix from two equal sequences leaves equal middles. */
  lemma Cancel(p: string, x: string, y: string, q: string)
    requires p + x + q == p + y + q
    ensures x == y
  {
    assert |x| == |y|;
    assert x == (p + x + q)[|p|..|p| + |x|];
    assert y == (p + y + q)[|p|..|p| + |y|];
  }

  /**
   * The call site changes the line exactly when the level is Debug or
   * Error: for other levels it is never rendered, and for those two,
   * different call sites give different lines.
   */
  lemma SourceShownIff(time: string, level: Level, levelText: string, loc1: string, loc2: string,
                       message: string, attrs: seq<Attr>, show: Value -> string)
    ensures Line(time, level, levelText, loc1, message, attrs, show) == Line(time, level, levelText, loc2, message, attrs, show)
        <==> loc1 == loc2 || !ShowsSource(level)
  {
    var p := Head(time, level, levelText);
    var q := Tail(message, attrs, show);
    var s1, s2 := SourceSegment(level, loc1), SourceSegment(level, loc2);
    if ShowsSource(level) && p + s1 + q == p + s2 + q {
      Cancel(p, s1, s2, q);
      Cancel(ColorSource + "[ ", loc1, loc2, " ] ");
    }
  }

  /** A bytes.Buffer: the sink of the inner text handler. */
  class Buffer {
    var data: string

    constructor ()
      ensures data == ""
    {
      data := "";
    }
  }

  /** A sync.Mutex, by identity only. */
  class Mutex {
    constructor ()
    {
    }
  }

  /** The level colour switch of Handle. */
  method WriteLevelColor(buf: string, level: Level) returns (out: string)
    ensures out == buf + LevelColor(level)
  {
    out := buf;
    if level == LevelDebug {
      out := out + ColorDebug;
    } else if level == LevelInfo {
      out := out + ColorInfo;
    } else if level == LevelWarn {
      out := out + ColorWarn;
    } else if level == LevelError {
      out := out + ColorError;
    }
  }

  /** The call-site write of Handle; the frame is resolved only when it is shown. */
  method WriteSource(buf: string, level: Level, env: Env, pc: PC) returns (out: string)
    ensures out == buf + SourceSegment(level, env.location(pc))
  {
    out := buf;
    if level == LevelDebug || level == LevelError {
      out := out + ColorSource;
      out := out + ("[ " + env.location(pc) + " ] ");
    }
  }

  /** The attribute callback loop of Handle: the block colour, then each attribute in order. */
  method WriteAttrs(buf: string, attrs: seq<Attr>, show: Value -> string) returns (out: string)
    ensures out == buf + AttrsBlock(attrs, show)
  {
    out := buf;
    if |attrs| > 0 {
      out := out + ColorAttrs;
      ghost var block := out;
      var i := 0;
      while i < |attrs|
        invariant 0 <= i <= |attrs|
        invariant out == block + AttrsText(attrs[..i], show)
      {
        out := out + (" " + attrs[i].key + " = " + show(attrs[i].value));
        assert attrs[..i + 1][..i] == attrs[..i];
        i := i + 1;
      }
      assert attrs[..i] == attrs;
    }
  }

  class PrettyHandler {
    /** The inner text handler: it decides Enabled and absorbs WithAttrs/WithGroup. */
    const h: Handler
    const b: Buffer
    const m: Mutex

    /** The inner handler admits Debug and above. */
    predicate Valid() {
      h.threshold == LevelDebug
    }

    constructor (h: Handler, b: Buffer, m: Mutex)
      ensures this.h == h && this.b == b && this.m == m
    {
      this.h := h;
      this.b := b;
      this.m := m;
    }

    function Enabled(level: Level): (e: bool)
      requires Valid()
      ensures e <==> level >= LevelDebug
    {
      h.Enabled(level)
    }

    /** A new handler whose inner handler carries `attrs`, sharing buffer and mutex. */
    method WithAttrs(attrs: seq<Attr>) returns (p: PrettyHandler)
      requires Valid()
      ensures fresh(p) && p.Valid()
      ensures p.h == h.WithAttrs(attrs) && p.b == b && p.m == m
    {
      p := new PrettyHandler(h.WithAttrs(attrs), b, m);
    }

    /** A new handler whose inner handler is scoped under `name`, sharing buffer and mutex. */
    method WithGroup(name: string) returns (p: PrettyHandler)
      requires Valid()
      ensures fresh(p) && p.Valid()
      ensures p.h == h.WithGroup(name) && p.b == b && p.m == m
    {
      p := new PrettyHandler(h.WithGroup(name), b, m);
    }

    /**
     * Renders `r` and returns the text written to standard error (the
     * line and its newline) and the error, which is always nil. Nothing
     * of the handler's own state enters the line.
     */
    method Handle(r: Record, env: Env) returns (written: string, err: Option<Error>)
      ensures written == Line(env.formatTime(r.time), r.level, env.levelString(r.level), env.location(r.pc),
                              r.message, r.attrs, env.show) + "\n"
      ensures err == None
    {
      var buf := ColorTime;
      buf := buf + env.formatTime(r.time);
      buf := WriteLevelColor(buf, r.level);
      buf := buf + env.levelString(r.level);
      buf := buf + " ";
      ghost var head := buf;
      buf := WriteSource(buf, r.level, env, r.pc);
      ghost var source := buf;
      buf := buf + ColorMessage;
      buf := buf + r.message;
      buf := WriteAttrs(buf, r.attrs, env.show);
      buf := buf + Reset;
      assert buf == source + Tail(r.message, r.attrs, env.show);
      written := buf + "\n";
      err := None;
    }
  }

  /** NewPrettyHandler ignores `opts`: the inner text handler always admits Debug and above. */
  method NewPrettyHandler(opts: HandlerOptions?) returns (p: PrettyHandler)
    ensures fresh(p) && fresh(p.b) && fresh(p.m) && p.Valid()
    ensures p.h == Handler(LevelDebug, None, []) && p.b.data == ""
  {
    var o := opts;
    if o == null {
      o := new HandlerOptions(false, None, None);
    }
    var b := new Buffer();
    var m := new Mutex();
    p := new PrettyHandler(Handler(LevelDebug, None, []), b, m);
  }
}
