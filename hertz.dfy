/**
 * The adapter from the hertz framework's hlog.Level to slog levels: the
 * level mapping, the configuration NewHLog resolves from its options, the
 * ReplaceAttr hook that rewrites level labels, and the level each HLog
 * method logs at.
 */
module Hertz {
  import opened Wrappers
  import opened Slog

  // hlog.Level, numbered in declaration order (iota) by the hlog package.
  const HTrace: int := 0
  const HDebug: int := 1
  const HInfo: int := 2
  const HNotice: int := 3
  const HWarn: int := 4
  const HError: int := 5
  const HFatal: int := 6

  // The custom slog levels.
  const LevelTrace: Level := -8
  const LevelNotice: Level := 2
  const LevelFatal: Level := 12

  /** The slog level of each hlog level, indexed by the hlog level. */
  const SLevels: seq<Level> := [LevelTrace, LevelDebug, LevelInfo, LevelNotice, LevelWarn, LevelError, LevelFatal]

  /** The label of each of those slog levels, in the same order. */
  const LevelNames: seq<string> := ["Trace", "Debug", "Info", "Notice", "Warn", "Error", "Fatal"]

  predicate KnownHLevel(level: int) {
    HTrace <= level <= HFatal
  }

  /** hLevelToSLevel: total; every level outside the seven falls back to Warn. */
  function HLevelToSLevel(level: int): (lvl: Level)
    ensures KnownHLevel(level) ==> lvl == SLevels[level]
    ensures !KnownHLevel(level) ==> lvl == LevelWarn
  {
    if level == HTrace then LevelTrace
    else if level == HDebug then LevelDebug
    else if level == HInfo then LevelInfo
    else if level == HWarn then LevelWarn
    else if level == HNotice then LevelNotice
    else if level == HError then LevelError
    else if level == HFatal then LevelFatal
    else LevelWarn
  }

  /** The mapping keeps the order of the seven hlog levels, strictly. */
  lemma HLevelOrderPreserved(a: int, b: int)
    requires KnownHLevel(a) && KnownHLevel(b) && a < b
    ensures HLevelToSLevel(a) < HLevelToSLevel(b)
  {
  }

  /** The label the ReplaceAttr hook gives a level value; anything unknown reads "Warn". */
  function LevelLabel(level: Level): (name: string)
    ensures name in LevelNames
    ensures forall i :: 0 <= i < |SLevels| && level == SLevels[i] ==> name == LevelNames[i]
    ensures level !in SLevels ==> name == "Warn"
  {
    if level == LevelTrace then "Trace"
    else if level == LevelDebug then "Debug"
    else if level == LevelInfo then "Info"
    else if level == LevelNotice then "Notice"
    else if level == LevelWarn then "Warn"
    else if level == LevelError then "Error"
    else if level == LevelFatal then "Fatal"
    else "Warn"
  }

  /** An hlog level, mapped and then labelled, reads as its own name (unknown ones as "Warn"). */
  lemma {:induction false} LabelOfMappedLevel(h: int)
    ensures LevelLabel(HLevelToSLevel(h)) == if KnownHLevel(h) then LevelNames[h] else "Warn"
  {
    if KnownHLevel(h) {
      assert h in {0, 1, 2, 3, 4, 5, 6};
    }
  }

  /** The hook after the level rewrite: the user's ReplaceAttr if one was set, else the attribute as is. */
  function Chain(user: Wrappers.Option<ReplaceFunc>, groups: seq<string>, a: Attr): Result<Attr> {
    if user.Some? then user.value(groups, a) else Ok(a)
  }

  /**
   * The replaceAttr closure of NewHLog over the user's hook `user`. A
   * "level" attribute must hold a Level (the type assertion panics
   * otherwise) and gets its label; every attribute then goes through the
   * user's hook.
   */
  function ReplaceAttr(user: Wrappers.Option<ReplaceFunc>, groups: seq<string>, a: Attr): (r: Result<Attr>)
    ensures a.key != LevelKey ==> r == Chain(user, groups, a)
    ensures a.key == LevelKey && !a.value.LevelValue? ==> r.Panic?
    ensures a.key == LevelKey && a.value.LevelValue? ==>
      r == Chain(user, groups, Attr(LevelKey, StringValue(LevelLabel(a.value.l))))
  {
    if a.key == LevelKey then
      match a.value
      case LevelValue(l) => Chain(user, groups, a.(value := StringValue(LevelLabel(l))))
      case StringValue(_) => Panic("interface conversion: slog.Value is not a slog.Level")
    else Chain(user, groups, a)
  }

  /** Without a user hook, only "level" attributes change, and a level becomes its label. */
  lemma ReplaceAttrWithoutHook(groups: seq<string>, a: Attr)
    ensures a.key != LevelKey ==> ReplaceAttr(None, groups, a) == Ok(a)
    ensures a.key == LevelKey && a.value.LevelValue? ==>
      ReplaceAttr(None, groups, a) == Ok(Attr(LevelKey, StringValue(LevelLabel(a.value.l))))
  {
  }

  /**
   * Handing the same HandlerOptions to NewHLog twice chains the closure
   * onto itself; the inner copy then meets a label instead of a Level
   * and every level attribute panics.
   */
  lemma ReplaceAttrTwicePanics(user: Wrappers.Option<ReplaceFunc>, groups: seq<string>, l: Level)
    ensures ReplaceAttr(Some((g: seq<string>, a: Attr) => ReplaceAttr(user, g, a)), groups, Attr(LevelKey, LevelValue(l))).Panic?
  {
    var inner := (g: seq<string>, a: Attr) => ReplaceAttr(user, g, a);
    var labelled := Attr(LevelKey, StringValue(LevelLabel(l)));
    assert ReplaceAttr(Some(inner), groups, Attr(LevelKey, LevelValue(l))) == inner(groups, labelled);
  }

  /** The fields of the hertz config record, as a value. */
  datatype Settings = Settings(level: LevelVar?, withLevel: bool, handlerOptions: HandlerOptions?,
                               withHandlerOptions: bool, output: Writer)

  /** The record as the options see it before any option: no flags set, output stdout. */
  const Blank: Settings := Settings(null, false, null, false, Stdout)

  /** The hertz config record, updated in place by the options. */
  class Config {
    var level: LevelVar?
    var withLevel: bool
    var handlerOptions: HandlerOptions?
    var withHandlerOptions: bool
    var output: Writer

    constructor (s: Settings)
      ensures Snapshot() == s
    {
      level := s.level;
      withLevel := s.withLevel;
      handlerOptions := s.handlerOptions;
      withHandlerOptions := s.withHandlerOptions;
      output := s.output;
    }

    function Snapshot(): Settings
      reads this
    {
      Settings(level, withLevel, handlerOptions, withHandlerOptions, output)
    }
  }

  /** The three option closures WithLevel, WithHandlerOptions and WithOutput build. */
  datatype Option = LevelOption(lvl: LevelVar?) | HandlerOptionsOption(opts: HandlerOptions?) | OutputOption(writer: Writer) {

    /** What the closure does to the record, as a value. */
    function Step(s: Settings): Settings {
      match this
      case LevelOption(lvl) => s.(level := lvl, withLevel := true)
      case HandlerOptionsOption(opts) => s.(handlerOptions := opts, withHandlerOptions := true)
      case OutputOption(writer) => s.(output := writer)
    }

    /** option.apply: runs the closure on the record in place. */
    method Apply(cfg: Config)
      modifies cfg
      ensures cfg.Snapshot() == Step(old(cfg.Snapshot()))
    {
      match this
      case LevelOption(lvl) =>
        cfg.level := lvl;
        cfg.withLevel := true;
      case HandlerOptionsOption(opts) =>
        cfg.handlerOptions := opts;
        cfg.withHandlerOptions := true;
      case OutputOption(writer) =>
        cfg.output := writer;
    }
  }

  function WithLevel(lvl: LevelVar?): Option {
    LevelOption(lvl)
  }

  function WithHandlerOptions(opts: HandlerOptions?): Option {
    HandlerOptionsOption(opts)
  }

  function WithOutput(writer: Writer): Option {
    OutputOption(writer)
  }

  /** The options applied to `s` in argument order. */
  function ApplyAll(s: Settings, opts: seq<Option>): Settings
    decreases |opts|
  {
    if |opts| == 0 then s else opts[|opts| - 1].Step(ApplyAll(s, opts[..|opts| - 1]))
  }

  /** Applying a + b is applying a, then b. */
  lemma {:induction false} ApplyAllAppend(s: Settings, a: seq<Option>, b: seq<Option>)
    ensures ApplyAll(s, a + b) == ApplyAll(ApplyAll(s, a), b)
    decreases |b|
  {
    if |b| == 0 {
      assert a + b == a;
    } else {
      assert (a + b)[..|a + b| - 1] == a + b[..|b| - 1];
      ApplyAllAppend(s, a, b[..|b| - 1]);
    }
  }

  /** A field no option names keeps the value it had. */
  lemma {:induction false} UntouchedFields(s: Settings, opts: seq<Option>)
    ensures (forall j :: 0 <= j < |opts| ==> !opts[j].LevelOption?) ==>
      ApplyAll(s, opts).level == s.level && ApplyAll(s, opts).withLevel == s.withLevel
    ensures (forall j :: 0 <= j < |opts| ==> !opts[j].HandlerOptionsOption?) ==>
      ApplyAll(s, opts).handlerOptions == s.handlerOptions && ApplyAll(s, opts).withHandlerOptions == s.withHandlerOptions
    ensures (forall j :: 0 <= j < |opts| ==> !opts[j].OutputOption?) ==> ApplyAll(s, opts).output == s.output
    decreases |opts|
  {
    if |opts| > 0 {
      var prefix := opts[..|opts| - 1];
      assert forall j :: 0 <= j < |prefix| ==> prefix[j] == opts[j];
      UntouchedFields(s, prefix);
    }
  }

  /** The last option naming a field decides it: a later option overrides an earlier one. */
  lemma {:induction false} LastOptionWins(s: Settings, opts: seq<Option>, k: nat)
    requires k < |opts|
    ensures opts[k].LevelOption? && (forall j :: k < j < |opts| ==> !opts[j].LevelOption?) ==>
      ApplyAll(s, opts).level == opts[k].lvl && ApplyAll(s, opts).withLevel
    ensures opts[k].HandlerOptionsOption? && (forall j :: k < j < |opts| ==> !opts[j].HandlerOptionsOption?) ==>
      ApplyAll(s, opts).handlerOptions == opts[k].opts && ApplyAll(s, opts).withHandlerOptions
    ensures opts[k].OutputOption? && (forall j :: k < j < |opts| ==> !opts[j].OutputOption?) ==>
      ApplyAll(s, opts).output == opts[k].writer
  {
    var head, rest := opts[..k + 1], opts[k + 1..];
    assert opts == head + rest;
    assert head[..k] == opts[..k];
    ApplyAllAppend(s, head, rest);
    assert forall j :: 0 <= j < |rest| ==> rest[j] == opts[k + 1 + j];
    UntouchedFields(ApplyAll(s, head), rest);
  }

  /**
   * Starting with both flags clear and stdout, the flags say whether some
   * option set the field, and a field no option set keeps its start value.
   */
  lemma {:induction false} FlagsRecordOptions(d: Settings, opts: seq<Option>)
    requires !d.withLevel && !d.withHandlerOptions && d.output == Stdout
    ensures var a, b := ApplyAll(d, opts), ApplyAll(Blank, opts);
      && a.withLevel == b.withLevel && a.withHandlerOptions == b.withHandlerOptions && a.output == b.output
      && a.level == (if b.withLevel then b.level else d.level)
      && a.handlerOptions == (if b.withHandlerOptions then b.handlerOptions else d.handlerOptions)
      && (b.withHandlerOptions && b.handlerOptions != null ==> b.handlerOptions in OptionTargets(opts))
    ensures ApplyAll(Blank, opts).withLevel <==> exists j :: 0 <= j < |opts| && opts[j].LevelOption?
    ensures ApplyAll(Blank, opts).withHandlerOptions <==> exists j :: 0 <= j < |opts| && opts[j].HandlerOptionsOption?
    decreases |opts|
  {
    if |opts| > 0 {
      var prefix := opts[..|opts| - 1];
      FlagsRecordOptions(d, prefix);
      assert forall j :: 0 <= j < |prefix| ==> prefix[j] == opts[j];
      assert OptionTargets(prefix) <= OptionTargets(opts);
    }
  }

  /** defaultConfig: an Info level cell shared with fresh handler options, no flags, stdout. */
  method DefaultConfig() returns (c: Config)
    ensures fresh(c) && c.level != null && fresh(c.level) && c.handlerOptions != null && fresh(c.handlerOptions)
    ensures c.level.level == HLevelToSLevel(HInfo)
    ensures !c.withLevel && !c.withHandlerOptions && c.output == Stdout
    ensures c.handlerOptions.level == Some(VarLevel(c.level))
    ensures c.handlerOptions.replaceAttr == None && !c.handlerOptions.addSource
  {
    var lvl := new LevelVar();
    lvl.Set(HLevelToSLevel(HInfo));
    var handlerOptions := new HandlerOptions(false, Some(VarLevel(lvl)), None);
    c := new Config(Settings(lvl, false, handlerOptions, false, Stdout));
  }

  /** The handler options objects the options point at. */
  function OptionTargets(opts: seq<Option>): set<HandlerOptions> {
    set i | 0 <= i < |opts| && opts[i].HandlerOptionsOption? && opts[i].opts != null :: opts[i].opts
  }

  /**
   * The one object NewHLog updates in place: the caller's handler options,
   * when the last WithHandlerOptions passed a non-nil one.
   */
  function HookTarget(opts: seq<Option>): set<HandlerOptions> {
    var s := ApplyAll(Blank, opts);
    if s.withHandlerOptions && s.handlerOptions != null then {s.handlerOptions} else {}
  }

  /**
   * The level NewHLog copies into a fresh cell: present when no WithLevel
   * was given but a WithHandlerOptions with a level was; reading a nil
   * *LevelVar panics.
   */
  function CopiedLevel(s: Settings): Wrappers.Option<Result<Level>>
    reads if s.handlerOptions != null then {s.handlerOptions} else {}
    reads if s.handlerOptions != null && s.handlerOptions.level.Some? && s.handlerOptions.level.value.VarLevel?
             && s.handlerOptions.level.value.v != null then {s.handlerOptions.level.value.v} else {}
  {
    if !s.withLevel && s.withHandlerOptions && s.handlerOptions != null && s.handlerOptions.level.Some?
    then Some(LevelOf(s.handlerOptions.level.value))
    else None
  }

  /** The user's ReplaceAttr the closure chains to. */
  function PriorHook(s: Settings): Wrappers.Option<ReplaceFunc>
    reads if s.handlerOptions != null then {s.handlerOptions} else {}
  {
    if s.withHandlerOptions && s.handlerOptions != null then s.handlerOptions.replaceAttr else None
  }

  /** The slog logger an HLog writes through. */
  datatype Logger = Grouped(handler: Handler) | JSONLogger(output: Writer, opts: HandlerOptions?)

  class HLog {
    var logger: Logger
    const cfg: Config

    constructor (logger: Logger, cfg: Config)
      ensures this.logger == logger && this.cfg == cfg
    {
      this.logger := logger;
      this.cfg := cfg;
    }

    /** SetLevel writes the mapped level into the shared cell; a nil cell panics. */
    method SetLevel(level: int) returns (r: Result<()>)
      modifies cfg.level
      ensures r.Panic? <==> cfg.level == null
      ensures cfg.level != null ==> cfg.level.level == HLevelToSLevel(level)
    {
      if cfg.level == null {
        return Panic("nil *LevelVar");
      }
      var lvl := HLevelToSLevel(level);
      cfg.level.Set(lvl);
      return Ok(());
    }

    /** SetOutput records the writer and switches to a JSON logger over it and the handler options. */
    method SetOutput(writer: Writer)
      modifies this, cfg
      ensures cfg.Snapshot() == old(cfg.Snapshot()).(output := writer)
      ensures logger == JSONLogger(writer, cfg.handlerOptions)
    {
      cfg.output := writer;
      logger := JSONLogger(writer, cfg.handlerOptions);
    }
  }

  /**
   * NewHLog: applies the options in order to the default record, resolves
   * the level, ties the handler options' level to the level cell, installs
   * the label-rewriting hook, and groups the default logger under "hlog".
   */
  method NewHLog(opts: seq<Option>, root: Handler) returns (r: Result<HLog>)
    modifies HookTarget(opts)
    ensures var s := ApplyAll(Blank, opts);
      s.withHandlerOptions && s.handlerOptions != null ==> s.handlerOptions.addSource == old(s.handlerOptions.addSource)
    ensures var s := ApplyAll(Blank, opts);
      r.Panic? <==> (s.withHandlerOptions && s.handlerOptions == null) || old(CopiedLevel(s)) == Some(Panic("nil *LevelVar"))
    ensures r.Ok? ==>
      var h, s := r.value, ApplyAll(Blank, opts);
      var c := h.cfg;
      && fresh(h) && fresh(c)
      && c.withLevel == s.withLevel && c.withHandlerOptions == s.withHandlerOptions && c.output == s.output
      && c.handlerOptions != null
      && (if s.withHandlerOptions then c.handlerOptions == s.handlerOptions else fresh(c.handlerOptions))
      && (if s.withLevel then c.level == s.level
          else c.level != null && fresh(c.level) && c.level.level == (match old(CopiedLevel(s)) case Some(Ok(l)) => l case _ => LevelInfo))
      && c.handlerOptions.level == Some(VarLevel(c.level))
      && c.handlerOptions.addSource == (if s.withHandlerOptions then old(s.handlerOptions.addSource) else false)
      && c.handlerOptions.replaceAttr.Some?
      && (forall g, a :: c.handlerOptions.replaceAttr.value(g, a) == ReplaceAttr(old(PriorHook(s)), g, a))
      && h.logger == Grouped(root.WithGroup("hlog"))
  {
    var config := DefaultConfig();
    ghost var defaults := config.Snapshot();
    for i := 0 to |opts|
      invariant config.Snapshot() == ApplyAll(defaults, opts[..i])
      modifies config
    {
      opts[i].Apply(config);
      assert opts[..i + 1][..i] == opts[..i];
    }
    assert opts[..|opts|] == opts;
    FlagsRecordOptions(defaults, opts);
    var ho := config.handlerOptions;
    if !config.withLevel && config.withHandlerOptions {
      if ho == null {
        return Panic("nil pointer dereference");
      }
      if ho.level.Some? {
        var current := LevelOf(ho.level.value);
        if current.Panic? {
          return Panic(current.reason);
        }
        var lvl := new LevelVar();
        lvl.Set(current.value);
        config.level := lvl;
      }
    }
    if ho == null {
      return Panic("nil pointer dereference");
    }
    ho.level := Some(VarLevel(config.level));
    var replaceFun := ho.replaceAttr;
    ho.replaceAttr := Some((groups: seq<string>, a: Attr) => ReplaceAttr(replaceFun, groups, a));
    var h := new HLog(Grouped(root.WithGroup("hlog")), config);
    return Ok(h);
  }

  /** How an hlog.FullLogger method takes its message. */
  datatype Form = Plain | Formatted | WithContext

  /** One of the 21 logging methods of HLog: the hlog level its name says, and its form. */
  datatype LogMethod = LogMethod(named: int, form: Form)

  /** The hlog level each method hands on to log, logf or ctxLogf. */
  function PassedLevel(m: LogMethod): int {
    if m.form == WithContext && m.named == HTrace then HDebug else m.named
  }

  /** The slog level each method logs at: its own name's, except CtxTracef, which logs at Debug. */
  function MethodLevel(m: LogMethod): (lvl: Level)
    requires KnownHLevel(m.named)
    ensures m != LogMethod(HTrace, WithContext) ==> lvl == SLevels[m.named]
    ensures m == LogMethod(HTrace, WithContext) ==> lvl == LevelDebug
  {
    HLevelToSLevel(PassedLevel(m))
  }
}
