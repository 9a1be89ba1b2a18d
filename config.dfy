/**
 * The exported configuration record and its functional options. Each
 * option is a closure that assigns the fields it names in a *Config and
 * leaves every other field alone.
 */
module Config {
  import opened Slog

  class Config {
    var level: LevelVar?
    var withLevel: bool
    var handlerOptions: HandlerOptions?
    var withHandlerOptions: bool
    var output: Writer

    constructor (level: LevelVar?, withLevel: bool, handlerOptions: HandlerOptions?,
                 withHandlerOptions: bool, output: Writer)
      ensures this.level == level && this.withLevel == withLevel && this.handlerOptions == handlerOptions
      ensures this.withHandlerOptions == withHandlerOptions && this.output == output
    {
      this.level := level;
      this.withLevel := withLevel;
      this.handlerOptions := handlerOptions;
      this.withHandlerOptions := withHandlerOptions;
      this.output := output;
    }
  }

  /** The closures OptionFunc wraps, one per option constructor. */
  datatype OptionFunc = SetLevel(lvl: LevelVar?) | SetHandlerOptions(opts: HandlerOptions?) | SetOutput(writer: Writer) {

    /** OptionFunc.Apply: runs exactly the wrapped closure on `cfg`. */
    method Apply(cfg: Config)
      modifies cfg
      ensures SetLevel? ==> cfg.level == lvl && cfg.withLevel
      ensures SetHandlerOptions? ==> cfg.handlerOptions == opts && cfg.withHandlerOptions
      ensures SetOutput? ==> cfg.output == writer
      ensures !SetLevel? ==> cfg.level == old(cfg.level) && cfg.withLevel == old(cfg.withLevel)
      ensures !SetHandlerOptions? ==>
        cfg.handlerOptions == old(cfg.handlerOptions) && cfg.withHandlerOptions == old(cfg.withHandlerOptions)
      ensures !SetOutput? ==> cfg.output == old(cfg.output)
    {
      match this
      case SetLevel(lvl) =>
        cfg.level := lvl;
        cfg.withLevel := true;
      case SetHandlerOptions(opts) =>
        cfg.handlerOptions := opts;
        cfg.withHandlerOptions := true;
      case SetOutput(writer) =>
        cfg.output := writer;
    }
  }

  function WithLevel(lvl: LevelVar?): OptionFunc {
    SetLevel(lvl)
  }

  function WithHandlerOptions(opts: HandlerOptions?): OptionFunc {
    SetHandlerOptions(opts)
  }

  function WithOutput(writer: Writer): OptionFunc {
    SetOutput(writer)
  }
}
