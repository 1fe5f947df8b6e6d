/**
  microlog.c as the program runs it: the global `g_config` record and the two
  output streams are the fields of one `Logger`, which `ulog_init` and
  `ulog_set_output_level` update in place and to whose streams `log_internal`
  appends with one write after another. Every method is proved against the
  functions of MicrologSpec through `View()`.
 */
module MicrologEngine {
  import opened Wrappers
  import opened MicrologHeader
  import opened MicrologSpec

  class Logger {
    // struct Config
    var isInitialized: bool
    var hasSmartOutput: bool
    var outputLevel: OutputLevel

    // everything written so far to standard output and to standard error
    var stdout: string
    var stderr: string

    /** The logger's state as a value. */
    function View(): State
      reads this
    {
      State(Config(isInitialized, hasSmartOutput, outputLevel), stdout, stderr)
    }

    /**
      The object invariant: smart output is off until the logger is
      initialised. Every method keeps it, but no method relies on it:
      `log_internal` initialises before it reads `hasSmartOutput`.
     */
    ghost predicate Valid()
      reads this
    {
      Consistent(View().config)
    }

    /** The static initialiser of `g_config`, at program start. */
    constructor ()
      ensures Valid() && View() == InitialState
      ensures !isInitialized && outputLevel == LevelInfo
    {
      isInitialized, hasSmartOutput, outputLevel := false, false, LevelInfo;
      stdout, stderr := "", "";
    }

    /** `ulog_init`: decide once whether colour escapes are written. */
    method Init(env: Environment)
      requires Valid()
      modifies this`isInitialized, this`hasSmartOutput
      ensures Valid() && isInitialized
      ensures View() == old(View()).(config := AfterInit(old(View().config), env))
      ensures old(isInitialized) ==> hasSmartOutput == old(hasSmartOutput)
    {
      if isInitialized {
        return;
      }
      if env.term.None? {
        hasSmartOutput := false;
        isInitialized := true;
        return;
      }
      hasSmartOutput := env.stdoutIsTty && env.term.value != "dumb";
      isInitialized := true;
    }

    /** `ulog_set_output_level`. */
    method SetOutputLevel(level: OutputLevel)
      requires Valid()
      modifies this`outputLevel
      ensures Valid() && outputLevel == level
      ensures View() == Step(old(View()), Call.SetOutputLevel(level))
    {
      outputLevel := level;
    }

    /** One `fprintf` or `vfprintf` call: `text` is appended to `stream`. */
    method Write(stream: Stream, text: string)
      modifies this`stdout, this`stderr
      ensures View() == Appended(old(View()), stream, text)
    {
      match stream
      case Stdout => stdout := stdout + text;
      case Stderr => stderr := stderr + text;
    }

    /** `set_color`: the colour of the message's kind, on a smart terminal only. */
    method SetColor(stream: Stream, t: MessageType)
      modifies this`stdout, this`stderr
      ensures View() == Appended(old(View()), stream, ColorPrefix(t, hasSmartOutput))
    {
      if !hasSmartOutput {
        return;
      }
      match t
      case DebugMessage => Write(stream, AnsiColorDebug);
      case TraceMessage => Write(stream, AnsiColorTrace);
      case ErrorMessage => Write(stream, AnsiColorError);
      case NormalMessage =>
    }

    /** `reset_color`: the reset escape, on a smart terminal only. */
    method ResetColor(stream: Stream)
      modifies this`stdout, this`stderr
      ensures View() == Appended(old(View()), stream, ResetSuffix(hasSmartOutput))
    {
      if !hasSmartOutput {
        return;
      }
      Write(stream, AnsiColorReset);
    }

    /** `log_internal`: initialise if need be and write one line to the message's stream. */
    method LogInternal(t: MessageType, msg: string, env: Environment)
      requires Valid()
      modifies this
      ensures Valid()
      ensures View() == AfterLog(old(View()), t, msg, env)
    {
      if !isInitialized {
        Init(env);
      }
      var stream := if t == ErrorMessage then Stderr else Stdout;
      SetColor(stream, t);
      Write(stream, msg);
      ResetColor(stream);
      Write(stream, "\n");
    }

    /** `ulog_info`: always logs, to standard output. */
    method Info(msg: string, env: Environment)
      requires Valid()
      modifies this
      ensures Valid()
      ensures View() == Step(old(View()), Log(NormalMessage, msg, env))
      ensures stdout == old(stdout) + Line(NormalMessage, msg, hasSmartOutput)
      ensures stderr == old(stderr) && outputLevel == old(outputLevel)
    {
      LogInternal(NormalMessage, msg, env);
    }

    /** `ulog_debug`: logs to standard output when the level is at least debug, and otherwise does nothing. */
    method Debug(msg: string, env: Environment)
      requires Valid()
      modifies this
      ensures Valid()
      ensures View() == Step(old(View()), Log(DebugMessage, msg, env))
      ensures Below(old(outputLevel), LevelDebug) ==> View() == old(View())
      ensures !Below(old(outputLevel), LevelDebug) ==>
        stdout == old(stdout) + Line(DebugMessage, msg, hasSmartOutput) && stderr == old(stderr)
    {
      if Ordinal(outputLevel) < Ordinal(LevelDebug) {
        return;
      }
      LogInternal(DebugMessage, msg, env);
    }

    /** `ulog_trace`: logs to standard output when the level is trace, and otherwise does nothing. */
    method Trace(msg: string, env: Environment)
      requires Valid()
      modifies this
      ensures Valid()
      ensures View() == Step(old(View()), Log(TraceMessage, msg, env))
      ensures Below(old(outputLevel), LevelTrace) ==> View() == old(View())
      ensures !Below(old(outputLevel), LevelTrace) ==>
        stdout == old(stdout) + Line(TraceMessage, msg, hasSmartOutput) && stderr == old(stderr)
    {
      if Ordinal(outputLevel) < Ordinal(LevelTrace) {
        return;
      }
      LogInternal(TraceMessage, msg, env);
    }

    /** `ulog_error`: always logs, to standard error. */
    method Error(msg: string, env: Environment)
      requires Valid()
      modifies this
      ensures Valid()
      ensures View() == Step(old(View()), Log(ErrorMessage, msg, env))
      ensures stderr == old(stderr) + Line(ErrorMessage, msg, hasSmartOutput)
      ensures stdout == old(stdout) && outputLevel == old(outputLevel)
    {
      LogInternal(ErrorMessage, msg, env);
    }
  }

  /**
    A client of the library on a terminal without colour: what it can conclude
    from the methods' specifications alone.
   */
  method PlainTerminalClient(msg: string)
  {
    var env := Environment(Some("dumb"), true);
    var logger := new Logger();
    logger.Trace(msg, env);
    assert logger.View() == InitialState;
    logger.Info(msg, env);
    assert logger.stdout == msg + "\n" && logger.isInitialized && !logger.hasSmartOutput;
    logger.SetOutputLevel(LevelNone);
    logger.Error(msg, env);
    assert logger.stderr == msg + "\n";
  }
}
