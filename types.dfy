/**
 * The declarations of src/types.ts: the ordered log levels, the message sum
 * type, and the terminal record with six optional slots.
 */
module LogTypes {
  import opened Wrappers

  /** The log levels, in the order of their numeric values (src/types.ts:38-46). */
  datatype LogLevel = NONE | CRITICAL | ERROR | WARN | INFO | DEBUG | TRACE {

    /** The number the enum member stands for. */
    function Value(): (v: nat)
      ensures v <= 6
    {
      match this
      case NONE => 0
      case CRITICAL => 1
      case ERROR => 2
      case WARN => 3
      case INFO => 4
      case DEBUG => 5
      case TRACE => 6
    }
  }

  /** The level whose number is `v`, if there is one. */
  function LevelOf(v: int): (r: Option<LogLevel>)
    ensures r.Some? <==> 0 <= v <= 6
    ensures r.Some? ==> r.value.Value() == v
  {
    if v == 0 then Some(NONE)
    else if v == 1 then Some(CRITICAL)
    else if v == 2 then Some(ERROR)
    else if v == 3 then Some(WARN)
    else if v == 4 then Some(INFO)
    else if v == 5 then Some(DEBUG)
    else if v == 6 then Some(TRACE)
    else None
  }

  /** The levels are totally ordered by their numbers: distinct levels have distinct numbers. */
  lemma LevelValueInjective(a: LogLevel, b: LogLevel)
    ensures a.Value() == b.Value() <==> a == b
  {
  }

  /** Each level is recovered from its number. */
  lemma LevelRoundTrip(l: LogLevel)
    ensures LevelOf(l.Value() as int) == Some(l)
  {
  }

  /** The declared order NONE < CRITICAL < ERROR < WARN < INFO < DEBUG < TRACE. */
  lemma LevelChain()
    ensures NONE.Value() == 0 && TRACE.Value() == 6
    ensures NONE.Value() < CRITICAL.Value() < ERROR.Value() < WARN.Value()
    ensures WARN.Value() < INFO.Value() < DEBUG.Value() < TRACE.Value()
  {
  }

  /**
   * The six optional slots of a terminal, one per level other than NONE
   * (src/types.ts:21-28).
   */
  datatype Slot = Critical | Error | Warn | Info | Debug | Trace {

    /** The number of the level the slot belongs to: critical is 1, trace is 6. */
    function Rank(): (r: nat)
      ensures 1 <= r <= 6
      ensures LevelOf(r as int).Some? && LevelOf(r as int).value != NONE
      ensures LevelOf(r as int).value.Value() == r
    {
      match this
      case Critical => 1
      case Error => 2
      case Warn => 3
      case Info => 4
      case Debug => 5
      case Trace => 6
    }

    /**
     * The tag the factories print for this slot: the slot's name in upper
     * case, so it holds no `]` and a tag in a line ends at the first `]`.
     */
    function Tag(): (t: string)
      ensures |t| > 0
      ensures forall i :: 0 <= i < |t| ==> 'A' <= t[i] <= 'Z'
    {
      match this
      case Critical => "CRITICAL"
      case Error => "ERROR"
      case Warn => "WARN"
      case Info => "INFO"
      case Debug => "DEBUG"
      case Trace => "TRACE"
    }
  }

  /** The slot whose tag is `tag`, if any. */
  function SlotOfTag(tag: string): (r: Option<Slot>)
    ensures r.Some? ==> r.value.Tag() == tag
  {
    if tag == "CRITICAL" then Some(Critical)
    else if tag == "ERROR" then Some(Error)
    else if tag == "WARN" then Some(Warn)
    else if tag == "INFO" then Some(Info)
    else if tag == "DEBUG" then Some(Debug)
    else if tag == "TRACE" then Some(Trace)
    else None
  }

  /** Every slot's tag names that slot and no other. */
  lemma TagRoundTrip(s: Slot)
    ensures SlotOfTag(s.Tag()) == Some(s)
  {
  }

  /** The slots and the levels other than NONE correspond one to one. */
  lemma RankIsLevel(s: Slot, t: Slot)
    ensures s.Rank() == t.Rank() <==> s == t
  {
  }

  /**
   * A message (src/types.ts:7-10): a string, or a zero-argument producer of
   * one. A promised string is modelled by the string it settles to.
   */
  datatype Message = Str(s: string) | Thunk(f: () -> string)

  /**
   * What a slot does with a message (src/types.ts:16): given the timestamp the
   * clock gives at the call and the message, the text it hands to the writer.
   */
  type TerminalFn = (string, Message) -> string

  /** The terminal record: six slots, each present or absent (src/types.ts:21-28). */
  class Terminal {
    var critical: Option<TerminalFn>
    var error: Option<TerminalFn>
    var warn: Option<TerminalFn>
    var info: Option<TerminalFn>
    var debug: Option<TerminalFn>
    var trace: Option<TerminalFn>

    /** The object literal of the factories, with every slot present. */
    constructor (critical: TerminalFn, error: TerminalFn, warn: TerminalFn,
                 info: TerminalFn, debug: TerminalFn, trace: TerminalFn)
      ensures this.critical == Some(critical) && this.error == Some(error)
      ensures this.warn == Some(warn) && this.info == Some(info)
      ensures this.debug == Some(debug) && this.trace == Some(trace)
    {
      this.critical := Some(critical);
      this.error := Some(error);
      this.warn := Some(warn);
      this.info := Some(info);
      this.debug := Some(debug);
      this.trace := Some(trace);
    }

    /** The slot `s` of this record. */
    function Get(s: Slot): Option<TerminalFn>
      reads this
    {
      match s
      case Critical => critical
      case Error => error
      case Warn => warn
      case Info => info
      case Debug => debug
      case Trace => trace
    }
  }
}
