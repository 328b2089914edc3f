/**
 * The shared runtime of src/_common.ts: resolving the configured level,
 * clearing the slots above it, resolving a message, and writing a line.
 */
module Common {
  import opened Wrappers
  import opened LogTypes

  /**
   * What the host tells about its environment: the variables whose read
   * permission is granted, and for each variable whose value converts to a
   * number, that number. A variable missing from `numbers` is unset or holds
   * text that converts to NaN.
   */
  datatype Env = Env(granted: set<string>, numbers: map<string, real>)

  /** True when `v` gets past the range check of level resolution. */
  predicate InRange(v: real) {
    NONE.Value() as real <= v <= TRACE.Value() as real
  }

  /**
   * Level resolution (src/_common.ts:4-14): the number read from variable
   * `name`, or `fallback` when the read is not permitted, the value is NaN
   * or it lies outside NONE..TRACE. A non-integer within the range is passed on.
   */
  function GetLevel(env: Env, name: string, fallback: LogLevel): (r: real)
    ensures InRange(r)
    ensures r == fallback.Value() as real
            || (name in env.granted && name in env.numbers && r == env.numbers[name])
  {
    if name !in env.granted then fallback.Value() as real
    else if name !in env.numbers then fallback.Value() as real
    else
      var level := env.numbers[name];
      if level < NONE.Value() as real || TRACE.Value() as real < level then fallback.Value() as real
      else level
  }

  /** Without permission the fallback comes back unchanged (src/_common.ts:5-8). */
  lemma GetLevelDenied(env: Env, name: string, fallback: LogLevel)
    requires name !in env.granted
    ensures GetLevel(env, name, fallback) == fallback.Value() as real
  {
  }

  /** A NaN or out-of-range value gives the fallback (src/_common.ts:9-12). */
  lemma GetLevelInvalid(env: Env, name: string, fallback: LogLevel)
    requires name in env.granted
    requires name !in env.numbers || !InRange(env.numbers[name])
    ensures GetLevel(env, name, fallback) == fallback.Value() as real
  {
  }

  /** A permitted value in range is returned as read (src/_common.ts:9-13). */
  lemma GetLevelAccepted(env: Env, name: string, fallback: LogLevel)
    requires name in env.granted && name in env.numbers && InRange(env.numbers[name])
    ensures GetLevel(env, name, fallback) == env.numbers[name]
  {
  }

  /** True when `level` is one of the case labels NONE..DEBUG of the switch (src/_common.ts:22-32). */
  predicate IsCaseLabel(level: real) {
    level == level.Floor as real && NONE.Value() as real <= level <= DEBUG.Value() as real
  }

  /**
   * The external contract of slot clearing: slot `s` survives level `level`
   * unless `level` is a case label and the slot's rank exceeds it.
   */
  predicate Kept(level: real, s: Slot) {
    !IsCaseLabel(level) || s.Rank() as real <= level
  }

  /**
   * The case the switch of src/_common.ts:21-34 enters for `level`: the
   * number of its label, or None when no label matches (`===` on numbers).
   */
  function SwitchEntry(level: real): (r: Option<nat>)
    ensures r.Some? <==> IsCaseLabel(level)
    ensures r.Some? ==> r.value as real == level
  {
    if level == NONE.Value() as real then Some(NONE.Value())
    else if level == CRITICAL.Value() as real then Some(CRITICAL.Value())
    else if level == ERROR.Value() as real then Some(ERROR.Value())
    else if level == WARN.Value() as real then Some(WARN.Value())
    else if level == INFO.Value() as real then Some(INFO.Value())
    else if level == DEBUG.Value() as real then Some(DEBUG.Value())
    else None
  }

  /**
   * Slot clearing (src/_common.ts:16-36): resolves the level, then enters the
   * fall-through switch at the matching case, so that every assignment from
   * that case on is run. Each slot ends up absent when it is not kept and
   * unchanged otherwise; the same record is returned.
   */
  method SetLevel(env: Env, name: string, fallback: LogLevel, terminal: Terminal) returns (r: Terminal)
    modifies terminal
    ensures r == terminal
    ensures forall s: Slot ::
              terminal.Get(s) == if Kept(GetLevel(env, name, fallback), s) then old(terminal.Get(s)) else None
  {
    var entry := SwitchEntry(GetLevel(env, name, fallback));
    if entry.Some? {
      var k := entry.value;
      if k <= NONE.Value() { terminal.critical := None; }
      if k <= CRITICAL.Value() { terminal.error := None; }
      if k <= ERROR.Value() { terminal.warn := None; }
      if k <= WARN.Value() { terminal.info := None; }
      if k <= INFO.Value() { terminal.debug := None; }
      if k <= DEBUG.Value() { terminal.trace := None; }
    }
    r := terminal;
  }

  /**
   * For a level the enum names, a slot is kept exactly when its rank is at
   * most the level: NONE keeps nothing and TRACE keeps everything
   * (src/_common.ts:21-34, src/types.ts:30-33).
   */
  lemma KeptIffRankAtMost(l: LogLevel, s: Slot)
    ensures Kept(l.Value() as real, s) <==> s.Rank() <= l.Value()
  {
  }

  /** NONE clears all six slots. */
  lemma NoneKeepsNothing(s: Slot)
    ensures !Kept(NONE.Value() as real, s)
  {
  }

  /** A level that no case matches, such as TRACE or 2.5, keeps every slot. */
  lemma UnmatchedKeepsAll(level: real, s: Slot)
    requires SwitchEntry(level).None?
    ensures Kept(level, s)
  {
  }

  /** The kept slots are closed downwards: a slot of lower rank than a kept one is kept. */
  lemma KeptDownwardClosed(level: real, s: Slot, t: Slot)
    requires t.Rank() <= s.Rank() && Kept(level, s)
    ensures Kept(level, t)
  {
  }

  /**
   * Message resolution (src/_common.ts:38-41): a string is returned as is; a
   * producer is called and its result returned.
   */
  function Stringify(x: Message): string {
    match x
    case Str(s) => s
    case Thunk(f) => f()
  }

  /** Resolving an already resolved message changes nothing. */
  lemma StringifyIdempotent(x: Message)
    ensures Stringify(Str(Stringify(x))) == Stringify(x)
  {
  }

  /** The text put out by the writer before encoding (src/_common.ts:48-51). */
  function Line(instant: string, prefix: string, x: Message): string {
    "~[" + instant + "] " + prefix + Stringify(x) + "\n"
  }

  /**
   * The inverse of `Line` for a known timestamp and prefix: the message text,
   * or None when `line` does not have that shape.
   */
  function UnLine(instant: string, prefix: string, line: string): Option<string> {
    var head := "~[" + instant + "] " + prefix;
    if |line| < |head| + 1 || line[..|head|] != head || line[|line| - 1] != '\n' then None
    else Some(line[|head|..|line| - 1])
  }

  /** A line gives back the resolved message, knowing the timestamp and the prefix. */
  lemma LineRoundTrip(instant: string, prefix: string, x: Message)
    ensures UnLine(instant, prefix, Line(instant, prefix, x)) == Some(Stringify(x))
  {
    var head := "~[" + instant + "] " + prefix;
    var line := Line(instant, prefix, x);
    assert line == head + Stringify(x) + "\n";
    assert line[..|head|] == head;
    assert line[|head|..|line| - 1] == Stringify(x);
  }

  /** Every text that `UnLine` accepts is the line of the message it gives back. */
  lemma UnLineSound(instant: string, prefix: string, line: string, m: string)
    requires UnLine(instant, prefix, line) == Some(m)
    ensures line == Line(instant, prefix, Str(m))
  {
    var head := "~[" + instant + "] " + prefix;
    assert line == line[..|head|] + line[|head|..|line| - 1] + [line[|line| - 1]];
  }

  /**
   * A string and a producer of the same string resolve alike, so they give the
   * same line.
   */
  lemma StringAndThunkAlike(instant: string, prefix: string, s: string)
    ensures Line(instant, prefix, Str(s)) == Line(instant, prefix, Thunk(() => s))
  {
  }

  /** A byte of the encoded line. */
  newtype byte = b: int | 0 <= b < 256

  /** The chunks `cs` one after another. */
  function Concat(cs: seq<seq<byte>>): seq<byte> {
    if cs == [] then [] else Concat(cs[..|cs| - 1]) + cs[|cs| - 1]
  }

  /**
   * The standard output stream (src/_common.ts:53): accepts a leading part of
   * `chunk` and returns how many bytes that was, at least one and at most all.
   * Callers rely on this contract alone.
   */
  method StdoutWrite(chunk: seq<byte>) returns (n: nat)
    requires |chunk| > 0
    ensures 1 <= n <= |chunk|
  {
    n :| 1 <= n <= |chunk|;
  }

  /**
   * The writer (src/_common.ts:44-55): encodes the line of `prefix` and `x`
   * at timestamp `instant` and hands the rest of it to the stream until every
   * byte has been accepted. Returns the parts the stream accepted, in
   * order: none is empty, and together they are exactly the encoded line.
   */
  method Write(instant: string, prefix: string, x: Message, encode: string -> seq<byte>)
    returns (accepted: seq<seq<byte>>)
    ensures Concat(accepted) == encode(Line(instant, prefix, x))
    ensures forall k :: 0 <= k < |accepted| ==> accepted[k] != []
    ensures |accepted| <= |encode(Line(instant, prefix, x))|
  {
    var buffer := encode(Line(instant, prefix, x));
    accepted := [];
    var i := 0;
    while i < |buffer|
      invariant i <= |buffer|
      invariant Concat(accepted) == buffer[..i]
      invariant forall k :: 0 <= k < |accepted| ==> accepted[k] != []
      invariant |accepted| <= i
      decreases |buffer| - i
    {
      var n := StdoutWrite(buffer[i..]);
      assert (accepted + [buffer[i..i + n]])[..|accepted|] == accepted;
      assert buffer[..i + n] == buffer[..i] + buffer[i..i + n];
      accepted := accepted + [buffer[i..i + n]];
      i := i + n;
    }
    assert buffer[..i] == buffer;
  }
}
