/**
 * The library terminal factory of src/lib.ts: level from a variable the
 * caller names, NONE when that is missing, invalid or unreadable, and lines
 * `~[ts] [TAG] [name] msg`.
 */
module Lib {
  import opened Wrappers
  import opened LogTypes
  import opened Common
  import opened Tagged
  import opened App

  /** The level a library terminal falls back to (src/lib.ts:63). */
  const LibFallback := NONE

  /** The text slot `s` of terminal `name` hands to the writer (src/lib.ts:65-82). */
  function LibText(instant: string, s: Slot, name: string, x: Message): string {
    "~[" + instant + "] [" + s.Tag() + "] [" + name + "] " + Stringify(x)
  }

  /** Strips `[name] ` from the front of `body`; None when it is not there. */
  function ParseName(name: string, body: string): Option<string> {
    var bracket := "[" + name + "] ";
    if |body| < |bracket| || body[..|bracket|] != bracket then None
    else Some(body[|bracket|..])
  }

  /**
   * The inverse of `LibText` for a known timestamp and name: the slot and
   * the message, or None for a text of another shape.
   */
  function ParseLibText(instant: string, name: string, text: string): Option<(Slot, string)> {
    match ParseTagged(instant, text)
    case None => None
    case Some((s, body)) =>
      match ParseName(name, body)
      case None => None
      case Some(m) => Some((s, m))
  }

  /** `[name] ` and a message give back the message. */
  lemma ParseNameRoundTrip(name: string, m: string)
    ensures ParseName(name, "[" + name + "] " + m) == Some(m)
  {
    var bracket := "[" + name + "] ";
    assert (bracket + m)[..|bracket|] == bracket;
    assert (bracket + m)[|bracket|..] == m;
  }

  /** Everything `ParseName` accepts is `[name] ` and what it gives back. */
  lemma ParseNameSound(name: string, body: string, m: string)
    requires ParseName(name, body) == Some(m)
    ensures body == "[" + name + "] " + m
  {
    var bracket := "[" + name + "] ";
    assert body == body[..|bracket|] + body[|bracket|..];
  }

  /** A library text is the tagged line whose body is `[name] ` and the message. */
  lemma LibTextShape(instant: string, s: Slot, name: string, m: string)
    ensures LibText(instant, s, name, Str(m)) == Head(instant) + s.Tag() + "] " + ("[" + name + "] " + m)
  {
  }

  /**
   * Decoded at its timestamp with its name, a library text gives back its
   * slot and its resolved message.
   */
  lemma LibTextRoundTrip(instant: string, s: Slot, name: string, x: Message)
    ensures ParseLibText(instant, name, LibText(instant, s, name, x)) == Some((s, Stringify(x)))
  {
    var m := Stringify(x);
    assert LibText(instant, s, name, x) == LibText(instant, s, name, Str(m));
    LibTextShape(instant, s, name, m);
    ParseTaggedRoundTrip(instant, s, "[" + name + "] " + m);
    ParseNameRoundTrip(name, m);
  }

  /**
   * The function in slot `s` of the object literal for terminal `name`:
   * whatever the timestamp and message, its text carries the tag of `s`
   * and the name.
   */
  function LibSlot(name: string, s: Slot): (f: TerminalFn)
    ensures forall instant: string, x: Message ::
              ParseLibText(instant, name, f(instant, x)) == Some((s, Stringify(x)))
  {
    LibSlotTagged(name, s);
    (instant: string, x: Message) => LibText(instant, s, name, x)
  }

  /** Every text of the library formatter for `s` and `name` decodes to `s`. */
  lemma LibSlotTagged(name: string, s: Slot)
    ensures forall instant: string, x: Message ::
              ParseLibText(instant, name, LibText(instant, s, name, x)) == Some((s, Stringify(x)))
  {
    forall instant: string, x: Message
      ensures ParseLibText(instant, name, LibText(instant, s, name, x)) == Some((s, Stringify(x)))
    {
      LibTextRoundTrip(instant, s, name, x);
    }
  }

  /**
   * The level a library terminal reading variable `envName` is configured at
   * (src/lib.ts:61-63): NONE unless that variable is readable and holds a
   * number in range.
   */
  function LibLevel(env: Env, envName: string): (r: real)
    ensures InRange(r)
    ensures r == NONE.Value() as real
            || (envName in env.granted && envName in env.numbers && r == env.numbers[envName])
  {
    GetLevel(env, envName, LibFallback)
  }

  /**
   * `createTerminal(name, env)` (src/lib.ts:57-85): the six slots of terminal
   * `name`, with those above the level read from variable `envName`
   * (fallback NONE) removed.
   */
  method CreateTerminal(name: string, envName: string, env: Env) returns (terminal: Terminal)
    ensures fresh(terminal)
    ensures forall s: Slot ::
              terminal.Get(s) == if Kept(LibLevel(env, envName), s) then Some(LibSlot(name, s)) else None
  {
    var literal := new Terminal(LibSlot(name, Critical), LibSlot(name, Error), LibSlot(name, Warn),
                                LibSlot(name, Info), LibSlot(name, Debug), LibSlot(name, Trace));
    terminal := SetLevel(env, envName, LibFallback, literal);
  }

  /**
   * With the variable missing, invalid or unreadable, every slot is absent
   * (src/lib.ts:8-10).
   */
  lemma LibDefaultSilent(env: Env, envName: string, s: Slot)
    requires envName !in env.granted || envName !in env.numbers || !InRange(env.numbers[envName])
    ensures !Kept(LibLevel(env, envName), s)
  {
    NoneKeepsNothing(s);
  }

  /**
   * With the variable readable and set to a level's number, exactly the slots
   * greater than it are excluded.
   */
  lemma LibExcludesAbove(env: Env, envName: string, l: LogLevel, s: Slot)
    requires envName in env.granted && envName in env.numbers
    requires env.numbers[envName] == l.Value() as real
    ensures Kept(LibLevel(env, envName), s) <==> s.Rank() <= l.Value()
  {
    KeptIffRankAtMost(l, s);
  }

  /**
   * The two factory formats differ only by the name: a library text is the
   * app text of the message prefixed with `[name] `, the name unchanged.
   */
  lemma LibTextIsAppText(instant: string, s: Slot, name: string, x: Message)
    ensures LibText(instant, s, name, x) == AppText(instant, s, Str("[" + name + "] " + Stringify(x)))
  {
  }

  /** Every text `ParseLibText` accepts is the library line of what it gives back. */
  lemma ParseLibTextSound(instant: string, name: string, text: string, s: Slot, m: string)
    requires ParseLibText(instant, name, text) == Some((s, m))
    ensures text == LibText(instant, s, name, Str(m))
  {
    var body := ParseTagged(instant, text).value.1;
    assert ParseTagged(instant, text) == Some((s, body));
    ParseNameSound(name, body, m);
    ParseTaggedSound(instant, text, s, body);
    LibTextShape(instant, s, name, m);
  }
}
