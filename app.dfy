/**
 * The application terminal of src/app.ts: level from `LOG_LEVEL`, INFO when
 * that is missing, invalid or unreadable, and lines `~[ts] [TAG] msg`.
 */
module App {
  import opened Wrappers
  import opened LogTypes
  import opened Common
  import opened Tagged

  /** The variable the application terminal reads (src/app.ts:52). */
  const LogLevelVar := "LOG_LEVEL"

  /** The level the application terminal falls back to (src/app.ts:53). */
  const AppFallback := INFO

  /** The text slot `s` hands to the writer (src/app.ts:55-72). */
  function AppText(instant: string, s: Slot, x: Message): string {
    "~[" + instant + "] [" + s.Tag() + "] " + Stringify(x)
  }

  /**
   * An app text names its own slot: decoded at its timestamp it gives back
   * the slot and the resolved message.
   */
  lemma AppTextRoundTrip(instant: string, s: Slot, x: Message)
    ensures ParseTagged(instant, AppText(instant, s, x)) == Some((s, Stringify(x)))
  {
    assert AppText(instant, s, x) == Head(instant) + s.Tag() + "] " + Stringify(x);
    ParseTaggedRoundTrip(instant, s, Stringify(x));
  }

  /**
   * The function in slot `s` of the object literal (src/app.ts:55-72):
   * whatever the timestamp and message, its text carries the tag of `s`.
   */
  function AppSlot(s: Slot): (f: TerminalFn)
    ensures forall instant: string, x: Message :: ParseTagged(instant, f(instant, x)) == Some((s, Stringify(x)))
  {
    AppSlotTagged(s);
    (instant: string, x: Message) => AppText(instant, s, x)
  }

  /** Every text of the app formatter for `s` decodes to `s`. */
  lemma AppSlotTagged(s: Slot)
    ensures forall instant: string, x: Message ::
              ParseTagged(instant, AppText(instant, s, x)) == Some((s, Stringify(x)))
  {
    forall instant: string, x: Message
      ensures ParseTagged(instant, AppText(instant, s, x)) == Some((s, Stringify(x)))
    {
      AppTextRoundTrip(instant, s, x);
    }
  }

  /**
   * The level the application terminal is configured at (src/app.ts:51-53):
   * INFO unless `LOG_LEVEL` is readable and holds a number in range.
   */
  function AppLevel(env: Env): (r: real)
    ensures InRange(r)
    ensures r == INFO.Value() as real
            || (LogLevelVar in env.granted && LogLevelVar in env.numbers && r == env.numbers[LogLevelVar])
  {
    GetLevel(env, LogLevelVar, AppFallback)
  }

  /**
   * The exported `terminal` (src/app.ts:51-74): the six app slots, with those
   * above the level read from `LOG_LEVEL` (fallback INFO) removed.
   */
  method AppTerminal(env: Env) returns (terminal: Terminal)
    ensures fresh(terminal)
    ensures forall s: Slot ::
              terminal.Get(s) == if Kept(AppLevel(env), s) then Some(AppSlot(s)) else None
  {
    var literal := new Terminal(AppSlot(Critical), AppSlot(Error), AppSlot(Warn),
                                AppSlot(Info), AppSlot(Debug), AppSlot(Trace));
    terminal := SetLevel(env, LogLevelVar, AppFallback, literal);
  }

  /**
   * With `LOG_LEVEL` missing, invalid or unreadable, critical, error, warn and
   * info are present and debug and trace are absent (src/app.ts:9-11).
   */
  lemma AppDefaultSlots(env: Env, s: Slot)
    requires LogLevelVar !in env.granted || LogLevelVar !in env.numbers
             || !InRange(env.numbers[LogLevelVar])
    ensures Kept(AppLevel(env), s) <==> s.Rank() <= INFO.Value()
  {
    KeptIffRankAtMost(AppFallback, s);
  }

  /**
   * With `LOG_LEVEL` readable and set to a level's number, exactly the slots
   * greater than it are excluded (src/app.ts:6-8).
   */
  lemma AppExcludesAbove(env: Env, l: LogLevel, s: Slot)
    requires LogLevelVar in env.granted && LogLevelVar in env.numbers
    requires env.numbers[LogLevelVar] == l.Value() as real
    ensures Kept(AppLevel(env), s) <==> s.Rank() <= l.Value()
  {
    KeptIffRankAtMost(l, s);
  }

  /**
   * At the same timestamp, different slots never write the same text: the
   * TAG is the slot's own.
   */
  lemma AppTextTagsDiffer(instant: string, s: Slot, t: Slot, x: Message, y: Message)
    requires s != t
    ensures AppText(instant, s, x) != AppText(instant, t, y)
  {
    AppTextRoundTrip(instant, s, x);
    AppTextRoundTrip(instant, t, y);
  }

  /**
   * `LOG_LEVEL=2.5` passes the range check and matches no case, so every
   * slot stays, debug and trace included, although the module documentation
   * says levels above the setting are excluded (src/app.ts:6-11).
   */
  lemma AppFractionalKeepsAll(s: Slot)
    ensures Kept(AppLevel(Env({LogLevelVar}, map[LogLevelVar := 2.5])), s)
  {
    var env := Env({LogLevelVar}, map[LogLevelVar := 2.5]);
    GetLevelAccepted(env, LogLevelVar, AppFallback);
    assert SwitchEntry(2.5).None?;
    UnmatchedKeepsAll(2.5, s);
  }
}
