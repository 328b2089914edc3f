# Gating logic of a small Deno logging library

This project models the core of a minimal logging facade. A terminal is a
record with six optional slots: critical, error, warn, info, debug and trace.
When a terminal is built, the configured level is read once from an
environment variable. When that level is one of the integers 0 to 5, every
slot whose level is above it is removed. A level that matches no case,
TRACE or a fraction such as 2.5, removes nothing. A call site writes
`terminal.info?.(msg)`, so a disabled severity costs nothing: a producer
passed to it is never called. As documented, a present slot formats the line
and writes it to standard output, retrying short writes until the whole line
is out. The source as written does not do this; see "Source inconsistency"
below.

Modules, one per source file plus two helpers:

- `LogTypes` (src/types.ts): the `LogLevel` enum and its numbers, the six
  slots with their rank and upper-case tag, the `Message` sum type, and the
  `Terminal` class with six `Option<TerminalFn>` fields.
- `Common` (src/_common.ts): level resolution (`GetLevel`), the fall-through
  slot clearing (`SetLevel`, stated through `Kept`), message resolution
  (`Stringify`), the line format (`Line`) and the partial-write loop (`Write`).
- `App` (src/app.ts): the application terminal. It reads `LOG_LEVEL`, falls
  back to INFO and writes lines `~[ts] [TAG] msg`.
- `Lib` (src/lib.ts): `createTerminal(name, env)`. It reads the caller's
  variable, falls back to NONE and writes lines `~[ts] [TAG] [name] msg`.
- `Tagged`: a decoder for the factories' line text. It is the partner of the
  two formats and shows that a line determines its slot and its message.
- `Wrappers`: `Option`.

Host facilities are inputs. The environment is an `Env` value. It holds the
set of variables whose read permission is granted, and the number that
`Number(Deno.env.get(name))` gives for each variable whose value is not NaN.
A variable missing from that map is either unset or holds text that converts
to NaN. The parsed value is a `real`, not an integer, because the source does
not reject a non-integer: 2.5 passes the range check at src/_common.ts:10,
matches no case of the switch, and keeps every slot. The clock is a timestamp
string argument. Text encoding is a function argument. Standard output is the
method `Common.StdoutWrite`, whose only contract is that it accepts between
one byte and all of the bytes it is given.

A slot function (`TerminalFn`) takes the timestamp and a message. It returns
the text that the slot hands to the writer.

## Source inconsistency

The two factories and `_common.ts` do not agree, and the model does not
reconcile them:

- src/app.ts:35 and src/lib.ts:35 import `stringify` and `timeStamp` from
  `_common.ts`. That file exports neither of them: `stringify` is not exported
  (src/_common.ts:38) and `timeStamp` does not exist.
- The factories call `write` with one pre-formatted string that already has
  a timestamp and a tag (src/app.ts:56, src/lib.ts:66).
- `write` takes `(prefix, x)`. It adds its own `~[instant] ` and its own
  newline, and it resolves `x` as the message (src/_common.ts:44-51). Called
  with one argument, `x` is undefined.

Under the source as written, a slot call therefore fails: `x()` at
src/_common.ts:40 throws before any byte reaches the write loop, and the
imports at src/app.ts:35 and src/lib.ts:35 name exports that do not exist.

The model follows each file for its own part. `Common.Write` and `Common.Line`
are `write` as `_common.ts` declares it. `App.AppText` and `Lib.LibText` are
the texts the factories build. The factory slots are not composed with
`Write`, because under the source as written that composition would fail
when resolving the missing message.

The module documentation also disagrees with the code on fractional levels.
src/app.ts:6-11 and src/types.ts:30-33 say that levels greater than the
setting are excluded and that an invalid value falls back to INFO. The code
accepts `LOG_LEVEL=2.5` (it is within range at src/_common.ts:10), and the
switch at src/_common.ts:21-34 matches no case for it, so all six slots stay.
`App.AppFractionalKeepsAll` states this, and the model follows the code.

## Model

| member | source | states |
|---|---|---|
| LogTypes.LevelChain | src/types.ts:38-46 | NONE=0 < CRITICAL < ERROR < WARN < INFO < DEBUG < TRACE=6 |
| LogTypes.LevelValueInjective | src/types.ts:38-46 | two levels have the same number iff they are the same level, so the order is total and strict |
| LogTypes.LevelOf | src/types.ts:38-46 | a number names a level iff it lies in 0..6, and the level named has that number |
| LogTypes.LevelRoundTrip | src/types.ts:38-46 | every level is recovered from its number |
| LogTypes.RankIsLevel | src/types.ts:21-28 | the six slots have six distinct ranks 1..6, one per level other than NONE |
| LogTypes.TagRoundTrip | src/lib.ts:66-81 | each slot's tag (CRITICAL, ERROR, WARN, INFO, DEBUG, TRACE) decodes to that slot and no other |
| LogTypes.LogLevel.Value | src/types.ts:38-46 | every level's number lies in 0..6 |
| LogTypes.Slot.Rank | src/types.ts:21-28 | each slot's rank lies in 1..6 and is the number of a level other than NONE |
| LogTypes.Slot.Tag | src/app.ts:55-72 | each slot's tag is non-empty and made of upper-case letters only, so it holds no `]` and the tag in a line ends at the first `]` after it |
| LogTypes.SlotOfTag | src/lib.ts:66-81 | a text that decodes to a slot is exactly that slot's tag |
| LogTypes.Terminal.constructor | src/types.ts:21-28 | the record built by a factory's object literal has all six slots present, each holding the given function |
| Common.GetLevel | src/_common.ts:4-14 | the resolved level is always within NONE..TRACE, and it is either the fallback or the permitted value read from the named variable |
| Common.GetLevelDenied | src/_common.ts:5-8 | without read permission the fallback comes back unchanged |
| Common.GetLevelInvalid | src/_common.ts:9-12 | with permission but a NaN, negative or above-TRACE value, the fallback comes back |
| Common.GetLevelAccepted | src/_common.ts:9-13 | a permitted value within 0..6 comes back as read, non-integers included |
| Common.InRange | src/_common.ts:10 | definition only: the range check NONE <= v <= TRACE that a read value must pass |
| Common.IsCaseLabel | src/_common.ts:22-32 | definition only: the level is an integer from NONE to DEBUG, i.e. one of the case labels |
| Common.Kept | src/_common.ts:21-34 | definition only: a slot survives unless the level is a case label below the slot's rank |
| Common.SwitchEntry | src/_common.ts:21-34 | the switch enters a case iff the level is an integer in 0..5, and the case entered is the one labelled with that number |
| Common.SetLevel | src/_common.ts:16-36 | the same record is returned; each slot becomes absent when it is not kept at the resolved level and is otherwise left exactly as it was, so nothing is added or replaced |
| Common.KeptIffRankAtMost | src/_common.ts:21-34 | for a level L named by the enum, a slot is kept iff its rank is at most L: NONE keeps nothing and TRACE keeps everything |
| Common.NoneKeepsNothing | src/_common.ts:22-33 | level NONE clears all six slots |
| Common.UnmatchedKeepsAll | src/_common.ts:21-34 | a level that no case matches, such as TRACE or a non-integer, keeps every slot |
| Common.KeptDownwardClosed | src/_common.ts:21-34 | the kept slots are closed downwards in rank: if a slot is kept, every slot of lower rank is kept too |
| Common.StringifyIdempotent | src/_common.ts:38-41 | resolving an already resolved message changes nothing |
| Common.StringAndThunkAlike | src/_common.ts:38-51 | a string and a producer of that string give the same line |
| Common.Line | src/_common.ts:48-51 | definition only: the line `"~[" + instant + "] " + prefix + msg + "\n"` |
| Common.LineRoundTrip | src/_common.ts:48-51 | the line decodes, given the timestamp and the prefix, to the resolved message |
| Common.UnLineSound | src/_common.ts:48-51 | every text the line decoder accepts is exactly the line of the message it returns |
| Common.StdoutWrite | src/_common.ts:53 | the stream accepts at least one byte and at most all the bytes it is given |
| Common.Write | src/_common.ts:44-55 | the loop ends with every byte written; the accepted parts are non-empty, there are no more of them than bytes, and together they are exactly the encoded line |
| App.AppText | src/app.ts:55-72 | definition only: the text `"~[" + t + "] [" + TAG + "] " + msg` |
| App.AppSlot | src/app.ts:55-72 | whatever the timestamp and message, the slot function's text decodes to its own slot and the resolved message |
| App.AppLevel | src/app.ts:51-53 | the app level is within NONE..TRACE, and it is INFO or the permitted value read from `LOG_LEVEL` |
| App.AppTerminal | src/app.ts:51-74 | the app terminal holds, in each slot kept at the level from `LOG_LEVEL` with fallback INFO, the app formatter for that slot, and nothing in the others |
| App.AppDefaultSlots | src/app.ts:51-53 | with `LOG_LEVEL` missing, invalid or unreadable, exactly critical, error, warn and info are kept |
| App.AppExcludesAbove | src/app.ts:6-8 | with `LOG_LEVEL` set to a level's number, exactly the slots above that level are excluded |
| App.AppTextRoundTrip | src/app.ts:55-72 | the app text `~[t] [TAG] msg` decodes to the slot named by TAG and the resolved message |
| App.AppTextTagsDiffer | src/app.ts:55-72 | at the same timestamp, two different slots never produce the same text, whatever their messages |
| App.AppFractionalKeepsAll | src/app.ts:6-11 | with `LOG_LEVEL` readable and 2.5, every slot is kept, debug and trace included, contrary to the module documentation |
| Lib.LibText | src/lib.ts:65-82 | definition only: the text `"~[" + t + "] [" + TAG + "] [" + name + "] " + msg` |
| Lib.LibSlot | src/lib.ts:65-82 | whatever the timestamp and message, the slot function's text decodes, given the name, to its own slot and the resolved message |
| Lib.LibLevel | src/lib.ts:61-63 | the library level is within NONE..TRACE, and it is NONE or the permitted value read from the caller's variable |
| Lib.CreateTerminal | src/lib.ts:57-85 | the library terminal holds, in each slot kept at the level from the caller's variable with fallback NONE, the formatter for that slot and name, and nothing in the others |
| Lib.LibDefaultSilent | src/lib.ts:61-63 | with the variable missing, invalid or unreadable, no slot is kept |
| Lib.LibExcludesAbove | src/lib.ts:57-63 | with the caller's variable set to a level's number, exactly the slots above that level are excluded |
| Lib.LibTextIsAppText | src/lib.ts:65-82 | a library text is the app text of the same slot and timestamp whose message is `[` + name + `] ` + msg, with the name inserted unchanged |
| Lib.LibTextRoundTrip | src/lib.ts:65-82 | given the timestamp and the name, a library text decodes to its slot and its resolved message |
| Lib.ParseLibTextSound | src/lib.ts:65-82 | every text the library decoder accepts is exactly the library text of the slot and message it returns |

## Left out

- `Deno.permissions.query` and `Deno.env.get` (src/_common.ts:6, 9) are host calls. Their results are the `Env` input.
- JavaScript's `Number()` parsing (src/_common.ts:9) is not modelled. The parsed number is the input. As a result, some behaviour is not shown in the model: `""` converts to 0 (NONE), whitespace is trimmed, and `"Infinity"` converts to a value that the range check rejects.
- `Temporal.Now.instant()` and the missing `timeStamp` (src/_common.ts:49, src/app.ts:35) are the clock. The timestamp is an opaque string argument.
- `TextEncoder` (src/_common.ts:43, 48) is the `encode` function argument of `Common.Write`. UTF-8 itself is not modelled.
- `Deno.stdout.write` (src/_common.ts:53) is `Common.StdoutWrite`. It is known only by the byte count it returns. A sink that returns 0 is not modelled, and the source's loop would not end for one.
- Promises, `async`/`await` and the top-level await (src/types.ts:9, src/app.ts:51) are not modelled. A `Promise<string>` is the string it settles to, and a producer that returns a promise is a producer of the settled string.
- Common.Stringify: the model does not state that a producer runs exactly once. A producer is a pure function value in the model, so its call count cannot be observed.
- The factory slots are not composed with `Common.Write`. The section above explains why.
- Concurrent slot calls are not modelled. The source recommends not awaiting them (src/app.ts:40-41), and each `await Deno.stdout.write` yields (src/_common.ts:52-54), so the partial writes of two calls can interleave on the stream. `Common.Write` states what one call writes, not the order of bytes across calls.
- Errors thrown by a producer or by the sink are not modelled. The source has no handling of its own for them.
