# KeyScroll action, modelled in Dafny

Touchégg's KeyScroll action turns a continuous gesture into keyboard
scrolling on X11. It is configured by a settings string
`SPEED=<n>:<name>+<name>+...`:

- The speed part sets one threshold for both axes: `100 - 2n` for `n` in
  1..10, and 30 otherwise. A larger threshold scrolls more slowly.
- Each modifier name (`Control`, `Shift`, `Super`, `Alt`, `AltGr`) adds a
  key that is held down for the whole gesture.
- The first other name is the key tapped for each upward tick, and the
  second is the key tapped for each downward tick.

While the gesture moves, each delta is truncated to whole units and added to
one of four accumulators (up, down, left, right). A loop then drains whole
thresholds from that accumulator. Every vertical threshold drained taps the
up or down keys once. Horizontal thresholds are drained the same way but send
nothing.

The project has three modules:

- `QStrings` (`qstrings.dfy`): the two QString operations the parser relies
  on.
  - `split` on one character keeps empty parts. It is proved inverse to
    joining.
  - `toInt(&ok)` becomes `ParseInt`, which returns an `Option`. It is proved
    to read back every 32-bit decimal.
- `KeyScrollSpec` (`key_scroll_spec.dfy`): what the action computes, as
  functions.
  - The speed and key-name reading of the settings.
  - `Drain`, the drain loop as a recursive function, proved equal to
    quotient and remainder.
  - Feeding many samples, proved proportional to total motion.
  - The key-event sequences the action sends.
- `KeyScrollAction` (`key_scroll.dfy`): the class `KeyScroll` itself.
  - It has the source's fields: two speeds, four accumulators and three key
    lists. It adds a `warned` flag for the logged warning and an `events`
    trace of the fake key events sent to the display.
  - Its methods have the source's loops, each proved against the functions
    of `KeyScrollSpec`.
  - `Valid()` is kept by every update: both speeds are positive, each
    accumulator is in `[0, speed)`, and the up and down lists hold at most
    one key each.

The display's name-to-key-code lookup (`XStringToKeysym` followed by
`XKeysymToKeycode`) is a function value that is passed to the constructor.
Every property holds for any lookup.

The gesture deltas arrive as floats, and the source casts them with `(int)`.
Here they are `real` values, and `Truncate` drops the fraction toward zero
exactly as that cast does.

### Malformed settings still set the keys

`SPEED=11:UP=a` gives the default threshold and the warning, but
KeyScroll.cpp:58-84 reads the key field whatever the error flag says, so
`UP=a` becomes the up key. `KeyScrollSpec.SettingsKeyNames` does not depend
on the error flag.

## Model

| member | source | states |
|---|---|---|
| `QStrings.Split` | src/touchegg/actions/implementation/KeyScroll.cpp:38 | QString::split on one character: at least one part always, and two or more exactly when the separator occurs |
| `QStrings.SplitPartsAreFree` | src/touchegg/actions/implementation/KeyScroll.cpp:38 | no part of a split contains the separator |
| `QStrings.JoinSplit` | src/touchegg/actions/implementation/KeyScroll.cpp:38 | split loses nothing: joining the parts with the separator gives the original string |
| `QStrings.SplitJoin` | src/touchegg/actions/implementation/KeyScroll.cpp:38 | splitting a join of separator-free parts gives exactly those parts back |
| `QStrings.ParseInt` | src/touchegg/actions/implementation/KeyScroll.cpp:46 | toInt(&ok) in base 10: a successful conversion is always a 32-bit int |
| `QStrings.ParseDecimal` | src/touchegg/actions/implementation/KeyScroll.cpp:46 | toInt succeeds on the decimal text of every 32-bit int and returns that int |
| `KeyScrollSpec.Threshold` | src/touchegg/actions/implementation/KeyScroll.cpp:47-49 | a SPEED of 1..10 gives a threshold of 80..98 |
| `KeyScrollSpec.SpeedSetting` | src/touchegg/actions/implementation/KeyScroll.cpp:38-55 | the accept/reject decision for the speed: a value is accepted only when the settings have exactly two ':'-fields, and it is always in 1..10 |
| `KeyScrollSpec.SettingsError` | src/touchegg/actions/implementation/KeyScroll.cpp:36-55 | the error flag, and with it the warning of lines 87-89: set exactly when both thresholds stay at the default 30 |
| `KeyScrollSpec.ConfiguredSpeed` | src/touchegg/actions/implementation/KeyScroll.cpp:29-55 | the threshold from any settings string is either the default 30 or in 80..98, and always positive, so every drain loop ends |
| `KeyScrollSpec.SpeedFromWellFormedSettings` | src/touchegg/actions/implementation/KeyScroll.cpp:38-55 | for `SPEED=<n>:<keys>`: the warning is logged iff n is outside 1..10; the threshold is 100 - 2n inside, 30 outside |
| `KeyScrollSpec.WrongFieldCountFallsBack` | src/touchegg/actions/implementation/KeyScroll.cpp:38-40 | settings that do not split into exactly two ':'-fields always give the warning and the default threshold |
| `KeyScrollSpec.IsHoldDownName` | src/touchegg/actions/implementation/KeyScroll.cpp:62-68 | the modifier test: `Control`, `Shift`, `Super`, `Alt` and `AltGr` |
| `KeyScrollSpec.HoldDownKeysym` | src/touchegg/actions/implementation/KeyScroll.cpp:62-69 | the keysym of a modifier (`<name>_L`, or `Alt_R` for `AltGr`) always names a sided key, ending in `_L` or `_R` |
| `KeyScrollSpec.HoldDownNames` | src/touchegg/actions/implementation/KeyScroll.cpp:61-71 | the hold-down output of the key loop: at most one keysym per name read |
| `KeyScrollSpec.ScrollKeyNames` | src/touchegg/actions/implementation/KeyScroll.cpp:73-83 | the names the loop counts with k: at most one per name read |
| `KeyScrollSpec.KeyNames` | src/touchegg/actions/implementation/KeyScroll.cpp:58 | the key field read as written: it needs a second ':'-field, and it yields at least one name |
| `KeyScrollSpec.NoKeyFieldWithoutColon` | src/touchegg/actions/implementation/KeyScroll.cpp:38-58 | the settings `SPEED=5` split into a single field, so the read of field 1 is out of range |
| `KeyScrollSpec.SettingsKeyNames` | src/touchegg/actions/implementation/KeyScroll.cpp:58 | the key names after the ':' when there is one (the same names KeyNames reads), none otherwise |
| `KeyScrollSpec.MissingColonFallsBack` | src/touchegg/actions/implementation/KeyScroll.cpp:36-89 | settings without ':' give the warning, the default threshold and no hold-down, up or down key |
| `KeyScrollSpec.ScrollKeyNamesAreNotModifiers` | src/touchegg/actions/implementation/KeyScroll.cpp:62-83 | a name that is not a modifier is the only kind that can become an up or down key |
| `KeyScrollSpec.UpKeyNames` | src/touchegg/actions/implementation/KeyScroll.cpp:73-78 | at most one up key, and never a modifier name |
| `KeyScrollSpec.DownKeyNames` | src/touchegg/actions/implementation/KeyScroll.cpp:73-81 | at most one down key, and never a modifier name |
| `KeyScrollSpec.Lookups` | src/touchegg/actions/implementation/KeyScroll.cpp:64-75 | one key code per name looked up |
| `KeyScrollSpec.HoldDownNamesAppend` | src/touchegg/actions/implementation/KeyScroll.cpp:61-71 | reading one more name appends its hold-down key at the end iff it is a modifier, so input order is kept |
| `KeyScrollSpec.ScrollKeyNamesAppend` | src/touchegg/actions/implementation/KeyScroll.cpp:73-83 | reading one more name appends it to the up/down candidates at the end iff it is not a modifier |
| `KeyScrollSpec.ReadOneMoreName` | src/touchegg/actions/implementation/KeyScroll.cpp:61-83 | one step of the key loop: a modifier extends the hold-down keys; otherwise the name becomes the up key when k is 0, the down key when k is 1, and k grows by one |
| `KeyScrollSpec.NamesPartition` | src/touchegg/actions/implementation/KeyScroll.cpp:61-84 | every name is classified exactly once, as a hold-down key or as an up/down candidate |
| `KeyScrollSpec.AltGrIsRightAlt` | src/touchegg/actions/implementation/KeyScroll.cpp:68-71 | `AltGr` holds down the key the name `Alt_R` stands for |
| `KeyScrollSpec.Truncate` | src/touchegg/actions/implementation/KeyScroll.cpp:119-124 | the `(int)` cast of a delta keeps its sign: positive deltas give a non-negative amount, others a non-positive one |
| `KeyScrollSpec.TruncateWithinOne` | src/touchegg/actions/implementation/KeyScroll.cpp:124-134 | the cast drops less than one unit, toward zero |
| `KeyScrollSpec.Drain` | src/touchegg/actions/implementation/KeyScroll.cpp:126-131 | the drain loop leaves the accumulator in [0, speed) and never larger than before |
| `KeyScrollSpec.DrainConserves` | src/touchegg/actions/implementation/KeyScroll.cpp:126-131 | residual + ticks * speed equals the accumulated space: no motion is lost or invented |
| `KeyScrollSpec.DrainTicksAtMost` | src/touchegg/actions/implementation/KeyScroll.cpp:126-131 | the drain loop counts at most one tick per unit it drains |
| `KeyScrollSpec.DrainIsDivMod` | src/touchegg/actions/implementation/KeyScroll.cpp:126-131 | the drain loop gives exactly the remainder and the quotient by the threshold |
| `KeyScrollSpec.FeedResidual` | src/touchegg/actions/implementation/KeyScroll.cpp:123-142 | the accumulator after a run of updates on one axis: never negative, never more than the motion fed, and below the threshold once any sample has been fed |
| `KeyScrollSpec.FeedTicks` | src/touchegg/actions/implementation/KeyScroll.cpp:123-142 | the ticks of a run of updates on one axis: never more than the motion fed |
| `KeyScrollSpec.FeedIsDivMod` | src/touchegg/actions/implementation/KeyScroll.cpp:123-142 | over any sequence of updates, ticks = total motion div threshold and the accumulator = total motion mod threshold |
| `KeyScrollSpec.ThreeSamplesOf45` | src/touchegg/actions/implementation/KeyScroll.cpp:123-131 | with threshold 30, three samples of 45 give 4 ticks and leave 15 |
| `KeyScrollSpec.LargerSpeedFewerTicks` | src/touchegg/actions/implementation/KeyScroll.h:45-53 | "more is slower": a larger threshold never gives more ticks for the same motion |
| `KeyScrollSpec.KeyEvents` | src/touchegg/actions/implementation/KeyScroll.cpp:111-113 | one event per hold-down key |
| `KeyScrollSpec.KeyEventsAt` | src/touchegg/actions/implementation/KeyScroll.cpp:111-113 | event i is for hold-down key i, in list order |
| `KeyScrollSpec.Taps` | src/touchegg/actions/implementation/KeyScroll.cpp:172-175 | a tick sends two events per key in its list |
| `KeyScrollSpec.TapsAt` | src/touchegg/actions/implementation/KeyScroll.cpp:179-182 | events 2i and 2i+1 of a tick press and then release key i |
| `KeyScrollSpec.Repeat` | src/touchegg/actions/implementation/KeyScroll.cpp:126-131 | the events of n ticks in a row: none when a tick sends nothing, at least n otherwise |
| `KeyScrollSpec.RepeatLength` | src/touchegg/actions/implementation/KeyScroll.cpp:126-131 | n ticks send n times the events of one tick |
| `KeyScrollAction.KeyScroll.Valid` | src/touchegg/actions/implementation/KeyScroll.h:48-75 | the object invariant: both speeds positive, each accumulator in [0, speed) of its axis (the state the loops of KeyScroll.cpp:126-161 leave), at most one up and one down key |
| `KeyScrollAction.KeyScroll.constructor` | src/touchegg/actions/implementation/KeyScroll.cpp:27-89 | the new action has both speeds at ConfiguredSpeed, the four accumulators at 0, the warning iff the speed part is rejected, and key lists read from the key field regardless of the warning; Valid holds |
| `KeyScrollAction.KeyScroll.ReadSpeed` | src/touchegg/actions/implementation/KeyScroll.cpp:36-55 | sets error iff SpeedSetting rejects the fields; on acceptance both speeds become Threshold(n), otherwise both keep their value |
| `KeyScrollAction.KeyScroll.ReadKeys` | src/touchegg/actions/implementation/KeyScroll.cpp:58-84 | the foreach loop leaves the hold-down, up and down lists as the lookups of the classified names |
| `KeyScrollAction.KeyScroll.ReadKey` | src/touchegg/actions/implementation/KeyScroll.cpp:61-83 | one iteration: the three lists and the count k move from reading `seen` to reading `seen + [key]` |
| `KeyScrollAction.KeyScroll.ReadHoldDownKey` | src/touchegg/actions/implementation/KeyScroll.cpp:62-71 | a modifier name appends the lookup of its keysym to the hold-down keys and leaves k unchanged |
| `KeyScrollAction.KeyScroll.ReadScrollKey` | src/touchegg/actions/implementation/KeyScroll.cpp:73-83 | any other name becomes the up key when k is 0, the down key when k is 1, and k grows by one |
| `KeyScrollAction.KeyScroll.ExecuteStart` | src/touchegg/actions/implementation/KeyScroll.cpp:110-115 | appends one press per hold-down key, in list order, and nothing else |
| `KeyScrollAction.KeyScroll.ExecuteUpdate` | src/touchegg/actions/implementation/KeyScroll.cpp:117-163 | only the accumulator the sign selects changes on each axis, to Drain(old + amount).residual; the events are that many down or up ticks; horizontal ticks send nothing; Valid is kept |
| `KeyScrollAction.KeyScroll.ScrollDown` | src/touchegg/actions/implementation/KeyScroll.cpp:123-131 | the down accumulator becomes the drain residual and sendKeysDown runs once per tick |
| `KeyScrollAction.KeyScroll.ScrollUp` | src/touchegg/actions/implementation/KeyScroll.cpp:133-141 | the up accumulator becomes the drain residual and sendKeysUp runs once per tick |
| `KeyScrollAction.KeyScroll.ScrollRight` | src/touchegg/actions/implementation/KeyScroll.cpp:145-152 | the right accumulator becomes the drain residual; no event is sent |
| `KeyScrollAction.KeyScroll.ScrollLeft` | src/touchegg/actions/implementation/KeyScroll.cpp:154-161 | the left accumulator becomes the drain residual; no event is sent |
| `KeyScrollAction.KeyScroll.ExecuteFinish` | src/touchegg/actions/implementation/KeyScroll.cpp:165-169 | appends one release per hold-down key, in the same order as the presses |
| `KeyScrollAction.KeyScroll.SendKeysUp` | src/touchegg/actions/implementation/KeyScroll.cpp:171-176 | appends a press and a release for each up key |
| `KeyScrollAction.KeyScroll.SendKeysDown` | src/touchegg/actions/implementation/KeyScroll.cpp:178-183 | appends a press and a release for each down key |

## Left out

- Window activation is not modelled. The `_NET_ACTIVE_WINDOW` client message (KeyScroll.cpp:91-102) and the `XFlush` calls are X11 I/O with no state in this model.
- The `XStringToKeysym` and `XKeysymToKeycode` lookups are not modelled. They become the `keycodeOf` parameter, and no property depends on what it returns.
- `XTestFakeKeyEvent` is recorded as an entry of the `events` trace. Its display and delay arguments are not modelled.
- The gesture attributes are not read from the `QHash`/`QVariant` map. The two deltas are parameters of `ExecuteUpdate`.
- The deltas are exact reals. Float rounding is not modelled, and neither is the undefined cast of a float outside the int range.
- `KeyScrollAction.KeyScroll.ExecuteUpdate` does not model 32-bit overflow in `+= (int)deltaY` or in `-= (int)deltaY`. The accumulators are unbounded integers, so a delta within a hundred units of the int limits, or a delta of exactly INT_MIN, is added without wrap-around.
- `QStrings.ParseInt` does not accept the leading and trailing whitespace that QString::toInt tolerates, and it does not accept digits other than ASCII '0'..'9'.
- `qWarning` output is recorded only as the `warned` flag.
- The `Action` base class and its stored settings and window are not part of this model.
- The unused mouse-button fields declared in KeyScroll.h:79-97 are not part of this model.
- `ReadSpeed`, `ReadKeys` and `ReadKey` are the constructor's speed section, key loop and loop body, each with its own contract. `ReadHoldDownKey` and `ReadScrollKey` are the branches of the loop body. `ScrollUp`, `ScrollDown`, `ScrollLeft` and `ScrollRight` are the four branches of executeUpdate, one while loop each.

## Findings

| source | as written | input that shows it | evidently intended | confidence | as-written member | corrected member |
|---|---|---|---|---|---|---|
| src/touchegg/actions/implementation/KeyScroll.cpp:58 | the key field is read with `mainStr.at(1)` even when the ':'-split gave a single field, an out-of-range QList access | `SPEED=5` (no ':') | settings without a key field are malformed settings like any other: default threshold, one warning, no keys | high, not executed | `KeyScrollSpec.NoKeyFieldWithoutColon` | `KeyScrollSpec.SettingsKeyNames` |

`KeyScrollSpec.KeyNames` keeps the source's read, with its need for a second field as a precondition. The constructor reads the keys through `SettingsKeyNames`, so any settings string is accepted. `MissingColonFallsBack` proves what the corrected constructor gives in that case.
