# Sound button ring-mode cycler

A Dafny model of the ring-mode cycler inside the power widget's sound button
(`SoundButton` in the SystemUI package). The button has a fixed catalog of four ringers:
silent, vibrate, sound, and sound + vibrate. Each ringer is a ringer mode paired with a
vibrate-when-ringing flag. The button also keeps a user-configured cycle order of catalog
indices (`mRingerValues`), the catalog index the device currently reflects (`mRingersIndex`),
and a position in the order (`mRingerValuesIndex`).

- `findCurrentState` re-reads the audio manager's ringer mode and the stored vibrate setting.
  It scans the catalog with `Ringer.equals` and adopts the first match. If nothing matches,
  the index is kept.
- `updateState` shows an icon and an enabled/disabled state for the index. It then moves the
  position to the first entry of the order that holds the index. If no entry does, the
  position is kept.
- `toggleState` advances the position, wrapping to 0. It takes the entry there, clamps entries
  above 3 to 0, and commits the selected ringer through `Ringer.execute`.
- `updateSettings` installs the stored order. It falls back to `[0, 1, 2, 3]` when the setting
  is missing or empty.

Files:

- `sound_button.dfy` (module `PowerWidget`): ringers and the catalog, `Ringer.equals`, a
  linear search, a pure `Cycler` value with one function per step, the lemmas about them,
  and the classes `AudioEnvironment` and `SoundButton`. The methods of `SoundButton` work on
  fields and arrays as the Java code does. Each one is proved to change the `Cycler` view of
  its fields exactly as the matching function says.
- `java_integer.dfy` (module `JavaInteger`): `Integer.valueOf` / `Integer.parseInt` and
  `Integer.toString` on decimal text, with their round trip. The stored order is parsed with
  `Integer.valueOf`.
- `wrappers.dfy` (module `Wrappers`): `Option`. It stands for a null setting and for a parse
  that throws.

The audio services are modelled as the class `AudioEnvironment`:

- `ringerMode`: the `AudioManager` ringer mode, with SILENT = 0, VIBRATE = 1, NORMAL = 2.
- `vibrateWhenRinging`: the integer stored under `VIBRATE_WHEN_RINGING`, as `getInt` returns
  it with default 0.
- `vibrations`: the durations of the vibrations requested so far.

A `NumberFormatException` escaping `updateSettings` is modelled as the result `false`.

A click is normally followed by a refresh. Committing the ringer writes
`VIBRATE_WHEN_RINGING`, whose observer runs `updateSettings` and `updateState` (lines 49 and
142-145), and a changed ringer mode is broadcast to `onReceive` (lines 43 and 137-139). The
properties below assume that refresh. With distinct
entries in 0..3, that refresh confirms the click (`ClickConfirmed`). A repeated entry, or an
entry above 3 (which selects silent), can instead send the position back to the first
occurrence of the selected index. The cycle then stalls when the entry right after that
occurrence selects the same ringer again, as in [0, 0, 1] and [0, 7, 1] (`CycleStalls`). It
does not stall otherwise, as in [0, 1, 2, 0] and [1, 7, 2] (`CycleContinues`).

Behaviour of the code worth noting:

- An unmatched reading keeps the old index. It does not fall back to 0.
- An index missing from the order keeps the old position. It does not reset it to 0.
- A token that is not an integer does not preserve the previous order. A fresh zero-filled
  array is installed before parsing starts, and it is left partly filled.
- `toggleState` commits the ringer to the services itself. It does not return an intent.

## Model

| member | source | states |
|---|---|---|
| `PowerWidget.RingerEqualsIsEquivalence` | packages/SystemUI/src/com/android/systemui/statusbar/powerwidget/SoundButton.java:217-229 | `Ringer.equals` is reflexive, symmetric and transitive |
| `PowerWidget.RingerEqualsRule` | packages/SystemUI/src/com/android/systemui/statusbar/powerwidget/SoundButton.java:225-228 | two ringers are equal iff their modes agree and, unless that mode is silent or vibrate, their flags agree too |
| `PowerWidget.FirstIndex` | packages/SystemUI/src/com/android/systemui/statusbar/powerwidget/SoundButton.java:179-184 | the result is the first index whose element satisfies the test, or none when no element does |
| `PowerWidget.CatalogIndex` | packages/SystemUI/src/com/android/systemui/statusbar/powerwidget/SoundButton.java:178-184 | the catalog match of a reading, when there is one, is an index into the four-entry catalog |
| `PowerWidget.CatalogIndexTable` | packages/SystemUI/src/com/android/systemui/statusbar/powerwidget/SoundButton.java:52-58 | the catalog scan resolves a silent reading to 0 and a vibrate reading to 1, either flag; normal gives 2 without the flag and 3 with it; any other mode matches nothing |
| `PowerWidget.ResyncResolves` | packages/SystemUI/src/com/android/systemui/statusbar/powerwidget/SoundButton.java:172-185 | `findCurrentState` sets the index by that table, reading the flag as "setting == 1"; for any other ringer mode it leaves the whole state unchanged |
| `PowerWidget.Resync` | packages/SystemUI/src/com/android/systemui/statusbar/powerwidget/SoundButton.java:172-185 | the definition of `findCurrentState` that the lemmas are about: only the index changes, either to a catalog index or not at all, so a well-formed state stays well-formed |
| `PowerWidget.Relocate` | packages/SystemUI/src/com/android/systemui/statusbar/powerwidget/SoundButton.java:104-109 | if the index occurs in the order, the position becomes the first position holding it; otherwise the state is unchanged |
| `PowerWidget.Refresh` | packages/SystemUI/src/com/android/systemui/statusbar/powerwidget/SoundButton.java:84-110 | the definition of `updateState`'s effect on the state (resync, then relocate) that the lemmas are about: the order is kept and well-formedness is preserved |
| `PowerWidget.RefreshIdempotent` | packages/SystemUI/src/com/android/systemui/statusbar/powerwidget/SoundButton.java:84-110 | refreshing twice from the same readings gives the same state as refreshing once |
| `PowerWidget.DisplayOf` | packages/SystemUI/src/com/android/systemui/statusbar/powerwidget/SoundButton.java:86-103 | the definition of the switch that the display lemmas are about: a catalog index has a display, and any other value leaves icon and state unchanged |
| `PowerWidget.DisplayEnabledIffRinging` | packages/SystemUI/src/com/android/systemui/statusbar/powerwidget/SoundButton.java:86-103 | every catalog index has a display, and it is enabled exactly when that ringer's mode is normal (indices 2 and 3) |
| `PowerWidget.DisplayIconsDistinct` | packages/SystemUI/src/com/android/systemui/statusbar/powerwidget/SoundButton.java:86-103 | the four catalog indices show four different icons |
| `PowerWidget.NextPosition` | packages/SystemUI/src/com/android/systemui/statusbar/powerwidget/SoundButton.java:114-117 | the new position is always in range; from a valid position it is one step on modulo the length; from an out-of-range position it is 0 |
| `PowerWidget.TargetIndex` | packages/SystemUI/src/com/android/systemui/statusbar/powerwidget/SoundButton.java:118-121 | an entry inside the catalog is kept; an entry past it becomes 0 (silent); a non-negative entry always gives a catalog index |
| `PowerWidget.Toggled` | packages/SystemUI/src/com/android/systemui/statusbar/powerwidget/SoundButton.java:113-121 | a click keeps the order, puts the position in range and gives a catalog index in 0..3 |
| `PowerWidget.ToggledTimes` | packages/SystemUI/src/com/android/systemui/statusbar/powerwidget/SoundButton.java:113-121 | any number of clicks leave the order unchanged |
| `PowerWidget.ToggledTimesPosition` | packages/SystemUI/src/com/android/systemui/statusbar/powerwidget/SoundButton.java:114-117 | after k clicks (k at most the order's length) from a valid position p, the position is p + k, wrapped once past the end |
| `PowerWidget.ToggleCycleReturns` | packages/SystemUI/src/com/android/systemui/statusbar/powerwidget/SoundButton.java:114-117 | as many clicks as the order is long bring a valid position back to where it started |
| `PowerWidget.AfterExecute` | packages/SystemUI/src/com/android/systemui/statusbar/powerwidget/SoundButton.java:202-214 | the definition of `execute`'s effect on the services that the lemmas are about: the stored flag is 0 or 1, and earlier vibration requests are kept with at most one new one, added exactly when the ringer vibrates |
| `PowerWidget.ExecuteReadsBack` | packages/SystemUI/src/com/android/systemui/statusbar/powerwidget/SoundButton.java:202-214 | after `execute` commits catalog ringer i, the catalog scan of the services resolves back to i |
| `PowerWidget.ClickConfirmed` | packages/SystemUI/src/com/android/systemui/statusbar/powerwidget/SoundButton.java:104-125 | with an order of distinct indices in 0..3, the refresh that follows a click and its commit leaves the state the click computed |
| `PowerWidget.CycleContinues` | packages/SystemUI/src/com/android/systemui/statusbar/powerwidget/SoundButton.java:104-121 | with [0, 1, 2, 0] from sound, or [1, 7, 2] from vibrate, click then refresh still lets the next click reach a new ringer |
| `PowerWidget.CycleStalls` | packages/SystemUI/src/com/android/systemui/statusbar/powerwidget/SoundButton.java:104-121 | with the order [0, 0, 1] or [0, 7, 1], click then refresh returns to the starting state, so vibrate is never reached |
| `PowerWidget.ParsedPrefix` | packages/SystemUI/src/com/android/systemui/statusbar/powerwidget/SoundButton.java:166-168 | counts the leading tokens that parse: every token before the count parses, and the token at the count does not |
| `PowerWidget.StoredOrder` | packages/SystemUI/src/com/android/systemui/statusbar/powerwidget/SoundButton.java:157-170 | the order is never empty; with no setting or no tokens it is [0,1,2,3]; otherwise it has one entry per token |
| `PowerWidget.StoredOrderParsed` | packages/SystemUI/src/com/android/systemui/statusbar/powerwidget/SoundButton.java:164-168 | when every token is an integer, entry i of the order is the value of token i |
| `PowerWidget.StoredOrderMalformed` | packages/SystemUI/src/com/android/systemui/statusbar/powerwidget/SoundButton.java:165-168 | at a token that is not an integer, the entries before it hold the parsed values and the entries from it on are 0 |
| `PowerWidget.StoredOrderExample` | packages/SystemUI/src/com/android/systemui/statusbar/powerwidget/SoundButton.java:165-168 | the tokens "2", "x", "1" fail to parse and leave the order [2, 0, 0] |
| `PowerWidget.StoredOrderRoundTrip` | packages/SystemUI/src/com/android/systemui/statusbar/powerwidget/SoundButton.java:157-170 | an order of `int` values written as `Integer.toString` tokens reads back unchanged and without failure |
| `PowerWidget.Execute` | packages/SystemUI/src/com/android/systemui/statusbar/powerwidget/SoundButton.java:202-214 | the services afterwards hold the ringer's mode and the flag stored as 1 or 0; a 250 ms vibration is requested when the flag is set, and none otherwise |
| `PowerWidget.SoundButton.constructor` | packages/SystemUI/src/com/android/systemui/statusbar/powerwidget/SoundButton.java:60-65 | a new button has index 2, the identity order and position 2 |
| `PowerWidget.SoundButton.FindCurrentState` | packages/SystemUI/src/com/android/systemui/statusbar/powerwidget/SoundButton.java:172-185 | the catalog scan loop sets the state to `Resync` of the old state and the services' reading |
| `PowerWidget.SoundButton.UpdateState` | packages/SystemUI/src/com/android/systemui/statusbar/powerwidget/SoundButton.java:83-110 | the state becomes `Refresh` of the old state, and the icon and enabled state shown are those of the new index |
| `PowerWidget.SoundButton.ToggleState` | packages/SystemUI/src/com/android/systemui/statusbar/powerwidget/SoundButton.java:112-125 | the state becomes `Toggled` of the old state, and the services are updated by `execute` for the selected catalog ringer |
| `PowerWidget.SoundButton.UpdateSettings` | packages/SystemUI/src/com/android/systemui/statusbar/powerwidget/SoundButton.java:157-170 | a fresh array holds `StoredOrder` of the tokens; the result reports whether every token parsed; index and position are untouched |
| `JavaInteger.ParseInt` | packages/SystemUI/src/com/android/systemui/statusbar/powerwidget/SoundButton.java:167 | a parsed value fits in a 32-bit `int`, and the empty string never parses |
| `JavaInteger.ParseToString` | packages/SystemUI/src/com/android/systemui/statusbar/powerwidget/SoundButton.java:167 | parsing `Integer.toString(n)` gives back every `int` n |
| `JavaInteger.DigitsValueOfDigits` | packages/SystemUI/src/com/android/systemui/statusbar/powerwidget/SoundButton.java:167 | the decimal digits written for a natural number have that number as their value |
| `JavaInteger.ParseIntRejects` | packages/SystemUI/src/com/android/systemui/statusbar/powerwidget/SoundButton.java:167 | rejected: the empty string, a lone sign, a first character that is neither sign nor digit, and any later non-digit |

## Left out

- View lifecycle and UI: `setupButton`, the drawable resources and the other `mState` values. Icons are the enumeration `Icon`, and only enabled/disabled are modelled.
- `handleLongClick`: it only launches a settings activity.
- Event plumbing: `onReceive`, `onChangeUri`, `getObservedUris`, `getBroadcastIntentFilter` and the static filter and URI lists. These are broadcast and content-observer wiring. The model has the steps those handlers call, not the dispatch.
- `ensureAudioManager` and the `Log.e` diagnostic. The lazy lookup becomes the `env` handle given to the constructor, and logging has no effect on state.
- The Android services themselves: they are the fields of `AudioEnvironment`. The model keeps the three writes of `execute`, but only the order of vibration requests within `vibrations`, not the order of the writes across the three services.
- `parseStoredValue` and `update()` live in `PowerButton`, which is not part of this model. `updateSettings` takes the already-split token list, with `None` for a null list.
- What callers do after `updateSettings` throws is not modelled. The model returns `false` with the partly filled order installed.
- The initial `mIcon` and `mState` come from `PowerButton`. The model starts them as `None`.
- `Ringer.equals` against null or an object of another class (both give false): the model only compares two ringers.
- `JavaInteger.ParseInt`: a leading '+' is accepted as Java SE 7 and later do; the runtime this code ran on is not part of the model, and older runtimes reject '+'.
- `JavaInteger.ParseInt`: only ASCII digits are accepted. Java's `Character.digit` also accepts other Unicode decimal digits.
- `PowerWidget.SoundButton.ToggleState`: it requires the order entry at the new position to be non-negative. The Java code would throw `ArrayIndexOutOfBoundsException` at the catalog access, and the model does not include that failure.
