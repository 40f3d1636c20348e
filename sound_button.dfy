/**
  The ring-mode cycler of the power widget's sound button. The button knows a fixed catalog
  of four ringers (silent, vibrate, sound, sound + vibrate), a user-configured cycle order of
  catalog indices, the catalog index that the device currently reflects and a position in the
  order. A click advances the position and commits the ringer found there to the audio
  services; a ringer-mode broadcast or a settings change re-reads the services and relocates
  the position.

  The pure part (the `Cycler` value and the functions over it) specifies the class
  `SoundButton`, whose methods work on fields and arrays as the widget does.
 */
module PowerWidget {
  import opened Wrappers
  import JavaInteger

  // ---------------------------------------------------------------------------
  // Ringers and their catalog
  // ---------------------------------------------------------------------------

  /** Ringer modes of the audio manager. */
  const RINGER_MODE_SILENT: int := 0
  const RINGER_MODE_VIBRATE: int := 1
  const RINGER_MODE_NORMAL: int := 2

  /** Length of the vibration that confirms a switch to a vibrating ringer, in milliseconds. */
  const VIBRATE_DURATION: int := 250

  /** A ringer: a ringer mode together with the vibrate-when-ringing flag. */
  datatype Ringer = Ringer(ringerMode: int, vibrateWhenRinging: bool)

  const SilentRinger := Ringer(RINGER_MODE_SILENT, false)
  const VibrateRinger := Ringer(RINGER_MODE_VIBRATE, true)
  const SoundRinger := Ringer(RINGER_MODE_NORMAL, false)
  const SoundVibrateRinger := Ringer(RINGER_MODE_NORMAL, true)

  /** The fixed catalog; the rest of the widget refers to ringers by their index in it. */
  const Catalog: seq<Ringer> := [SilentRinger, VibrateRinger, SoundRinger, SoundVibrateRinger]

  /**
    `Ringer.equals`: two silent ringers are equal, and so are two vibrating ones, whatever
    their flags (the hardware has no separate vibrate setting in those modes); any other pair
    is equal when mode and flag both agree.
   */
  predicate RingerEquals(a: Ringer, o: Ringer) {
    if o.ringerMode == RINGER_MODE_SILENT && a.ringerMode == RINGER_MODE_SILENT then true
    else if o.ringerMode == RINGER_MODE_VIBRATE && a.ringerMode == RINGER_MODE_VIBRATE then true
    else o.vibrateWhenRinging == a.vibrateWhenRinging && o.ringerMode == a.ringerMode
  }

  /** `Ringer.equals` is an equivalence relation. */
  lemma RingerEqualsIsEquivalence(a: Ringer, b: Ringer, c: Ringer)
    ensures RingerEquals(a, a)
    ensures RingerEquals(a, b) <==> RingerEquals(b, a)
    ensures RingerEquals(a, b) && RingerEquals(b, c) ==> RingerEquals(a, c)
  {
  }

  /** The equivalence is keyed on the mode alone for silent and vibrate, on mode and flag otherwise. */
  lemma RingerEqualsRule(a: Ringer, b: Ringer)
    ensures RingerEquals(a, b) <==>
              a.ringerMode == b.ringerMode &&
              (a.ringerMode == RINGER_MODE_SILENT || a.ringerMode == RINGER_MODE_VIBRATE ||
               a.vibrateWhenRinging == b.vibrateWhenRinging)
  {
  }

  // ---------------------------------------------------------------------------
  // Linear search
  // ---------------------------------------------------------------------------

  /** The first index of `s` whose element satisfies `p`, if there is one. */
  function FirstIndex<T>(s: seq<T>, p: T -> bool): (r: Option<nat>)
    ensures r.Some? ==> r.value < |s| && p(s[r.value])
    ensures r.Some? ==> forall j :: 0 <= j < r.value ==> !p(s[j])
    ensures r.None? ==> forall j :: 0 <= j < |s| ==> !p(s[j])
  {
    if |s| == 0 then None
    else if p(s[0]) then Some(0)
    else
      match FirstIndex(s[1..], p)
      case None => None
      case Some(k) => Some(k + 1)
  }

  // ---------------------------------------------------------------------------
  // Reading the audio services
  // ---------------------------------------------------------------------------

  /** The ringer the widget builds from a ringer-mode reading and the stored vibrate setting. */
  function Reading(ringerMode: int, vibrateSetting: int): Ringer {
    Ringer(ringerMode, vibrateSetting == 1)
  }

  /** The first catalog entry that `Ringer.equals` matches with the reading. */
  function CatalogIndex(reading: Ringer): (r: Option<nat>)
    ensures r.Some? ==> r.value < |Catalog|
  {
    FirstIndex(Catalog, (x: Ringer) => RingerEquals(x, reading))
  }

  /** Which catalog entry each reading resolves to. */
  lemma CatalogIndexTable(reading: Ringer)
    ensures CatalogIndex(reading) ==
              if reading.ringerMode == RINGER_MODE_SILENT then Some(0)
              else if reading.ringerMode == RINGER_MODE_VIBRATE then Some(1)
              else if reading.ringerMode == RINGER_MODE_NORMAL then
                (if reading.vibrateWhenRinging then Some(3) else Some(2))
              else None
  {
    var p := (x: Ringer) => RingerEquals(x, reading);
    assert p(Catalog[0]) <==> reading.ringerMode == RINGER_MODE_SILENT;
    assert p(Catalog[1]) <==> reading.ringerMode == RINGER_MODE_VIBRATE;
    assert p(Catalog[2]) <==> reading.ringerMode == RINGER_MODE_NORMAL && !reading.vibrateWhenRinging;
    assert p(Catalog[3]) <==> reading.ringerMode == RINGER_MODE_NORMAL && reading.vibrateWhenRinging;
  }

  // ---------------------------------------------------------------------------
  // The cycler state and the steps that change it
  // ---------------------------------------------------------------------------

  /**
    The widget's own state: the current catalog index (`mRingersIndex`), the cycle order
    (`mRingerValues`) and the position in it (`mRingerValuesIndex`).
   */
  datatype Cycler = Cycler(ringersIndex: int, ringerValues: seq<int>, ringerValuesIndex: nat)

  /** The order used when none is stored: every catalog entry, in catalog order. */
  const DefaultOrder: seq<int> := [0, 1, 2, 3]

  /** The state of a newly created button. */
  const InitialCycler := Cycler(2, DefaultOrder, 2)

  /** What every reachable state satisfies: a non-empty order and an index into the catalog. */
  predicate Wellformed(c: Cycler) {
    |c.ringerValues| > 0 && 0 <= c.ringersIndex < |Catalog|
  }

  /** `findCurrentState`: adopt the catalog index of the reading; keep the old one if none matches. */
  function Resync(c: Cycler, reading: Ringer): (r: Cycler)
    ensures r.ringerValues == c.ringerValues && r.ringerValuesIndex == c.ringerValuesIndex
    ensures r.ringersIndex == c.ringersIndex || 0 <= r.ringersIndex < |Catalog|
    ensures Wellformed(c) ==> Wellformed(r)
  {
    match CatalogIndex(reading)
    case Some(i) => c.(ringersIndex := i)
    case None => c
  }

  /** The order search of `updateState`: move to the first position holding the current index. */
  function Relocate(c: Cycler): (r: Cycler)
    ensures r.ringersIndex == c.ringersIndex && r.ringerValues == c.ringerValues
    ensures c.ringersIndex in c.ringerValues ==>
              r.ringerValuesIndex < |c.ringerValues| &&
              c.ringerValues[r.ringerValuesIndex] == c.ringersIndex &&
              c.ringersIndex !in c.ringerValues[..r.ringerValuesIndex]
    ensures c.ringersIndex !in c.ringerValues ==> r == c
  {
    match FirstIndex(c.ringerValues, (v: int) => v == c.ringersIndex)
    case Some(i) => c.(ringerValuesIndex := i)
    case None => c
  }

  /** `updateState`'s effect on the cycler: resynchronise, then relocate. */
  function Refresh(c: Cycler, reading: Ringer): (r: Cycler)
    ensures r.ringerValues == c.ringerValues
    ensures Wellformed(c) ==> Wellformed(r)
  {
    Relocate(Resync(c, reading))
  }

  /**
    How a click moves the position: one step on, and back to the start once it would pass
    the last position (also when the old position was already past it).
   */
  function NextPosition(pos: nat, len: nat): (r: nat)
    requires len > 0
    ensures r < len
    ensures pos < len ==> r == (pos + 1) % len
    ensures pos >= len ==> r == 0
  {
    var next := pos + 1;
    if next > len - 1 then 0 else next
  }

  /** The catalog index an order entry selects: entries past the catalog fall back to silent. */
  function TargetIndex(entry: int): (r: int)
    ensures entry >= 0 ==> 0 <= r < |Catalog|
    ensures entry < |Catalog| ==> r == entry
    ensures entry >= |Catalog| ==> r == 0
  {
    if entry > |Catalog| - 1 then 0 else entry
  }

  /** A click demands that the entry it lands on is not negative (the catalog access would fail). */
  predicate CanToggle(c: Cycler) {
    |c.ringerValues| > 0 &&
    c.ringerValues[NextPosition(c.ringerValuesIndex, |c.ringerValues|)] >= 0
  }

  /** `toggleState`'s effect on the cycler: advance the position and select the entry there. */
  function Toggled(c: Cycler): (r: Cycler)
    requires CanToggle(c)
    ensures r.ringerValues == c.ringerValues
    ensures r.ringerValuesIndex < |r.ringerValues|
    ensures 0 <= r.ringersIndex < |Catalog|
    ensures Wellformed(r)
  {
    var pos := NextPosition(c.ringerValuesIndex, |c.ringerValues|);
    Cycler(TargetIndex(c.ringerValues[pos]), c.ringerValues, pos)
  }

  predicate NonNegative(s: seq<int>) {
    forall i :: 0 <= i < |s| ==> s[i] >= 0
  }

  /** `n` clicks in a row, with no refresh in between. */
  function ToggledTimes(c: Cycler, n: nat): (r: Cycler)
    requires |c.ringerValues| > 0 && NonNegative(c.ringerValues)
    ensures r.ringerValues == c.ringerValues
    decreases n
  {
    if n == 0 then c else Toggled(ToggledTimes(c, n - 1))
  }

  // ---------------------------------------------------------------------------
  // Display
  // ---------------------------------------------------------------------------

  datatype Icon = StatSilent | StatVibrateOff | StatRingOn | StatRingVibrateOn

  datatype ButtonState = Enabled | Disabled

  datatype Display = Display(icon: Icon, state: ButtonState)

  /** The icon and state `updateState` shows for a catalog index; no change for any other value. */
  function DisplayOf(index: int): (d: Option<Display>)
    ensures d.Some? <==> 0 <= index < |Catalog|
  {
    if index == 0 then Some(Display(StatSilent, Disabled))
    else if index == 1 then Some(Display(StatVibrateOff, Disabled))
    else if index == 2 then Some(Display(StatRingOn, Enabled))
    else if index == 3 then Some(Display(StatRingVibrateOn, Enabled))
    else None
  }

  // ---------------------------------------------------------------------------
  // The stored order
  // ---------------------------------------------------------------------------

  /** The number of leading tokens that `Integer.valueOf` accepts. */
  function ParsedPrefix(tokens: seq<string>): (k: nat)
    ensures k <= |tokens|
    ensures forall i :: 0 <= i < k ==> JavaInteger.ParseInt(tokens[i]).Some?
    ensures k < |tokens| ==> JavaInteger.ParseInt(tokens[k]).None?
  {
    match FirstIndex(tokens, (t: string) => JavaInteger.ParseInt(t).None?)
    case None => |tokens|
    case Some(k) => k
  }

  /** Whether `updateSettings` completes, i.e. raises no `NumberFormatException`. */
  predicate SettingsParse(modes: Option<seq<string>>) {
    modes.None? || |modes.value| == 0 || ParsedPrefix(modes.value) == |modes.value|
  }

  /**
    The order `updateSettings` leaves behind for the stored tokens (`None` is a missing
    setting). Without tokens it is the default order. Otherwise a new zero-filled array with
    one entry per token is installed first, and then filled token by token until a token
    fails to parse; the entries from that token on stay 0.
   */
  function StoredOrder(modes: Option<seq<string>>): (order: seq<int>)
    ensures |order| > 0
    ensures modes.None? || |modes.value| == 0 ==> order == DefaultOrder
    ensures modes.Some? && |modes.value| > 0 ==> |order| == |modes.value|
  {
    if modes.None? || |modes.value| == 0 then DefaultOrder
    else
      var tokens := modes.value;
      var k := ParsedPrefix(tokens);
      seq(|tokens|, i requires 0 <= i < |tokens| =>
        if i < k then JavaInteger.ParseInt(tokens[i]).value else 0)
  }

  // ---------------------------------------------------------------------------
  // The audio services
  // ---------------------------------------------------------------------------

  /**
    A snapshot of the services outside the widget: the audio manager's ringer mode, the
    stored vibrate-when-ringing setting, and the vibrations requested so far (their durations).
   */
  datatype AudioState = AudioState(ringerMode: int, vibrateWhenRinging: int, vibrations: seq<int>)

  /** The reading `findCurrentState` takes from the services. */
  function ReadingOf(s: AudioState): Ringer {
    Reading(s.ringerMode, s.vibrateWhenRinging)
  }

  /** The services after `Ringer.execute`. */
  function AfterExecute(s: AudioState, ringer: Ringer): (r: AudioState)
    ensures r.vibrateWhenRinging == 0 || r.vibrateWhenRinging == 1
    ensures |r.vibrations| == |s.vibrations| + (if ringer.vibrateWhenRinging then 1 else 0)
    ensures r.vibrations[..|s.vibrations|] == s.vibrations
  {
    AudioState(
      ringer.ringerMode,
      if ringer.vibrateWhenRinging then 1 else 0,
      s.vibrations + (if ringer.vibrateWhenRinging then [VIBRATE_DURATION] else []))
  }

  /** The mutable audio manager, settings store and vibrator the widget talks to. */
  class AudioEnvironment {
    var ringerMode: int
    var vibrateWhenRinging: int
    var vibrations: seq<int>

    constructor (ringerMode: int, vibrateWhenRinging: int)
      ensures Snapshot() == AudioState(ringerMode, vibrateWhenRinging, [])
    {
      this.ringerMode := ringerMode;
      this.vibrateWhenRinging := vibrateWhenRinging;
      vibrations := [];
    }

    function Snapshot(): AudioState
      reads this
    {
      AudioState(ringerMode, vibrateWhenRinging, vibrations)
    }
  }

  /**
    `Ringer.execute`: request a confirming vibration if the ringer vibrates, store the
    vibrate-when-ringing flag as 1 or 0, and set the ringer mode.
   */
  method Execute(ringer: Ringer, env: AudioEnvironment)
    modifies env
    ensures env.Snapshot() == AfterExecute(old(env.Snapshot()), ringer)
  {
    if ringer.vibrateWhenRinging {
      env.vibrations := env.vibrations + [VIBRATE_DURATION];
    }
    env.vibrateWhenRinging := if ringer.vibrateWhenRinging then 1 else 0;
    env.ringerMode := ringer.ringerMode;
  }

  // ---------------------------------------------------------------------------
  // Properties of the cycler
  // ---------------------------------------------------------------------------

  /**
    `findCurrentState` resolves a silent reading to silent and a vibrate reading to vibrate
    whatever the stored flag, a normal reading to sound or sound + vibrate by the flag, and
    leaves the index alone for any other ringer mode.
   */
  lemma ResyncResolves(c: Cycler, ringerMode: int, vibrateSetting: int)
    ensures Resync(c, Reading(ringerMode, vibrateSetting)) ==
              if ringerMode == RINGER_MODE_SILENT then c.(ringersIndex := 0)
              else if ringerMode == RINGER_MODE_VIBRATE then c.(ringersIndex := 1)
              else if ringerMode == RINGER_MODE_NORMAL && vibrateSetting != 1 then c.(ringersIndex := 2)
              else if ringerMode == RINGER_MODE_NORMAL then c.(ringersIndex := 3)
              else c
  {
    CatalogIndexTable(Reading(ringerMode, vibrateSetting));
  }

  /** Refreshing twice from the same readings gives the state that refreshing once gives. */
  lemma RefreshIdempotent(c: Cycler, reading: Ringer)
    ensures Refresh(Refresh(c, reading), reading) == Refresh(c, reading)
  {
  }

  /** The button shows "enabled" exactly for the ringers that ring (normal ringer mode). */
  lemma DisplayEnabledIffRinging(index: int)
    requires 0 <= index < |Catalog|
    ensures DisplayOf(index).Some?
    ensures DisplayOf(index).value.state == Enabled <==> Catalog[index].ringerMode == RINGER_MODE_NORMAL
  {
  }

  /** Each catalog entry has an icon of its own. */
  lemma DisplayIconsDistinct(i: int, j: int)
    requires 0 <= i < |Catalog| && 0 <= j < |Catalog|
    ensures DisplayOf(i).value.icon == DisplayOf(j).value.icon ==> i == j
  {
  }

  /** After `k` clicks from position `pos`, the position is `pos + k`, wrapped once. */
  lemma {:induction false} ToggledTimesPosition(c: Cycler, k: nat)
    requires |c.ringerValues| > 0 && NonNegative(c.ringerValues)
    requires c.ringerValuesIndex < |c.ringerValues| && k <= |c.ringerValues|
    ensures ToggledTimes(c, k).ringerValuesIndex ==
              if c.ringerValuesIndex + k < |c.ringerValues| then c.ringerValuesIndex + k
              else c.ringerValuesIndex + k - |c.ringerValues|
  {
    if k > 0 {
      ToggledTimesPosition(c, k - 1);
    }
  }

  /** As many clicks as the order is long bring the position back to where it started. */
  lemma ToggleCycleReturns(c: Cycler)
    requires |c.ringerValues| > 0 && NonNegative(c.ringerValues)
    requires c.ringerValuesIndex < |c.ringerValues|
    ensures ToggledTimes(c, |c.ringerValues|).ringerValuesIndex == c.ringerValuesIndex
  {
    ToggledTimesPosition(c, |c.ringerValues|);
  }

  /** Reading the services back after `Ringer.execute` resolves to the ringer just committed. */
  lemma ExecuteReadsBack(s: AudioState, index: int)
    requires 0 <= index < |Catalog|
    ensures CatalogIndex(ReadingOf(AfterExecute(s, Catalog[index]))) == Some(index)
  {
  }

  predicate Distinct(s: seq<int>) {
    forall i, j :: 0 <= i < j < |s| ==> s[i] != s[j]
  }

  predicate InCatalog(s: seq<int>) {
    forall i :: 0 <= i < |s| ==> 0 <= s[i] < |Catalog|
  }

  /**
    With an order of distinct catalog indices, the refresh that follows a click confirms the
    state the click computed: the position advances by exactly one step.
   */
  lemma ClickConfirmed(c: Cycler, s: AudioState)
    requires CanToggle(c) && Distinct(c.ringerValues) && InCatalog(c.ringerValues)
    ensures var t := Toggled(c);
            Refresh(t, ReadingOf(AfterExecute(s, Catalog[t.ringersIndex]))) == t
  {
  }

  /**
    A repeated entry, or an entry past the catalog (which selects silent), can stall the
    cycle: from position 0 of [0, 0, 1] or of [0, 7, 1], a click selects silent again at
    position 1, the refresh moves back to position 0, and vibrate is never reached.
   */
  lemma CycleStalls(s: AudioState)
    ensures var c := Cycler(0, [0, 0, 1], 0);
            var t := Toggled(c);
            t.ringerValuesIndex == 1 &&
            Refresh(t, ReadingOf(AfterExecute(s, Catalog[t.ringersIndex]))) == c
    ensures var c := Cycler(0, [0, 7, 1], 0);
            var t := Toggled(c);
            t.ringerValuesIndex == 1 &&
            Refresh(t, ReadingOf(AfterExecute(s, Catalog[t.ringersIndex]))) == c
  {
  }

  /**
    A repeated entry, or one past the catalog, does not always stall the cycle: in [0, 1, 2, 0]
    the refresh after landing on the second 0 moves back to position 0 and the next click
    selects vibrate; in [1, 7, 2] the 7 selects silent, which the order does not hold, so the
    refresh keeps position 1 and the next click selects sound.
   */
  lemma CycleContinues(s: AudioState, s': AudioState)
    ensures var c := Cycler(2, [0, 1, 2, 0], 2);
            var t := Toggled(c);
            var u := Refresh(t, ReadingOf(AfterExecute(s, Catalog[t.ringersIndex])));
            t.ringerValuesIndex == 3 && t.ringersIndex == 0 &&
            u.ringerValuesIndex == 0 && CanToggle(u) && Toggled(u).ringersIndex == 1
    ensures var c := Cycler(1, [1, 7, 2], 0);
            var t := Toggled(c);
            var u := Refresh(t, ReadingOf(AfterExecute(s', Catalog[t.ringersIndex])));
            t.ringerValuesIndex == 1 && t.ringersIndex == 0 &&
            u.ringerValuesIndex == 1 && CanToggle(u) && Toggled(u).ringersIndex == 2
  {
  }

  /** A stored order with every token an integer is exactly the list of their values. */
  lemma StoredOrderParsed(tokens: seq<string>)
    requires |tokens| > 0 && SettingsParse(Some(tokens))
    ensures |StoredOrder(Some(tokens))| == |tokens|
    ensures forall i :: 0 <= i < |tokens| ==>
              JavaInteger.ParseInt(tokens[i]).Some? &&
              StoredOrder(Some(tokens))[i] == JavaInteger.ParseInt(tokens[i]).value
  {
  }

  /**
    A stored order with a token that is not an integer keeps the values before that token
    and zeroes from it on; the previous order is not kept.
   */
  lemma StoredOrderMalformed(tokens: seq<string>)
    requires !SettingsParse(Some(tokens))
    ensures var k := ParsedPrefix(tokens);
            var order := StoredOrder(Some(tokens));
            k < |tokens| && JavaInteger.ParseInt(tokens[k]).None? &&
            order[..k] == seq(k, i requires 0 <= i < k => JavaInteger.ParseInt(tokens[i]).value) &&
            forall i :: k <= i < |order| ==> order[i] == 0
  {
  }

  /** Concretely: the tokens "2", "x", "1" leave the order [2, 0, 0]. */
  lemma StoredOrderExample()
    ensures !SettingsParse(Some(["2", "x", "1"]))
    ensures StoredOrder(Some(["2", "x", "1"])) == [2, 0, 0]
  {
  }

  /** Storing an order as `Integer.toString` tokens and reading it back gives the same order. */
  lemma StoredOrderRoundTrip(order: seq<int>)
    requires |order| > 0
    requires forall i :: 0 <= i < |order| ==> JavaInteger.InRange(order[i])
    ensures var tokens := seq(|order|, i requires 0 <= i < |order| => JavaInteger.ToString(order[i]));
            SettingsParse(Some(tokens)) && StoredOrder(Some(tokens)) == order
  {
    var tokens := seq(|order|, i requires 0 <= i < |order| => JavaInteger.ToString(order[i]));
    forall i | 0 <= i < |order|
      ensures JavaInteger.ParseInt(tokens[i]) == Some(order[i])
    {
      JavaInteger.ParseToString(order[i]);
    }
  }

  // ---------------------------------------------------------------------------
  // The button
  // ---------------------------------------------------------------------------

  class SoundButton {
    const env: AudioEnvironment
    var ringersIndex: int
    var ringerValues: array<int>
    var ringerValuesIndex: nat
    /** The icon and state shown; `None` until this button has set them. */
    var icon: Option<Icon>
    var state: Option<ButtonState>

    ghost predicate Valid()
      reads this, ringerValues
    {
      Wellformed(State())
    }

    /** The cycler state held in the fields. */
    ghost function State(): Cycler
      reads this, ringerValues
    {
      Cycler(ringersIndex, ringerValues[..], ringerValuesIndex)
    }

    constructor (env: AudioEnvironment)
      ensures Valid() && fresh(ringerValues)
      ensures State() == InitialCycler
      ensures this.env == env && icon == None && state == None
    {
      this.env := env;
      ringersIndex := 2;
      ringerValues := new int[4] [0, 1, 2, 3];
      ringerValuesIndex := 2;
      icon, state := None, None;
    }

    /** `findCurrentState`: scan the catalog for the first ringer equal to the services' reading. */
    method FindCurrentState()
      requires Valid()
      modifies this`ringersIndex
      ensures Valid()
      ensures State() == Resync(old(State()), ReadingOf(env.Snapshot()))
    {
      var vibrateWhenRinging := env.vibrateWhenRinging == 1;
      var ringerMode := env.ringerMode;
      var ringer := Ringer(ringerMode, vibrateWhenRinging);
      for i := 0 to |Catalog|
        invariant forall j :: 0 <= j < i ==> !RingerEquals(Catalog[j], ringer)
        invariant ringersIndex == old(ringersIndex)
      {
        if RingerEquals(Catalog[i], ringer) {
          ringersIndex := i;
          break;
        }
      }
    }

    /** `updateState`: resynchronise, show the icon and state, and relocate the position. */
    method UpdateState()
      requires Valid()
      modifies this`ringersIndex, this`ringerValuesIndex, this`icon, this`state
      ensures Valid()
      ensures State() == Refresh(old(State()), ReadingOf(env.Snapshot()))
      ensures DisplayOf(ringersIndex).Some?
      ensures icon == Some(DisplayOf(ringersIndex).value.icon)
      ensures state == Some(DisplayOf(ringersIndex).value.state)
    {
      FindCurrentState();
      if ringersIndex == 0 {
        icon, state := Some(StatSilent), Some(Disabled);
      } else if ringersIndex == 1 {
        icon, state := Some(StatVibrateOff), Some(Disabled);
      } else if ringersIndex == 2 {
        icon, state := Some(StatRingOn), Some(Enabled);
      } else if ringersIndex == 3 {
        icon, state := Some(StatRingVibrateOn), Some(Enabled);
      }
      ghost var before := State();
      for i := 0 to ringerValues.Length
        invariant forall j :: 0 <= j < i ==> ringerValues[j] != ringersIndex
        invariant State() == before
      {
        if ringersIndex == ringerValues[i] {
          ringerValuesIndex := i;
          break;
        }
      }
    }

    /** `toggleState`: advance the position with wrap-around and commit the ringer it selects. */
    method ToggleState()
      requires Valid() && CanToggle(State())
      modifies this`ringersIndex, this`ringerValuesIndex, env
      ensures Valid()
      ensures State() == Toggled(old(State()))
      ensures env.Snapshot() == AfterExecute(old(env.Snapshot()), Catalog[ringersIndex])
    {
      ringerValuesIndex := ringerValuesIndex + 1;
      if ringerValuesIndex > ringerValues.Length - 1 {
        ringerValuesIndex := 0;
      }
      ringersIndex := ringerValues[ringerValuesIndex];
      if ringersIndex > |Catalog| - 1 {
        ringersIndex := 0;
      }
      var ringer := Catalog[ringersIndex];
      Execute(ringer, env);
    }

    /**
      `updateSettings`: install the order read from the stored tokens. Returns false when a
      token is not an integer, the point where `Integer.valueOf` throws.
     */
    method UpdateSettings(modes: Option<seq<string>>) returns (ok: bool)
      requires Valid()
      modifies this`ringerValues
      ensures Valid() && fresh(ringerValues)
      ensures ringerValues[..] == StoredOrder(modes)
      ensures ok == SettingsParse(modes)
    {
      if modes.None? || |modes.value| == 0 {
        ringerValues := new int[4] [0, 1, 2, 3];
        ok := true;
      } else {
        var tokens := modes.value;
        var values := new int[|tokens|](_ => 0);
        ringerValues := values;
        ok := true;
        var i := 0;
        while i < |tokens|
          invariant 0 <= i <= |tokens|
          invariant ok && ringerValues == values
          invariant forall j :: 0 <= j < i ==> JavaInteger.ParseInt(tokens[j]).Some?
          invariant forall j :: 0 <= j < i ==> values[j] == JavaInteger.ParseInt(tokens[j]).value
          invariant forall j :: i <= j < |tokens| ==> values[j] == 0
        {
          var v := JavaInteger.ParseInt(tokens[i]);
          if v.None? {
            ok := false;
            break;
          }
          values[i] := v.value;
          i := i + 1;
        }
        assert ParsedPrefix(tokens) == i;
      }
    }
  }
}
