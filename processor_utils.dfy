/**
 * gmae/processor_utils.py: the command keys, the effect key table, the flash
 * timers and the effect-strength state the processor modulates.
 *
 * Two collaborators are parameters here.  `clamp` is imported by the source
 * from gmae/utils.py, whose shown text does not define it; the model assumes
 * only that it maps every value into [0, 1] (ClampsToUnit).  The draws of
 * `random()` and `uniform(a, b)` are passed in, with their ranges as
 * preconditions.
 */
module ProcessorUtils {
  import opened Wrappers
  import Utils

  /** `Key`: the commands the processor reads from the keyboard, in declaration order. */
  datatype Key =
    | Abort | UpdateShader | Fullscreen | Mute | ShowOriginal | PrintDebug
    | IncreaseGreenBlob | DecreaseGreenBlob
    | IncreaseEffectA | DecreaseEffectA
    | IncreaseEffectB | DecreaseEffectB
    | IncreaseEffectC | DecreaseEffectC
    | IncreaseEffectD | DecreaseEffectD
    | RandomizeAllEffects

  /** The GLFW key code each member is bound to. */
  function KeyCode(k: Key): int
  {
    match k
    case Abort => 293               // F4
    case UpdateShader => 294        // F5
    case Fullscreen => 300          // F11
    case Mute => 301                // F12
    case ShowOriginal => 297        // F8
    case PrintDebug => 290          // F1
    case IncreaseGreenBlob => 81    // Q
    case DecreaseGreenBlob => 65    // A
    case IncreaseEffectA => 87      // W
    case DecreaseEffectA => 83      // S
    case IncreaseEffectB => 69      // E
    case DecreaseEffectB => 68      // D
    case IncreaseEffectC => 82      // R
    case DecreaseEffectC => 70      // F
    case IncreaseEffectD => 84      // T
    case DecreaseEffectD => 71      // G
    case RandomizeAllEffects => 88  // X
  }

  /** Iteration order of `for key in Key`. */
  const AllKeys: seq<Key> := [
    Abort, UpdateShader, Fullscreen, Mute, ShowOriginal, PrintDebug,
    IncreaseGreenBlob, DecreaseGreenBlob,
    IncreaseEffectA, DecreaseEffectA, IncreaseEffectB, DecreaseEffectB,
    IncreaseEffectC, DecreaseEffectC, IncreaseEffectD, DecreaseEffectD,
    RandomizeAllEffects]

  /**
   * No two members share a key code, so the Python enum has no aliases and
   * `for key in Key` visits every member exactly once, in AllKeys order.
   */
  lemma KeyCodesDistinct()
    ensures forall k1: Key, k2: Key :: KeyCode(k1) == KeyCode(k2) ==> k1 == k2
    ensures |AllKeys| == 17
    ensures forall k: Key :: k in AllKeys
    ensures forall i, j :: 0 <= i < j < |AllKeys| ==> AllKeys[i] != AllKeys[j]
  {
    forall k: Key ensures k in AllKeys {
      var i := KeyCode(k);
      assert i in {293, 294, 300, 301, 297, 290, 81, 65, 87, 83, 69, 68, 82, 70, 84, 71, 88};
    }
  }

  /** `EffectId`: the modulated effects, in declaration order. */
  datatype EffectId = A | B | C | D | GreenBlob

  const AllEffects: seq<EffectId> := [A, B, C, D, GreenBlob]

  /** The set of every effect id. */
  function EveryEffect(): (s: set<EffectId>)
    ensures forall e: EffectId :: e in s
  {
    var s := {A, B, C, D, GreenBlob};
    assert forall e: EffectId :: e in s by {
      forall e: EffectId ensures e in s {
        assert e.A? || e.B? || e.C? || e.D? || e.GreenBlob?;
      }
    }
    s
  }

  /** One entry of `effect_keymap`: the effect a key changes and the sign of the step. */
  datatype Binding = Binding(id: EffectId, inc: int)

  /** `effect_keymap`. */
  const EffectKeymap: map<Key, Binding> := map[
    IncreaseEffectA := Binding(A, 1),
    DecreaseEffectA := Binding(A, -1),
    IncreaseEffectB := Binding(B, 1),
    DecreaseEffectB := Binding(B, -1),
    IncreaseEffectC := Binding(C, 1),
    DecreaseEffectC := Binding(C, -1),
    IncreaseEffectD := Binding(D, 1),
    DecreaseEffectD := Binding(D, -1),
    IncreaseGreenBlob := Binding(GreenBlob, 1),
    DecreaseGreenBlob := Binding(GreenBlob, -1)]

  /** The keys of `effect_keymap` that change effect `e`. */
  function KeysFor(e: EffectId): set<Key>
  {
    set k | k in EffectKeymap && EffectKeymap[k].id == e
  }

  /** Every effect is bound to exactly two keys, one stepping up and one stepping down. */
  lemma KeymapBindsEachEffectTwice(e: EffectId)
    ensures |KeysFor(e)| == 2
    ensures exists up, down ::
      KeysFor(e) == {up, down} && EffectKeymap[up].inc == 1 && EffectKeymap[down].inc == -1
  {
    KeysForEffect(e);
    assert IncreaseKey(e) != DecreaseKey(e);
  }

  /** The keys bound to `e` are its step-up and its step-down key. */
  lemma KeysForEffect(e: EffectId)
    ensures KeysFor(e) == {IncreaseKey(e), DecreaseKey(e)}
  {
    forall k ensures k in KeysFor(e) <==> k == IncreaseKey(e) || k == DecreaseKey(e) {
    }
  }

  /** Every binding steps by one, up or down. */
  lemma KeymapStepsByOne()
    ensures forall k :: k in EffectKeymap ==> EffectKeymap[k].inc in {1, -1}
  {
  }

  /** The key that steps effect `e` up. */
  function IncreaseKey(e: EffectId): Key
  {
    match e
    case A => IncreaseEffectA
    case B => IncreaseEffectB
    case C => IncreaseEffectC
    case D => IncreaseEffectD
    case GreenBlob => IncreaseGreenBlob
  }

  /** The key that steps effect `e` down. */
  function DecreaseKey(e: EffectId): Key
  {
    match e
    case A => DecreaseEffectA
    case B => DecreaseEffectB
    case C => DecreaseEffectC
    case D => DecreaseEffectD
    case GreenBlob => DecreaseGreenBlob
  }

  /** The command keys are not in `effect_keymap`. */
  lemma CommandKeysAreUnbound()
    ensures Abort !in EffectKeymap && UpdateShader !in EffectKeymap
    ensures Fullscreen !in EffectKeymap && Mute !in EffectKeymap
    ensures ShowOriginal !in EffectKeymap && PrintDebug !in EffectKeymap
    ensures RandomizeAllEffects !in EffectKeymap
  {
  }

  /** `LoopState` of this file: four command keys and the compiling flag. */
  datatype LoopState = LoopState(
    f5Pressed: bool, f8Pressed: bool, f11Pressed: bool, f12Pressed: bool, compiling: bool)

  /** `LoopState()` with its field defaults. */
  function DefaultLoopState(): (s: LoopState)
    ensures !s.f5Pressed && !s.f8Pressed && !s.f11Pressed && !s.f12Pressed
    ensures !s.compiling
  {
    LoopState(false, false, false, false, false)
  }

  /**
   * `LoopState.read(processor)`: `pressed` holds the keys for which
   * `processor.key_pressed` answers true and `info` is `processor.info`.
   */
  function ReadLoopState(pressed: set<Key>, info: Utils.TitleInfo): (s: LoopState)
    reads info
    ensures s.f5Pressed <==> UpdateShader in pressed
    ensures s.f8Pressed <==> ShowOriginal in pressed
    ensures s.f11Pressed <==> Fullscreen in pressed
    ensures s.f12Pressed <==> Mute in pressed
    ensures s.compiling == info.isCompiling
  {
    LoopState(UpdateShader in pressed, ShowOriginal in pressed, Fullscreen in pressed,
              Mute in pressed, info.isCompiling)
  }

  /** `Rect`: a window position and size. */
  datatype Rect = Rect(x: int, y: int, width: int, height: int)

  /** `Rect.unpack`: the fields in declaration order, so they rebuild the same rectangle. */
  function Unpack(r: Rect): (t: (int, int, int, int))
    ensures Rect(t.0, t.1, t.2, t.3) == r
  {
    (r.x, r.y, r.width, r.height)
  }

  // ----- flash timers -----

  const MinSecondsBetweenFlashes: real := 20.0
  const MaxSecondsBetweenFlashes: real := 90.0
  const MinSecondsFlashDuration: real := 3.0
  const MaxSecondsFlashDuration: real := 50.0

  /** `EffectFlash`: seconds until the flash and how long it lasts. */
  datatype EffectFlash = EffectFlash(remainingSec: real, durationSec: real)

  /** The two `uniform` draws one `EffectFlash()` makes, in order. */
  datatype FlashDraw = FlashDraw(gap: real, duration: real)

  /** The ranges `uniform` draws from in `EffectFlash.__init__`. */
  predicate DrawInRange(d: FlashDraw)
  {
    && MinSecondsBetweenFlashes <= d.gap <= MaxSecondsBetweenFlashes
    && MinSecondsFlashDuration <= d.duration <= MaxSecondsFlashDuration
  }

  /** A timer as `EffectFlash()` leaves it. */
  predicate FreshFlash(f: EffectFlash)
  {
    && MinSecondsBetweenFlashes <= f.remainingSec <= MaxSecondsBetweenFlashes
    && MinSecondsFlashDuration <= f.durationSec <= MaxSecondsFlashDuration
  }

  /** `EffectFlash()`: a new timer, built from its two draws. */
  function NewFlash(d: FlashDraw): (f: EffectFlash)
    requires DrawInRange(d)
    ensures FreshFlash(f)
    ensures f.remainingSec == d.gap && f.durationSec == d.duration
    ensures !IsOver(f) && !InQuietWindow(f)
  {
    EffectFlash(d.gap, d.duration)
  }

  /** `is_over`: the timer has run more than its duration past zero. */
  predicate IsOver(f: EffectFlash)
    ensures IsOver(f) ==> !InQuietWindow(f)
    ensures IsOver(f) && f.durationSec >= 0.0 ==> f.remainingSec < 0.0
  {
    f.remainingSec < -f.durationSec
  }

  /** The window `0 >= remaining_sec >= -duration_sec` tested by `current_value`. */
  predicate InQuietWindow(f: EffectFlash)
  {
    0.0 >= f.remainingSec >= -f.durationSec
  }

  /**
   * The value of `current_value`: exactly zero, or `exp(-x * x)` for the
   * recorded `x`; the exponential itself is not computed.
   */
  datatype FlashValue = Zero | Bell(x: real)

  /**
   * `current_value`: zero inside the window `[-duration_sec, 0]` of
   * `remaining_sec`, and `exp(-x * x)` with `x = -remaining_sec / (2 * duration_sec)`
   * everywhere else.
   */
  function CurrentValue(f: EffectFlash): (v: FlashValue)
    requires f.durationSec > 0.0
    ensures v == Zero <==> InQuietWindow(f)
    ensures v.Bell? ==> v.x * (2.0 * f.durationSec) == -f.remainingSec
  {
    if InQuietWindow(f) then Zero else Bell(-f.remainingSec / (2.0 * f.durationSec))
  }

  /**
   * A timer that is over lies outside the zero window, so its value is the
   * exponential branch, as is that of a timer not yet due.
   */
  lemma OverFlashIsNotQuiet(f: EffectFlash)
    requires f.durationSec > 0.0
    requires IsOver(f) || f.remainingSec > 0.0
    ensures CurrentValue(f).Bell?
  {
  }

  /** A freshly drawn timer is due in the future: not over, value on the exponential branch. */
  lemma NewFlashIsPending(d: FlashDraw)
    requires DrawInRange(d)
    ensures !IsOver(NewFlash(d))
    ensures CurrentValue(NewFlash(d)).Bell?
    ensures CurrentValue(NewFlash(d)).x < 0.0
  {
    var f := NewFlash(d);
    assert CurrentValue(f).x * (2.0 * f.durationSec) == -f.remainingSec;
  }

  // ----- effect strengths -----

  /** `step_size` in `change`. */
  const StepSize: real := 0.1

  /** What the model assumes of `clamp`: every result lies in [0, 1]. */
  ghost predicate ClampsToUnit(clamp: real -> real)
  {
    forall x :: 0.0 <= clamp(x) <= 1.0
  }

  /** Every strength lies in [0, 1]. */
  ghost predicate InUnit(strength: map<EffectId, real>)
  {
    forall e :: e in strength ==> 0.0 <= strength[e] <= 1.0
  }

  /** Every draw is a value `random()` can return: in [0, 1). */
  ghost predicate RandomDraws(draws: map<EffectId, real>)
  {
    forall e :: e in draws ==> 0.0 <= draws[e] < 1.0
  }

  /**
   * The strengths after `change(id, inc)`: an effect seen for the first time
   * is armed at full strength whatever the sign; a known one moves one step
   * and is clamped.  No other entry changes.
   */
  function Changed(strength: map<EffectId, real>, id: EffectId, inc: int, clamp: real -> real)
    : (s: map<EffectId, real>)
    requires ClampsToUnit(clamp)
    ensures s.Keys == strength.Keys + {id}
    ensures id !in strength ==> s[id] == 1.0
    ensures id in strength ==> s[id] == clamp(strength[id] + inc as real * StepSize)
    ensures 0.0 <= s[id] <= 1.0
    ensures forall e :: e in strength && e != id ==> s[e] == strength[e]
  {
    if id !in strength then strength[id := 1.0]
    else strength[id := clamp(strength[id] + inc as real * StepSize)]
  }

  /** The strengths after `randomize_amounts`: each key gets its own draw. */
  function Randomized(strength: map<EffectId, real>, draws: map<EffectId, real>)
    : (s: map<EffectId, real>)
    requires strength.Keys <= draws.Keys
    ensures s.Keys == strength.Keys
    ensures forall e :: e in s ==> s[e] == draws[e]
  {
    map e | e in strength :: draws[e]
  }

  /** Randomizing keeps every strength in [0, 1), hence in [0, 1]. */
  lemma RandomizedInUnit(strength: map<EffectId, real>, draws: map<EffectId, real>)
    requires strength.Keys <= draws.Keys
    requires RandomDraws(draws)
    ensures InUnit(Randomized(strength, draws))
    ensures forall e :: e in strength ==> Randomized(strength, draws)[e] < 1.0
  {
  }

  /** One turn of the `for key in Key` loop of `handle_input`. */
  function KeyStep(strength: map<EffectId, real>, key: Key, pressed: set<Key>, clamp: real -> real)
    : (s: map<EffectId, real>)
    requires ClampsToUnit(clamp)
    ensures key !in EffectKeymap || key !in pressed ==> s == strength
    ensures key in EffectKeymap && key in pressed ==>
      s.Keys == strength.Keys + {EffectKeymap[key].id} &&
      forall e :: e in strength && e != EffectKeymap[key].id ==> s[e] == strength[e]
    ensures InUnit(strength) ==> InUnit(s)
  {
    if key in EffectKeymap && key in pressed then
      Changed(strength, EffectKeymap[key].id, EffectKeymap[key].inc, clamp)
    else
      strength
  }

  /** The strengths after the loop has visited `keys` in order. */
  function ApplyKeys(strength: map<EffectId, real>, keys: seq<Key>, pressed: set<Key>, clamp: real -> real)
    : (s: map<EffectId, real>)
    requires ClampsToUnit(clamp)
    ensures strength.Keys <= s.Keys
    ensures (forall k :: k in keys ==> k !in EffectKeymap || k !in pressed) ==> s == strength
  {
    if keys == [] then strength
    else KeyStep(ApplyKeys(strength, keys[..|keys| - 1], pressed, clamp), keys[|keys| - 1], pressed, clamp)
  }

  /** Visiting one more key applies that key's step to the strengths so far. */
  lemma ApplyKeysOneMore(strength: map<EffectId, real>, keys: seq<Key>, i: nat, pressed: set<Key>, clamp: real -> real)
    requires ClampsToUnit(clamp) && i < |keys|
    ensures ApplyKeys(strength, keys[..i + 1], pressed, clamp) ==
      KeyStep(ApplyKeys(strength, keys[..i], pressed, clamp), keys[i], pressed, clamp)
  {
    assert keys[..i + 1][..i] == keys[..i];
  }

  /** The effects the pressed step keys among `keys` touch. */
  function TouchedEffects(keys: seq<Key>, pressed: set<Key>): set<EffectId>
  {
    set i | 0 <= i < |keys| && keys[i] in EffectKeymap && keys[i] in pressed :: EffectKeymap[keys[i]].id
  }

  /**
   * Applying the pressed step keys keeps every strength in [0, 1], adds
   * exactly the touched effects to the key set and leaves every other
   * effect's strength as it was.
   */
  lemma {:induction false} ApplyKeysFacts(
    strength: map<EffectId, real>, keys: seq<Key>, pressed: set<Key>, clamp: real -> real)
    requires ClampsToUnit(clamp)
    ensures InUnit(strength) ==> InUnit(ApplyKeys(strength, keys, pressed, clamp))
    ensures ApplyKeys(strength, keys, pressed, clamp).Keys == strength.Keys + TouchedEffects(keys, pressed)
    ensures forall e :: e in strength && e !in TouchedEffects(keys, pressed) ==>
      ApplyKeys(strength, keys, pressed, clamp)[e] == strength[e]
  {
    if keys != [] {
      ApplyKeysFacts(strength, keys[..|keys| - 1], pressed, clamp);
      TouchedEffectsOfLastKey(keys, pressed);
    }
  }

  /** The effects `keys` touch are those its front touches, plus the last key's. */
  lemma TouchedEffectsOfLastKey(keys: seq<Key>, pressed: set<Key>)
    requires keys != []
    ensures var last := keys[|keys| - 1];
      TouchedEffects(keys, pressed) ==
        TouchedEffects(keys[..|keys| - 1], pressed) +
        (if last in EffectKeymap && last in pressed then {EffectKeymap[last].id} else {})
  {
    var front := keys[..|keys| - 1];
    var last := keys[|keys| - 1];
    forall e ensures e in TouchedEffects(keys, pressed) <==>
      e in TouchedEffects(front, pressed) ||
      (last in EffectKeymap && last in pressed && e == EffectKeymap[last].id)
    {
      if e in TouchedEffects(keys, pressed) {
        var i :| 0 <= i < |keys| && keys[i] in EffectKeymap && keys[i] in pressed && EffectKeymap[keys[i]].id == e;
        if i < |keys| - 1 {
          assert front[i] == keys[i];
        }
      }
      if e in TouchedEffects(front, pressed) {
        var i :| 0 <= i < |front| && front[i] in EffectKeymap && front[i] in pressed && EffectKeymap[front[i]].id == e;
        assert keys[i] == front[i];
      }
      if last in EffectKeymap && last in pressed && e == EffectKeymap[last].id {
        assert keys[|keys| - 1] == last;
      }
    }
  }

  /**
   * `EffectsState`: a strength and a pending flash per effect, both kept as
   * dictionaries the methods update in place.
   */
  class EffectsState {
    var strength: map<EffectId, real>
    var nextFlash: map<EffectId, EffectFlash>

    /** Strengths stay in [0, 1] and every stored timer is as `EffectFlash()` made it. */
    ghost predicate Valid()
      reads this
    {
      && InUnit(strength)
      && forall e :: e in nextFlash ==> FreshFlash(nextFlash[e])
    }

    /** `EffectsState()`: both dictionaries empty. */
    constructor ()
      ensures Valid()
      ensures strength == map[] && nextFlash == map[]
    {
      strength := map[];
      nextFlash := map[];
    }

    /**
     * `EffectsState.random()`: every effect starts at 0 and is then
     * randomized; no flash is scheduled yet.
     */
    constructor Random(draws: map<EffectId, real>)
      requires EveryEffect() <= draws.Keys
      requires RandomDraws(draws)
      ensures Valid()
      ensures strength.Keys == EveryEffect()
      ensures forall e :: e in strength ==> strength[e] == draws[e]
      ensures nextFlash == map[]
    {
      strength := map e | e in EveryEffect() :: 0.0;
      nextFlash := map[];
      new;
      RandomizeAmounts(draws);
    }

    /** `randomize_amounts`: every present effect gets a new `random()` draw. */
    method RandomizeAmounts(draws: map<EffectId, real>)
      requires strength.Keys <= draws.Keys
      requires RandomDraws(draws)
      requires Valid()
      modifies this
      ensures Valid()
      ensures strength == Randomized(old(strength), draws)
      ensures nextFlash == old(nextFlash)
    {
      var todo := strength.Keys;
      while todo != {}
        invariant todo <= strength.Keys
        invariant strength.Keys == old(strength).Keys
        invariant forall e :: e in strength && e !in todo ==> strength[e] == draws[e]
        invariant forall e :: e in todo ==> strength[e] == old(strength)[e]
        invariant nextFlash == old(nextFlash)
        decreases todo
      {
        var e :| e in todo;
        strength := strength[e := draws[e]];
        todo := todo - {e};
      }
      RandomizedInUnit(old(strength), draws);
    }

    /** `change(id, inc)`. */
    method Change(id: EffectId, inc: int, clamp: real -> real)
      requires ClampsToUnit(clamp)
      requires Valid()
      modifies this
      ensures Valid()
      ensures strength == Changed(old(strength), id, inc, clamp)
      ensures nextFlash == old(nextFlash)
    {
      if id !in strength {
        strength := strength[id := 1.0];
      } else {
        strength := strength[id := clamp(strength[id] + inc as real * StepSize)];
      }
    }

    /**
     * `handle_input`: `pressed` is the set of keys `processor.key_pressed`
     * reports.  With the randomize key down only `randomize_amounts` runs;
     * otherwise every pressed step key applies its `change`, in key order.
     */
    method HandleInput(pressed: set<Key>, draws: map<EffectId, real>, clamp: real -> real)
      requires ClampsToUnit(clamp)
      requires RandomizeAllEffects in pressed ==> strength.Keys <= draws.Keys && RandomDraws(draws)
      requires Valid()
      modifies this
      ensures Valid()
      ensures RandomizeAllEffects in pressed ==> strength == Randomized(old(strength), draws)
      ensures RandomizeAllEffects !in pressed ==> strength == ApplyKeys(old(strength), AllKeys, pressed, clamp)
      ensures nextFlash == old(nextFlash)
    {
      if RandomizeAllEffects in pressed {
        RandomizeAmounts(draws);
        return;
      }
      var i := 0;
      while i < |AllKeys|
        invariant 0 <= i <= |AllKeys|
        invariant Valid()
        invariant strength == ApplyKeys(old(strength), AllKeys[..i], pressed, clamp)
        invariant nextFlash == old(nextFlash)
      {
        var key := AllKeys[i];
        if key in EffectKeymap && key in pressed {
          var binding := EffectKeymap[key];
          Change(binding.id, binding.inc, clamp);
        }
        ApplyKeysOneMore(old(strength), AllKeys, i, pressed, clamp);
        i := i + 1;
      }
      assert AllKeys[..|AllKeys|] == AllKeys;
    }

    /**
     * `choose_next_flash(effect_id)`: a new timer for that effect, or with
     * None one for every effect, in `EffectId` order.  Strengths are untouched.
     */
    method ChooseNextFlash(effectId: Option<EffectId>, draws: map<EffectId, FlashDraw>)
      requires effectId.Some? ==> effectId.value in draws && DrawInRange(draws[effectId.value])
      requires effectId.None? ==> EveryEffect() <= draws.Keys && forall e :: e in draws ==> DrawInRange(draws[e])
      requires Valid()
      modifies this
      ensures Valid()
      ensures effectId.Some? ==> nextFlash == old(nextFlash)[effectId.value := NewFlash(draws[effectId.value])]
      ensures effectId.None? ==> nextFlash == map e | e in EveryEffect() :: NewFlash(draws[e])
      ensures strength == old(strength)
      decreases if effectId.None? then 1 else 0
    {
      if effectId.None? {
        var i := 0;
        while i < |AllEffects|
          invariant 0 <= i <= |AllEffects|
          invariant Valid()
          invariant forall j :: 0 <= j < i ==>
            AllEffects[j] in nextFlash && nextFlash[AllEffects[j]] == NewFlash(draws[AllEffects[j]])
          invariant strength == old(strength)
        {
          ChooseNextFlash(Some(AllEffects[i]), draws);
          i := i + 1;
        }
        forall e: EffectId ensures e in nextFlash && nextFlash[e] == NewFlash(draws[e]) {
          assert e == AllEffects[0] || e == AllEffects[1] || e == AllEffects[2]
            || e == AllEffects[3] || e == AllEffects[4];
        }
        return;
      }
      nextFlash := nextFlash[effectId.value := NewFlash(draws[effectId.value])];
    }
  }
}
