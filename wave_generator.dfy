/**
 * `WaveGenerator`: a sparse table of voices keyed by an integer id, each an
 * oscillator feeding its own gain stage, all summed on one master gain bus.
 *
 * The audio backend is abstract. An audio parameter is a record of its
 * instantaneous `value` (what the guards of `playWave` and `stopWave` read),
 * the `target` of the last ramp commanded and that ramp's duration; scheduling
 * a ramp records the target, and `Settle` stands for the backend completing it.
 */
module WaveGen {
  import opened Wrappers

  /** `ATTACK_TIME`, in seconds. */
  const ATTACK_TIME: real := 0.01
  /** `RELEASE_TIME`, in seconds. */
  const RELEASE_TIME: real := 0.1

  /** An audio parameter: its current value and the ramp last scheduled on it. */
  datatype Param = Param(value: real, target: real, rampTime: real)

  /** One entry of `this.oscillators`: its gain and the frequency last set (None: never set). */
  datatype Voice = Voice(gain: Param, frequency: Option<real>)

  /**
   * A property key used to index `this.oscillators`: an integer id, or the
   * oscillator node object itself, which never names an entry of the table.
   */
  datatype Key = Index(id: int) | NodeObject

  type Table = map<int, Voice>

  /**
   * `cancelAndHoldAtTime`, `setValueAtTime(gain.value)` and
   * `linearRampToValueAtTime(target)`: the ramp starts from the current value.
   */
  function RampGain(v: Voice, target: real, time: real): (r: Voice)
    ensures r.gain.value == v.gain.value && r.frequency == v.frequency
    ensures r.gain.target == target && r.gain.rampTime == time
  {
    v.(gain := Param(v.gain.value, target, time))
  }

  /** The voices whose last ramp heads to full gain. */
  function Sounding(t: Table): set<int> {
    set id | id in t && t[id].gain.target == 1.0
  }

  /** The voice `id`, if present, has finished its last ramp. */
  predicate SettledAt(t: Table, id: int) {
    id in t ==> t[id].gain.value == t[id].gain.target
  }

  /** Every gain lies in [0, 1] and every ramp heads to 0 or to 1. */
  predicate GainsInRange(t: Table) {
    forall id :: id in t ==> 0.0 <= t[id].gain.value <= 1.0 && (t[id].gain.target == 0.0 || t[id].gain.target == 1.0)
  }

  /**
   * Whether `playWave(id)` acts: the entry exists and its gain is not already
   * 1. For a settled voice, that is exactly when it is not sounding.
   */
  predicate PlayActs(t: Table, id: int)
    ensures id in t && SettledAt(t, id) ==> (PlayActs(t, id) <==> id !in Sounding(t))
  {
    id in t && t[id].gain.value != 1.0
  }

  /**
   * Whether `stopWave(id)` acts: the entry exists and its gain is not already
   * 0. For a settled voice whose ramps head to 0 or 1, that is exactly when
   * it is sounding.
   */
  predicate StopActs(t: Table, id: int)
    ensures id in t && SettledAt(t, id) && GainsInRange(t) ==> (StopActs(t, id) <==> id in Sounding(t))
  {
    id in t && t[id].gain.value != 0.0
  }

  /** `Math.max(1, activeOscillators)`: the divisor of the master bus. */
  function Divisor(active: int): (r: int)
    ensures r >= 1
    ensures active >= 1 ==> r == active
    ensures active < 1 ==> r == 1
  {
    if active > 1 then active else 1
  }

  /**
   * `globalVolume / Math.max(1, activeOscillators)`: the master-bus level that
   * shares the volume among the active voices.
   */
  function BusLevel(globalVolume: real, active: int): (r: real)
    ensures r * Divisor(active) as real == globalVolume
    ensures active <= 1 ==> r == globalVolume
    ensures 0.0 <= globalVolume ==> 0.0 <= r <= globalVolume
  {
    globalVolume / Divisor(active) as real
  }

  /**
   * Playing a voice that is not at full gain and not already heading there
   * (silent, or partway through its release) starts exactly one new sounding
   * voice, so a counter that matched the sounding voices still does.
   */
  lemma PlayKeepsCount(t: Table, active: int, id: int)
    requires GainsInRange(t) && active == |Sounding(t)|
    requires PlayActs(t, id) && id !in Sounding(t)
    ensures GainsInRange(t[id := RampGain(t[id], 1.0, ATTACK_TIME)])
    ensures active + 1 == |Sounding(t[id := RampGain(t[id], 1.0, ATTACK_TIME)])|
  {
    var t' := t[id := RampGain(t[id], 1.0, ATTACK_TIME)];
    assert Sounding(t') == Sounding(t) + {id};
  }

  /**
   * Stopping a voice that is not silent and is heading to full gain (at it,
   * or partway through its attack) ends exactly one sounding voice; the
   * counter is then at least 1, so the floor at 0 does not bite.
   */
  lemma StopKeepsCount(t: Table, active: int, id: int)
    requires GainsInRange(t) && active == |Sounding(t)|
    requires StopActs(t, id) && id in Sounding(t)
    ensures GainsInRange(t[id := RampGain(t[id], 0.0, RELEASE_TIME)])
    ensures active >= 1
    ensures (if active - 1 > 0 then active - 1 else 0) == |Sounding(t[id := RampGain(t[id], 0.0, RELEASE_TIME)])|
  {
    var t' := t[id := RampGain(t[id], 0.0, RELEASE_TIME)];
    assert Sounding(t') == Sounding(t) - {id};
  }

  /**
   * The guard reads the instantaneous gain, not the ramp target: a voice
   * whose attack has been scheduled but has not yet reached 1 is played
   * again, while the set of sounding voices stays the same. Two `playWave`
   * calls inside one attack time therefore count one voice twice.
   */
  lemma UnsettledPlayCountsTwice(t: Table, id: int)
    requires id in t && t[id].gain.target == 1.0 && t[id].gain.value != 1.0
    ensures PlayActs(t, id)
    ensures Sounding(t[id := RampGain(t[id], 1.0, ATTACK_TIME)]) == Sounding(t)
  {
  }

  /**
   * The same for `stopWave`: a voice whose release has been scheduled but has
   * not yet reached 0 is stopped again, while the set of sounding voices stays
   * the same. Two `stopWave` calls inside one release time decrement the
   * counter twice when another voice is sounding; otherwise the floor at 0
   * keeps it right (`DoubleStopScenario`).
   */
  lemma UnsettledStopCountsTwice(t: Table, id: int)
    requires id in t && t[id].gain.target == 0.0 && t[id].gain.value != 0.0
    ensures StopActs(t, id)
    ensures Sounding(t[id := RampGain(t[id], 0.0, RELEASE_TIME)]) == Sounding(t)
  {
  }

  class WaveGenerator {
    /** The volume slider's value. */
    var globalVolume: real
    /** The master gain stage every voice is connected to. */
    var globalGain: Param
    var activeOscillators: int
    var min: real
    var max: real
    /** The voice table, `this.oscillators`. Entries are never removed. */
    var oscillators: Table

    /** The object invariant: the counter is never negative and every gain lies in [0, 1]. */
    ghost predicate Valid()
      reads this
    {
      activeOscillators >= 0 && GainsInRange(oscillators)
    }

    /** The counter equals the number of voices whose last ramp heads to full gain. */
    ghost predicate CountMatches()
      reads this
    {
      activeOscillators == |Sounding(oscillators)|
    }

    /**
     * `volume` is the slider's value at start-up; `minOption`/`maxOption` are
     * the `min`/`max` entries of the options object, present or absent. A new
     * gain node starts at gain 1.
     */
    constructor (volume: real, minOption: Option<real>, maxOption: Option<real>)
      ensures globalVolume == volume && activeOscillators == 0 && oscillators == map[]
      ensures globalGain == Param(1.0, 1.0, 0.0)
      ensures min == minOption.GetOr(20.0) && max == maxOption.GetOr(20000.0)
      ensures Valid() && CountMatches()
    {
      globalVolume := volume;
      globalGain := Param(1.0, 1.0, 0.0);
      activeOscillators := 0;
      min := minOption.GetOr(20.0);
      max := maxOption.GetOr(20000.0);
      oscillators := map[];
      new;
      assert Sounding(oscillators) == {};
    }

    /**
     * `isAudioInitializated`: whether the table has an entry for `id`. A voice
     * that is not initialised is never sounding.
     */
    predicate IsAudioInitialized(id: int)
      reads this
      ensures !IsAudioInitialized(id) ==> id !in Sounding(oscillators)
    {
      id in oscillators
    }

    /**
     * `initAudio`: creates the voice `id`, silent, unless it already exists.
     * `midFrequency` is what `getFrequency(0.5)` computes; it is handed to
     * `setFrequency` with the oscillator node as key, so it is never applied.
     */
    method InitAudio(id: int, midFrequency: real)
      modifies this
      ensures IsAudioInitialized(id)
      ensures id in old(oscillators) ==> oscillators == old(oscillators)
      ensures id !in old(oscillators) ==> oscillators == old(oscillators)[id := Voice(Param(0.0, 0.0, 0.0), None)]
      ensures activeOscillators == old(activeOscillators) && globalVolume == old(globalVolume)
      ensures globalGain == old(globalGain) && min == old(min) && max == old(max)
      ensures old(Valid()) ==> Valid()
      ensures old(CountMatches()) ==> CountMatches()
    {
      if id in oscillators {
        return;
      }
      oscillators := oscillators[id := Voice(Param(1.0, 1.0, 0.0), None)];
      SetFrequency(midFrequency, NodeObject);
      oscillators := oscillators[id := oscillators[id].(gain := Param(0.0, 0.0, 0.0))];
      assert Sounding(oscillators) == Sounding(old(oscillators));
    }

    /** `playWave`: ramps the voice to full gain over the attack time and counts it. */
    method PlayWave(id: int)
      modifies this
      ensures PlayActs(old(oscillators), id) ==>
        oscillators == old(oscillators)[id := RampGain(old(oscillators)[id], 1.0, ATTACK_TIME)] &&
        activeOscillators == old(activeOscillators) + 1 &&
        globalGain == Param(old(globalGain).value, BusLevel(globalVolume, activeOscillators), RELEASE_TIME)
      ensures !PlayActs(old(oscillators), id) ==>
        oscillators == old(oscillators) && activeOscillators == old(activeOscillators) && globalGain == old(globalGain)
      ensures globalVolume == old(globalVolume) && min == old(min) && max == old(max)
      ensures old(Valid()) ==> Valid()
      ensures old(Valid()) && old(CountMatches()) && id !in Sounding(old(oscillators)) ==> CountMatches()
    {
      if id !in oscillators {
        return;
      }
      var entry := oscillators[id];
      if entry.gain.value == 1.0 {
        return;
      }
      if Valid() && CountMatches() && id !in Sounding(oscillators) {
        PlayKeepsCount(oscillators, activeOscillators, id);
      }
      oscillators := oscillators[id := RampGain(entry, 1.0, ATTACK_TIME)];
      activeOscillators := activeOscillators + 1;
      AdjustVolume();
    }

    /** `stopWave`: ramps the voice to silence over the release time; the counter is floored at 0. */
    method StopWave(id: int)
      modifies this
      ensures StopActs(old(oscillators), id) ==>
        oscillators == old(oscillators)[id := RampGain(old(oscillators)[id], 0.0, RELEASE_TIME)] &&
        activeOscillators == (if old(activeOscillators) - 1 > 0 then old(activeOscillators) - 1 else 0) &&
        globalGain == Param(old(globalGain).value, BusLevel(globalVolume, activeOscillators), RELEASE_TIME)
      ensures !StopActs(old(oscillators), id) ==>
        oscillators == old(oscillators) && activeOscillators == old(activeOscillators) && globalGain == old(globalGain)
      ensures globalVolume == old(globalVolume) && min == old(min) && max == old(max)
      ensures old(Valid()) ==> Valid()
      ensures old(Valid()) && old(CountMatches()) && (id in Sounding(old(oscillators)) || old(activeOscillators) == 0)
        ==> CountMatches()
    {
      if id !in oscillators {
        return;
      }
      var entry := oscillators[id];
      if entry.gain.value == 0.0 {
        return;
      }
      var t' := oscillators[id := RampGain(entry, 0.0, RELEASE_TIME)];
      if Valid() && CountMatches() && id in Sounding(oscillators) {
        StopKeepsCount(oscillators, activeOscillators, id);
      } else if CountMatches() && activeOscillators == 0 {
        assert Sounding(oscillators) == {};
        assert Sounding(t') <= Sounding(oscillators);
      }
      oscillators := t';
      activeOscillators := if activeOscillators - 1 > 0 then activeOscillators - 1 else 0;
      AdjustVolume();
    }

    /** `setFrequency`: retunes the voice the key names, at once; an unknown key does nothing. */
    method SetFrequency(frequency: real, key: Key)
      modifies this
      ensures key.Index? && key.id in old(oscillators) ==>
        oscillators == old(oscillators)[key.id := old(oscillators)[key.id].(frequency := Some(frequency))]
      ensures !(key.Index? && key.id in old(oscillators)) ==> oscillators == old(oscillators)
      ensures activeOscillators == old(activeOscillators) && globalVolume == old(globalVolume)
      ensures globalGain == old(globalGain) && min == old(min) && max == old(max)
      ensures old(Valid()) ==> Valid()
      ensures old(CountMatches()) ==> CountMatches()
    {
      if !(key.Index? && key.id in oscillators) {
        return;
      }
      oscillators := oscillators[key.id := oscillators[key.id].(frequency := Some(frequency))];
      assert Sounding(oscillators) == Sounding(old(oscillators));
    }

    /** `setVolume`: stores the volume and sets the master bus to its share at once. */
    method SetVolume(vol: real)
      modifies this
      ensures globalVolume == vol
      ensures globalGain == Param(BusLevel(vol, activeOscillators), BusLevel(vol, activeOscillators), 0.0)
      ensures oscillators == old(oscillators) && activeOscillators == old(activeOscillators)
      ensures min == old(min) && max == old(max)
      ensures old(Valid()) ==> Valid()
      ensures old(CountMatches()) ==> CountMatches()
    {
      globalVolume := vol;
      var level := BusLevel(vol, activeOscillators);
      globalGain := Param(level, level, 0.0);
    }

    /**
     * `#adjustVolume`: schedules a ramp of the master bus to the volume's share
     * over the release time; the bus's current value is untouched.
     */
    method AdjustVolume()
      modifies this`globalGain
      ensures globalGain == Param(old(globalGain).value, BusLevel(globalVolume, activeOscillators), RELEASE_TIME)
    {
      globalGain := Param(globalGain.value, BusLevel(globalVolume, activeOscillators), RELEASE_TIME);
    }

    /** The backend finishing the last ramp on voice `id`: its gain reaches the target. */
    method Settle(id: int)
      modifies this`oscillators
      ensures id in old(oscillators) ==>
        oscillators == old(oscillators)[id := old(oscillators)[id].(gain := old(oscillators)[id].gain.(value := old(oscillators)[id].gain.target))]
      ensures id !in old(oscillators) ==> oscillators == old(oscillators)
      ensures SettledAt(oscillators, id)
      ensures old(Valid()) ==> Valid()
      ensures old(CountMatches()) ==> CountMatches()
    {
      if id !in oscillators {
        return;
      }
      var g := oscillators[id].gain;
      oscillators := oscillators[id := oscillators[id].(gain := g.(value := g.target))];
      assert Sounding(oscillators) == Sounding(old(oscillators));
    }
  }

  /**
   * Voice 3 initialised twice stays one entry; stopping it before it plays
   * changes nothing, and playing it twice with the attack completed in
   * between counts it once.
   */
  method VoiceScenario()
  {
    var g := new WaveGenerator(0.8, None, None);
    g.InitAudio(3, 632.0);
    g.InitAudio(3, 632.0);
    assert g.oscillators.Keys == {3};
    g.StopWave(3);
    assert g.activeOscillators == 0 && g.oscillators[3].gain.target == 0.0;
    g.PlayWave(3);
    g.Settle(3);
    g.PlayWave(3);
    assert g.activeOscillators == 1;
  }

  /**
   * Two sounding voices at volume 0.8 put the bus at 0.4, and once both are
   * stopped the bus heads back to 0.8.
   */
  method BusScenario()
  {
    var g := new WaveGenerator(0.8, None, None);
    g.InitAudio(3, 632.0);
    g.PlayWave(3);
    g.Settle(3);
    g.InitAudio(4, 632.0);
    g.PlayWave(4);
    g.Settle(4);
    assert g.activeOscillators == 2 && g.globalGain.target == 0.4;
    g.StopWave(3);
    g.Settle(3);
    g.StopWave(4);
    g.Settle(4);
    assert g.activeOscillators == 0 && g.globalGain.target == 0.8;
  }

  /** Two `playWave` calls before the attack completes count the one voice twice. */
  method DoublePlayScenario()
  {
    var g := new WaveGenerator(0.8, None, None);
    g.InitAudio(3, 632.0);
    g.PlayWave(3);
    g.PlayWave(3);
    assert Sounding(g.oscillators) == {3};
    assert g.activeOscillators == 2 && |Sounding(g.oscillators)| == 1;
  }

  /**
   * Playing a voice again right after stopping it, while its gain is still
   * at 1, does nothing, and the counter still matches the sounding voices.
   */
  method RepressScenario()
  {
    var g := new WaveGenerator(0.8, None, None);
    g.InitAudio(3, 632.0);
    g.PlayWave(3);
    g.Settle(3);
    g.StopWave(3);
    g.PlayWave(3);
    assert g.activeOscillators == 0 && g.CountMatches();
  }

  /**
   * Stopping the only voice twice inside one release time: the floor at 0
   * keeps the counter equal to the number of sounding voices.
   */
  method DoubleStopScenario()
  {
    var g := new WaveGenerator(0.8, None, None);
    g.InitAudio(3, 632.0);
    g.PlayWave(3);
    g.Settle(3);
    g.StopWave(3);
    g.StopWave(3);
    assert g.activeOscillators == 0 && g.CountMatches();
  }
}
