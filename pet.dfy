// The pet simulation of src/pet.rs: a named pet with two u8 stats that decay
// by saturating subtraction, and a mood derived from their average.

module Pets {

  /** Rust's `u8`. */
  type U8 = x: int | 0 <= x < 0x100

  /** Rust's `u16`, the width `mood` widens the stats to before adding them. */
  type U16 = x: int | 0 <= x < 0x1_0000

  /** Stat lost per tick: HUNGER_DECAY and HAPPINESS_DECAY. */
  const HungerDecay: U8 := 2
  const HappinessDecay: U8 := 1

  /** Value both stats take when a pet is created. */
  const StartingStat: U8 := 80

  /** The four moods, from best to worst. */
  datatype Mood = Happy | Content | Sad | Miserable

  /** Rust's `u8::saturating_sub`: subtract, stopping at zero instead of wrapping. */
  function SaturatingSub(x: U8, d: U8): (r: U8)
    ensures r <= x
    ensures x - d <= r
    ensures r == 0 || r + d == x
  {
    if x >= d then x - d else 0
  }

  /** The two stats of a pet, as a value. */
  datatype Stats = Stats(hunger: U8, happiness: U8)

  /** Both stats at zero: where decay comes to rest. */
  const Rest := Stats(0, 0)

  /** The stats at most 100, the range the gauges of the interface display. */
  predicate InRange(s: Stats)
  {
    s.hunger <= 100 && s.happiness <= 100
  }

  /** The stats after one tick. */
  function Decay(s: Stats): Stats
  {
    Stats(SaturatingSub(s.hunger, HungerDecay), SaturatingSub(s.happiness, HappinessDecay))
  }

  /** The stats after `n` ticks. */
  function DecayN(s: Stats, n: nat): Stats
  {
    if n == 0 then s else Decay(DecayN(s, n - 1))
  }

  /** A tick never raises a stat, loses at most the decay of each, and keeps
      stats that are within 0..100 within 0..100. */
  lemma DecayNeverIncreases(s: Stats)
    ensures Decay(s).hunger <= s.hunger && s.hunger - HungerDecay <= Decay(s).hunger
    ensures Decay(s).happiness <= s.happiness && s.happiness - HappinessDecay <= Decay(s).happiness
    ensures InRange(s) ==> InRange(Decay(s))
  {
  }

  /** After `n` ticks each stat has lost `n` times its decay, or sits at zero. */
  lemma {:induction false} DecayNClosedForm(s: Stats, n: nat)
    ensures DecayN(s, n).hunger == if s.hunger >= 2 * n then s.hunger - 2 * n else 0
    ensures DecayN(s, n).happiness == if s.happiness >= n then s.happiness - n else 0
  {
    if n > 0 {
      DecayNClosedForm(s, n - 1);
    }
  }

  /** Both stats are zero after `n` ticks exactly when `n` ticks are enough to
      drain hunger at 2 per tick and happiness at 1 per tick. */
  lemma {:induction false} DecayNReachesRest(s: Stats, n: nat)
    ensures DecayN(s, n) == Rest <==> 2 * n >= s.hunger && n >= s.happiness
  {
    DecayNClosedForm(s, n);
  }

  /** Once both stats are zero, further ticks leave them at zero. */
  lemma {:induction false} RestIsFinal(s: Stats, n: nat, m: nat)
    requires DecayN(s, n) == Rest
    ensures DecayN(s, n + m) == Rest
  {
    DecayNReachesRest(s, n);
    DecayNReachesRest(s, n + m);
  }

  /** A pet. The stats are public `u8` fields, so they can hold any value up to 255. */
  class Pet {
    var name: string
    var hunger: U8
    var happiness: U8

    /** `Pet::new`: the given name, both stats at their starting value; such a pet is happy. */
    constructor (name: string)
      ensures this.name == name
      ensures hunger == StartingStat && happiness == StartingStat
      ensures Mood() == Happy
    {
      this.name := name;
      hunger := StartingStat;
      happiness := StartingStat;
    }

    /** The current stats as a value. */
    function Snapshot(): Stats
      reads this
    {
      Stats(hunger, happiness)
    }

    /** `Pet::tick`: both stats decay by one tick; the name stays. */
    method Tick()
      modifies this
      ensures name == old(name)
      ensures Snapshot() == Decay(old(Snapshot()))
    {
      var next := Decay(Snapshot());
      hunger, happiness := next.hunger, next.happiness;
    }

    /** `Pet::mood`: classifies the integer average of the two stats, taken in
        u16 so that the sum cannot overflow. Stated on the sum instead of the
        average: an average above 100, possible since the fields are u8, is Miserable. */
    function Mood(): (m: Mood)
      reads this
      ensures m == Happy <==> 140 <= hunger + happiness <= 201
      ensures m == Content <==> 80 <= hunger + happiness <= 139
      ensures m == Sad <==> 40 <= hunger + happiness <= 79
      ensures m == Miserable <==> hunger + happiness < 40 || 201 < hunger + happiness
    {
      var sum: U16 := hunger + happiness;
      var avg := sum / 2;
      if 70 <= avg <= 100 then Happy
      else if 40 <= avg <= 69 then Content
      else if 20 <= avg <= 39 then Sad
      else Miserable
    }
  }

  /** Two pets whose stats have the same integer average have the same mood. */
  lemma MoodDependsOnlyOnAverage(p: Pet, q: Pet)
    requires (p.hunger + p.happiness) / 2 == (q.hunger + q.happiness) / 2
    ensures p.Mood() == q.Mood()
  {
  }

  /** Unit test `test_new_pet_starts_healthy`. */
  method NewPetStartsHealthy() returns (hunger: U8, happiness: U8, mood: Mood)
    ensures hunger == 80 && happiness == 80 && mood == Happy
  {
    var pet := new Pet("Tomo");
    hunger, happiness, mood := pet.hunger, pet.happiness, pet.Mood();
  }

  /** Unit test `test_tick_decays_stats`. */
  method TickDecaysStats() returns (hunger: U8, happiness: U8)
    ensures hunger == 78 && happiness == 79
  {
    var pet := new Pet("Tomo");
    pet.Tick();
    hunger, happiness := pet.hunger, pet.happiness;
  }

  /** Unit test `test_tick_clamps_at_zero`. */
  method TickClampsAtZero() returns (hunger: U8, happiness: U8)
    ensures hunger == 0 && happiness == 0
  {
    var pet := new Pet("Tomo");
    pet.hunger := 1;
    pet.happiness := 0;
    pet.Tick();
    hunger, happiness := pet.hunger, pet.happiness;
  }

  /** Unit test `test_mood_thresholds`: the moods at (80,80), (50,50), (30,30) and (10,10). */
  method MoodThresholds() returns (moods: seq<Mood>)
    ensures moods == [Happy, Content, Sad, Miserable]
  {
    var pet := new Pet("Tomo");
    moods := [];
    pet.hunger, pet.happiness := 80, 80;
    moods := moods + [pet.Mood()];
    pet.hunger, pet.happiness := 50, 50;
    moods := moods + [pet.Mood()];
    pet.hunger, pet.happiness := 30, 30;
    moods := moods + [pet.Mood()];
    pet.hunger, pet.happiness := 10, 10;
    moods := moods + [pet.Mood()];
  }
}
