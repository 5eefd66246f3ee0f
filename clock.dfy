/**
 * Tempo and beat position (src/sync/clock.rs): the master clock's BPM, its
 * running sample counter, and the quantizer, which is a stub.
 *
 * The BPM is a `real` and the division `60 / bpm * sample_rate` is exact;
 * the float-to-integer cast keeps the behaviour of Rust's `as usize` on the
 * values it can meet: truncation toward zero, saturation at `usize::MAX`,
 * and 0 for negative results and NaN.
 */
module Clock {
  import opened Errors
  import Modular

  const USIZE_MAX: nat := 0xFFFF_FFFF_FFFF_FFFF
  const USIZE_MODULUS: nat := 0x1_0000_0000_0000_0000

  /** `((60.0 / bpm) * sample_rate) as usize`. A tempo of zero divides to
      +infinity, which casts to `usize::MAX` (or, times a zero rate, to NaN
      and so 0); a negative tempo gives a negative product, which casts to 0. */
  function SamplesPerBeatAt(bpm: real, sampleRate: nat): nat {
    if bpm > 0.0 then
      var exact := 60.0 / bpm * (sampleRate as real);
      assert exact >= 0.0;
      if exact.Floor > USIZE_MAX then USIZE_MAX else exact.Floor
    else if bpm == 0.0 && sampleRate > 0 then USIZE_MAX
    else 0
  }

  /** At 120 BPM and 44100 Hz a beat is 22050 samples; at 60 BPM, 44100. */
  lemma SamplesPerBeatExamples()
    ensures SamplesPerBeatAt(120.0, 44100) == 22050
    ensures SamplesPerBeatAt(60.0, 44100) == 44100
  {
  }

  /** A beat has at least one sample, so that `get_position` can divide by
      it, exactly when the tempo is positive and at most one beat per sample
      (60 * rate BPM), or zero at a positive rate (an infinite beat). */
  lemma SamplesPerBeatPositive(bpm: real, sampleRate: nat)
    ensures SamplesPerBeatAt(bpm, sampleRate) > 0 <==>
      (0.0 < bpm <= 60.0 * (sampleRate as real)) || (bpm == 0.0 && sampleRate > 0)
  {
  }

  /** A faster tempo never gives a longer beat. */
  lemma SamplesPerBeatAntitone(slow: real, fast: real, sampleRate: nat)
    requires 0.0 < slow <= fast
    ensures SamplesPerBeatAt(fast, sampleRate) <= SamplesPerBeatAt(slow, sampleRate)
  {
    var r := sampleRate as real;
    assert 60.0 / fast <= 60.0 / slow;
    assert 60.0 / fast * r <= 60.0 / slow * r;
  }

  /** Beat index and offset (in samples) within the beat. */
  datatype Position = Position(beat: nat, offset: nat)

  /** The position of a counter in beats of `spb` samples: the beat it is
      in and how far into that beat. */
  function PositionAt(counter: nat, spb: nat): (p: Position)
    requires spb > 0
    ensures p.beat * spb + p.offset == counter
    ensures p.offset < spb
  {
    Position(counter / spb, counter % spb)
  }

  /** As the counter grows under a fixed beat length, the beat index never
      decreases, and while it stays in the same beat the offset grows by
      exactly the samples elapsed. */
  lemma {:induction false} BeatNeverDecreases(earlier: nat, later: nat, spb: nat)
    requires spb > 0 && earlier <= later
    ensures PositionAt(earlier, spb).beat <= PositionAt(later, spb).beat
    ensures PositionAt(earlier, spb).beat == PositionAt(later, spb).beat ==>
      PositionAt(later, spb).offset == PositionAt(earlier, spb).offset + (later - earlier)
  {
    var p1, p2 := PositionAt(earlier, spb), PositionAt(later, spb);
    assert p1.beat * spb <= earlier;
    assert later < (p2.beat + 1) * spb;
    Modular.ProductOrderCancels(p1.beat, p2.beat + 1, spb);
  }

  /** `MasterClock`: the BPM, the sample rate, and the counter of samples
      elapsed, an `AtomicUsize` advanced with a wrapping `fetch_add`. */
  class MasterClock {
    var bpm: real
    const sampleRate: nat
    var counter: nat

    ghost predicate Valid()
      reads this
    {
      counter < USIZE_MODULUS
    }

    /** `new(sample_rate, initial_bpm)`: the counter starts at zero. */
    constructor (sampleRate: nat, initialBpm: real)
      ensures Valid() && counter == 0 && bpm == initialBpm && this.sampleRate == sampleRate
    {
      bpm := initialBpm;
      this.sampleRate := sampleRate;
      counter := 0;
    }

    /** `samples_per_beat()`: computed from the BPM held at the call, never
        cached; usable as a divisor exactly for the tempos of
        `SamplesPerBeatPositive`. */
    function SamplesPerBeat(): (spb: nat)
      reads this
      ensures spb > 0 <==> (0.0 < bpm <= 60.0 * (sampleRate as real)) || (bpm == 0.0 && sampleRate > 0)
    {
      SamplesPerBeatPositive(bpm, sampleRate);
      SamplesPerBeatAt(bpm, sampleRate)
    }

    /** `get_position()`: the beat the counter is in and how far into it;
        the source's fractional progress (offset / samples per beat as f32)
        is left out. Divides by the samples per beat, which must not be 0. */
    function GetPosition(): (p: Position)
      reads this
      requires SamplesPerBeat() > 0
      ensures p.beat * SamplesPerBeat() + p.offset == counter
      ensures p.offset < SamplesPerBeat()
    {
      PositionAt(counter, SamplesPerBeat())
    }

    /** `advance(n)`: the counter grows by exactly `n`, wrapping at 2^64;
        short of a wrap, the beat position only moves forward. */
    method Advance(n: nat)
      requires Valid() && n <= USIZE_MAX
      modifies this
      ensures Valid() && bpm == old(bpm)
      ensures counter == (old(counter) + n) % USIZE_MODULUS
      ensures old(counter) + n < USIZE_MODULUS ==> counter == old(counter) + n >= old(counter)
      ensures old(counter) + n < USIZE_MODULUS && SamplesPerBeat() > 0 ==>
        old(GetPosition()).beat <= GetPosition().beat
    {
      ghost var before := counter;
      counter := (counter + n) % USIZE_MODULUS;
      if before + n < USIZE_MODULUS && SamplesPerBeat() > 0 {
        BeatNeverDecreases(before, counter, SamplesPerBeat());
      }
    }

    /** `set_bpm(b)`: no validation; the next `samples_per_beat` and
        `get_position` read the new tempo. */
    method SetBpm(newBpm: real)
      requires Valid()
      modifies this
      ensures Valid() && bpm == newBpm && counter == old(counter)
      ensures SamplesPerBeat() == SamplesPerBeatAt(newBpm, sampleRate)
    {
      bpm := newBpm;
    }
  }

  /** `Quantizer`: both operations are stubs in the source. */
  datatype Quantizer = Quantizer {

    /** `quantize(buffer, beat_length)` always succeeds and does not touch
        the buffer. The source passes the buffers of two different buffer
        types to it, so the buffer's type is left open. */
    method Quantize<B>(buffer: B, beatLength: nat) returns (r: Result<()>)
      ensures r == Ok(())
    {
      r := Ok(());
    }

    /** `on_loop()`: a notification hook with no effect. */
    method OnLoop() {
    }
  }
}
