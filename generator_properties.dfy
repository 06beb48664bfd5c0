/** Properties of the generated waveforms that hold whatever sin and cos are:
    the sample count, the independence of each slot, the two levels of the
    square wave with its tie-break at zero, and the range, period and first
    value of the sawtooth. */
module GeneratorProperties {
  import opened Generator

  /* ---------------------------------------------------------------------- */
  /* Length and slots                                                        */
  /* ---------------------------------------------------------------------- */

  /** A larger product never gives fewer samples. */
  lemma SampleCountMonotone(p1: real, p2: real)
    requires -1.0 < p1 <= p2
    ensures SampleCount(p1) <= SampleCount(p2)
  {
    if p1 >= 0.0 {
      assert SampleCount(p1) as real <= p1 <= p2 < SampleCount(p2) as real + 1.0;
    }
  }

  /** A slightly negative product, 8 Hz for -0.1 s, truncates to no samples:
      the signal is empty rather than an error. */
  lemma NegativeFractionIsEmpty(kind: SignalType, frequency: real, amplitude: real,
                                phase: real, trig: Trig)
    ensures Waveform(kind, frequency, 8.0, -0.1, amplitude, phase, trig) == []
  {
    assert 8.0 * -0.1 == -0.8;
    assert SampleCount(-0.8) == 0;
  }

  /** A signal with more samples at the same rate only appends samples: slot
      i depends on i alone, never on the number of samples. */
  lemma WaveformPrefix(kind: SignalType, frequency: real, sampleRate: real, d1: real, d2: real,
                       amplitude: real, phase: real, trig: Trig)
    requires sampleRate * d1 > -1.0 && sampleRate * d2 > -1.0
    requires SampleCount(sampleRate * d1) <= SampleCount(sampleRate * d2)
    ensures var short := Waveform(kind, frequency, sampleRate, d1, amplitude, phase, trig);
            var long := Waveform(kind, frequency, sampleRate, d2, amplitude, phase, trig);
            short == long[..|short|]
  {
    var short := Waveform(kind, frequency, sampleRate, d1, amplitude, phase, trig);
    var long := Waveform(kind, frequency, sampleRate, d2, amplitude, phase, trig);
    if |short| > 0 {
      assert sampleRate != 0.0;
      forall i | 0 <= i < |short| ensures short[i] == long[i] {
        assert short[i] == Sample(kind, frequency, sampleRate, amplitude, phase, trig, i);
        assert long[i] == Sample(kind, frequency, sampleRate, amplitude, phase, trig, i);
      }
    }
  }

  /** A longer duration at the same rate extends the signal without changing
      the samples already there. */
  lemma LongerDurationExtends(kind: SignalType, frequency: real, sampleRate: real, d1: real, d2: real,
                              amplitude: real, phase: real, trig: Trig)
    requires sampleRate * d1 > -1.0 && sampleRate * d2 > -1.0
    requires sampleRate * d1 <= sampleRate * d2
    ensures var short := Waveform(kind, frequency, sampleRate, d1, amplitude, phase, trig);
            var long := Waveform(kind, frequency, sampleRate, d2, amplitude, phase, trig);
            |short| <= |long| && short == long[..|short|]
  {
    SampleCountMonotone(sampleRate * d1, sampleRate * d2);
    WaveformPrefix(kind, frequency, sampleRate, d1, d2, amplitude, phase, trig);
  }

  /** Sample i is the waveform's value at time i / sampleRate. */
  lemma SampleIsValueAtTime(kind: SignalType, frequency: real, sampleRate: real, duration: real,
                            amplitude: real, phase: real, trig: Trig, i: int)
    requires sampleRate * duration > -1.0
    requires 0 <= i < SampleCount(sampleRate * duration)
    ensures sampleRate != 0.0
    ensures Waveform(kind, frequency, sampleRate, duration, amplitude, phase, trig)[i]
            == ValueAt(kind, frequency, amplitude, phase, trig, i as real / sampleRate)
  {
  }

  /* ---------------------------------------------------------------------- */
  /* Square                                                                  */
  /* ---------------------------------------------------------------------- */

  /** Every square sample is +amplitude or -amplitude; it is +amplitude
      exactly when the sine of the argument is non-negative, zero included. */
  lemma SquareLevels(frequency: real, amplitude: real, phase: real, trig: Trig, t: real)
    ensures var v := ValueAt(Square, frequency, amplitude, phase, trig, t);
            var s := trig.sin(Argument(frequency, t, phase));
            (v == amplitude || v == -amplitude)
            && (s >= 0.0 ==> v == amplitude)
            && (amplitude != 0.0 ==> (v == amplitude <==> s >= 0.0))
  {
  }

  /** Sine, cosine and square waves share the argument 2 pi f t + phase: with
      a positive amplitude the square wave is +amplitude exactly where the
      sine wave is non-negative, and -amplitude exactly where it is negative. */
  lemma SquareFollowsSine(frequency: real, amplitude: real, phase: real, trig: Trig, t: real)
    requires amplitude > 0.0
    ensures var sq := ValueAt(Square, frequency, amplitude, phase, trig, t);
            var sine := ValueAt(Sine, frequency, amplitude, phase, trig, t);
            (sq == amplitude <==> sine >= 0.0) && (sq == -amplitude <==> sine < 0.0)
  {
    var s := trig.sin(Argument(frequency, t, phase));
    assert ValueAt(Sine, frequency, amplitude, phase, trig, t) == amplitude * s;
    if s >= 0.0 {
      assert amplitude * s >= 0.0;
    } else {
      assert amplitude * s < 0.0;
    }
  }

  /* ---------------------------------------------------------------------- */
  /* Sawtooth                                                                */
  /* ---------------------------------------------------------------------- */

  /** Reference: the ramp is 2 (x - k) for the one integer k that puts
      x - k in [-1/2, 1/2), the 1-periodic extension of 2x on that interval. */
  lemma RampIsCentredRemainder(x: real, k: int)
    requires -0.5 <= x - k as real < 0.5
    ensures Ramp(x) == 2.0 * (x - k as real)
  {
    assert (0.5 + x).Floor == k;
  }

  /** The ramp lies in [-1, 1). */
  lemma RampRange(x: real)
    ensures -1.0 <= Ramp(x) < 1.0
  {
    var k := (0.5 + x).Floor;
    assert k as real <= 0.5 + x < k as real + 1.0;
  }

  /** The ramp has period 1. */
  lemma RampPeriodic(x: real, k: int)
    ensures Ramp(x + k as real) == Ramp(x)
  {
    var m := (0.5 + x).Floor;
    RampIsCentredRemainder(x, m);
    RampIsCentredRemainder(x + k as real, m + k);
  }

  /** With a positive amplitude a sawtooth sample lies in [-amplitude,
      amplitude); with amplitude 0 it is 0; in general it is at most
      |amplitude| in size. */
  lemma SawtoothRange(frequency: real, amplitude: real, phase: real, trig: Trig, t: real)
    ensures var v := ValueAt(Sawtooth, frequency, amplitude, phase, trig, t);
            (amplitude > 0.0 ==> -amplitude <= v < amplitude)
            && (amplitude == 0.0 ==> v == 0.0)
            && -(if amplitude < 0.0 then -amplitude else amplitude) <= v
            && v <= (if amplitude < 0.0 then -amplitude else amplitude)
  {
    var r := Ramp(t * frequency);
    RampRange(t * frequency);
    assert ValueAt(Sawtooth, frequency, amplitude, phase, trig, t) == amplitude * r;
    if amplitude > 0.0 {
      assert amplitude * r < amplitude * 1.0;
      assert amplitude * -1.0 <= amplitude * r;
    } else if amplitude < 0.0 {
      assert amplitude * 1.0 < amplitude * r;
      assert amplitude * r <= amplitude * -1.0;
    }
  }

  /* ---------------------------------------------------------------------- */
  /* First sample                                                            */
  /* ---------------------------------------------------------------------- */

  /** Sample 0 is taken at t = 0, where the argument is the phase alone: the
      sine and cosine waves start at amplitude * sin(phase) and
      amplitude * cos(phase), the square wave at +amplitude when
      sin(phase) >= 0, and the sawtooth at exactly 0. */
  lemma FirstSample(kind: SignalType, frequency: real, sampleRate: real, duration: real,
                    amplitude: real, phase: real, trig: Trig)
    requires sampleRate * duration >= 1.0
    ensures var y := Waveform(kind, frequency, sampleRate, duration, amplitude, phase, trig);
            |y| > 0
            && (kind == Sine ==> y[0] == amplitude * trig.sin(phase))
            && (kind == Cosine ==> y[0] == amplitude * trig.cos(phase))
            && (kind == Square && trig.sin(phase) >= 0.0 ==> y[0] == amplitude)
            && (kind == Sawtooth ==> y[0] == 0.0)
  {
    assert sampleRate != 0.0;
    assert 0 as real / sampleRate == 0.0;
    assert Argument(frequency, 0.0, phase) == phase;
    RampIsCentredRemainder(0.0, 0);
  }

  /** With the default amplitude and phase, and sin 0 = 0, cos 0 = 1, a sine
      starts at 0, a cosine at 1 and a square wave at +1. */
  lemma DefaultsFirstSample(frequency: real, sampleRate: real, duration: real, trig: Trig)
    requires sampleRate * duration >= 1.0
    requires trig.sin(0.0) == 0.0 && trig.cos(0.0) == 1.0
    ensures Waveform(Sine, frequency, sampleRate, duration, DefaultAmplitude, DefaultPhase, trig)[0] == 0.0
    ensures Waveform(Cosine, frequency, sampleRate, duration, DefaultAmplitude, DefaultPhase, trig)[0] == 1.0
    ensures Waveform(Square, frequency, sampleRate, duration, DefaultAmplitude, DefaultPhase, trig)[0] == 1.0
  {
    FirstSample(Sine, frequency, sampleRate, duration, DefaultAmplitude, DefaultPhase, trig);
    FirstSample(Cosine, frequency, sampleRate, duration, DefaultAmplitude, DefaultPhase, trig);
    FirstSample(Square, frequency, sampleRate, duration, DefaultAmplitude, DefaultPhase, trig);
  }

  /** A 1 Hz square wave sampled at 8 Hz for 1 s: 8 samples, each +1 or -1,
      the first +1 when sin 0 = 0. */
  lemma SquareEightSamples(trig: Trig)
    requires trig.sin(0.0) == 0.0
    ensures var y := Waveform(Square, 1.0, 8.0, 1.0, 1.0, 0.0, trig);
            |y| == 8 && y[0] == 1.0
            && forall i :: 0 <= i < 8 ==> y[i] == 1.0 || y[i] == -1.0
  {
    var y := Waveform(Square, 1.0, 8.0, 1.0, 1.0, 0.0, trig);
    assert SampleCount(8.0 * 1.0) == 8;
    FirstSample(Square, 1.0, 8.0, 1.0, 1.0, 0.0, trig);
    forall i | 0 <= i < 8 ensures y[i] == 1.0 || y[i] == -1.0 {
      SquareLevels(1.0, 1.0, 0.0, trig, i as real / 8.0);
    }
  }
}
