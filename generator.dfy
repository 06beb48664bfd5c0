/** The signal generator: a buffer of sample_rate * duration samples of a
    sine, cosine, square or sawtooth wave.

    The C library's sin and cos are not defined here: a `Trig` value carries
    them, and only what follows without trigonometric identities is proved. */
module Generator {

  datatype SignalType = Sine | Cosine | Square | Sawtooth

  /** The sine and cosine the samples are computed with. */
  datatype Trig = Trig(sin: real -> real, cos: real -> real)

  /** The value the source gives M_PI when the platform does not. */
  const Pi: real := 3.14159265358979323846

  /** Default arguments of generate_signal. */
  const DefaultAmplitude: real := 1.0
  const DefaultPhase: real := 0.0

  /** Number of samples for the product sample_rate * duration, converted to
      an unsigned size by truncation toward zero: a product in (-1, 0)
      truncates to 0 samples, a non-negative one to its floor.  A product of
      -1 or below has no size to truncate to. */
  function SampleCount(product: real): (n: nat)
    requires product > -1.0
    ensures product < 0.0 ==> n == 0
    ensures product >= 0.0 ==> n as real <= product < n as real + 1.0
  {
    if product < 0.0 then 0 else product.Floor
  }

  /** The centred ramp of the sawtooth: 2 (x - floor(1/2 + x)). */
  function Ramp(x: real): real
  {
    2.0 * (x - (0.5 + x).Floor as real)
  }

  /** The phase argument 2 pi f t + phase at time t. */
  function Argument(frequency: real, t: real, phase: real): real
  {
    2.0 * Pi * frequency * t + phase
  }

  /** The waveform's value at time t. */
  function ValueAt(kind: SignalType, frequency: real, amplitude: real, phase: real,
                   trig: Trig, t: real): (v: real)
    ensures kind == Square ==> v == amplitude || v == -amplitude
    ensures amplitude == 0.0 ==> v == 0.0
  {
    match kind
    case Sine => amplitude * trig.sin(Argument(frequency, t, phase))
    case Cosine => amplitude * trig.cos(Argument(frequency, t, phase))
    case Square => amplitude * (if trig.sin(Argument(frequency, t, phase)) >= 0.0 then 1.0 else -1.0)
    case Sawtooth => amplitude * Ramp(t * frequency)
  }

  /** Sample i of the waveform: its value at time i / sampleRate. */
  function Sample(kind: SignalType, frequency: real, sampleRate: real, amplitude: real,
                  phase: real, trig: Trig, i: nat): real
    requires sampleRate != 0.0
  {
    ValueAt(kind, frequency, amplitude, phase, trig, i as real / sampleRate)
  }

  /** What generate_signal returns: SampleCount samples, sample i given by
      Sample at i. */
  function Waveform(kind: SignalType, frequency: real, sampleRate: real, duration: real,
                    amplitude: real, phase: real, trig: Trig): (y: seq<real>)
    requires sampleRate * duration > -1.0
    ensures |y| == SampleCount(sampleRate * duration)
  {
    var n := SampleCount(sampleRate * duration);
    seq(n, i requires 0 <= i < n => Sample(kind, frequency, sampleRate, amplitude, phase, trig, i))
  }

  /** generate_signal: allocates the buffer and writes each slot once, with
      the waveform chosen per sample.  The four enumerators are matched
      exhaustively, so the source's "Unknown signal type" branch has no case. */
  method GenerateSignal(kind: SignalType, frequency: real, sampleRate: real, duration: real,
                        amplitude: real, phase: real, trig: Trig) returns (y: seq<real>)
    requires sampleRate * duration > -1.0
    ensures y == Waveform(kind, frequency, sampleRate, duration, amplitude, phase, trig)
  {
    var n := SampleCount(sampleRate * duration);
    var buf := new real[n];
    for i := 0 to n
      invariant forall p :: 0 <= p < i ==>
        buf[p] == Sample(kind, frequency, sampleRate, amplitude, phase, trig, p)
    {
      var t := i as real / sampleRate;
      buf[i] := ValueAt(kind, frequency, amplitude, phase, trig, t);
    }
    y := buf[..];
  }
}
