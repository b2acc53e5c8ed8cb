/** Constants, integer widths and error kinds shared by the score and its channels. */
module Types {

  /** Samples rendered by the discarded priming render after a seek. */
  const AUDIO_SIZE: nat := 512
  /** Output sample rate in Hz. */
  const AUDIO_FREQ: nat := 44100
  /** Bytes per sample: one signed 16-bit mono sample. */
  const SAMPLE_SIZE: nat := 2

  const TWO64: int := 0x1_0000_0000_0000_0000

  /** An unsigned 64-bit value (`size_t`): byte counts and offsets. */
  type U64 = x: int | 0 <= x < TWO64

  /** One signed 16-bit PCM sample (`channel_sample`, a `short`). */
  type Sample = x: int | -0x8000 <= x < 0x8000

  /** Milliseconds per sample at the fixed output rate. */
  const MS_PER_SAMPLE: real := 1000.0 / AUDIO_FREQ as real

  /** Playing time, in milliseconds, of a number of samples. */
  function Duration(samples: nat): real
  {
    samples as real * MS_PER_SAMPLE
  }

  /** The time a byte offset stands for: whole samples in it times the sample period. */
  function ByteTime(bytes: nat): (t: real)
    ensures t == Duration(bytes / SAMPLE_SIZE)
    ensures bytes < SAMPLE_SIZE ==> t == 0.0
  {
    (bytes / SAMPLE_SIZE) as real * MS_PER_SAMPLE
  }

  /** The failures the core reports (all are exceptions in the source). */
  datatype Error =
    | LoadError             // the MIDI file or the SoundFont could not be loaded
    | NotFound              // no channel with that index
    | UnsupportedOperation  // a stream cannot be cloned
    | UnreachableEventKind  // a message type the reader does not dispatch

  datatype Result<T> = Ok(value: T) | Err(error: Error)

  datatype Option<T> = None | Some(value: T)

  /** `size_t` addition: the sum modulo 2^64. */
  function WrappingAdd(a: U64, b: U64): U64
  {
    if a + b < TWO64 then a + b else a + b - TWO64
  }

  /** A 64-bit value is its own residue. */
  lemma SmallMod(x: U64)
    ensures x % TWO64 == x
  {
  }

  /** Concatenation regroups freely. */
  lemma AppendAssoc<T>(a: seq<T>, b: seq<T>, c: seq<T>)
    ensures (a + b) + c == a + (b + c)
  {
  }

  /** Adding modulo 2^64 after reducing first is the same as reducing once. */
  lemma AddMod(a: nat, c: U64)
    ensures WrappingAdd(a % TWO64, c) == (a + c) % TWO64
  {
    var q := a / TWO64;
    assert a == q * TWO64 + a % TWO64;
    assert a + c == (a % TWO64 + c) + q * TWO64;
  }

  /** The offset after `k` successive 64-bit additions of `c` to `o`. */
  function Advanced(o: U64, c: U64, k: nat): U64
  {
    if k == 0 then o else WrappingAdd(Advanced(o, c, k - 1), c)
  }

  /** Successive wrapping additions amount to one addition of `k * c`, modulo 2^64. */
  lemma {:induction false} AdvancedMod(o: U64, c: U64, k: nat)
    ensures Advanced(o, c, k) == (o + k * c) % TWO64
  {
    if k == 0 {
      SmallMod(o);
    } else {
      AdvancedMod(o, c, k - 1);
      AddMod(o + (k - 1) * c, c);
      assert (k - 1) * c + c == k * c;
    }
  }
}
