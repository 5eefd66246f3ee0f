/**
 * The multi-channel audio buffer and the pool of reusable sample storage
 * (src/core/buffer.rs).
 *
 * Samples are modelled as `real`, so every equality below is exact; the
 * channel count of a buffer is the number of channel vectors it holds (the
 * source keeps a separate `channels` field that always equals it, and hands
 * out the channels as a slice, which cannot change their number).
 */
module Buffers {
  import opened Errors

  /** Per-channel sample storage: `s[c][i]` is sample `i` of channel `c`. */
  type Samples = seq<seq<real>>

  /** Every channel has the same length. This is not enforced by the source
      (`from_data` and `append` accept ragged input), so it is a property
      operations keep or establish, not an object invariant. */
  predicate Rectangular(s: Samples) {
    forall c :: 0 <= c < |s| ==> |s[c]| == |s[0]|
  }

  function Max(a: nat, b: nat): nat {
    if a < b then b else a
  }

  /** Sample `i` of a channel, reading zero past its end. */
  function At(ch: seq<real>, i: nat): real {
    if i < |ch| then ch[i] else 0.0
  }

  function Zeros(n: nat): seq<real> {
    seq(n, _ => 0.0)
  }

  /** `Vec::resize(n, 0.0)` on one channel. */
  function ResizedChannel(ch: seq<real>, n: nat): seq<real> {
    if n <= |ch| then ch[..n] else ch + Zeros(n - |ch|)
  }

  /** What `resize(n)` makes of the storage. */
  function Resized(s: Samples, n: nat): Samples {
    seq(|s|, c requires 0 <= c < |s| => ResizedChannel(s[c], n))
  }

  /** What `apply_gain(g)` makes of the storage. */
  function Gained(s: Samples, g: real): Samples {
    seq(|s|, c requires 0 <= c < |s| =>
      seq(|s[c]|, i requires 0 <= i < |s[c]| => s[c][i] * g))
  }

  /** One channel of `mix`: `dst[i] += src[i] * g` for the indices both
      channels have (the source zips the two channels). */
  function MixedChannel(dst: seq<real>, src: seq<real>, g: real): seq<real> {
    seq(|dst|, i requires 0 <= i < |dst| => if i < |src| then dst[i] + src[i] * g else dst[i])
  }

  /** What a successful `mix(other, g)` makes of the storage: grow (or cut)
      every channel to the longer of the two buffers' lengths, then add the
      scaled samples of `o` channel by channel. */
  function Mixed(s: Samples, o: Samples, g: real): Samples
    requires |s| > 0 && |o| > 0
  {
    var p := Resized(s, Max(|s[0]|, |o[0]|));
    seq(|p|, c requires 0 <= c < |p| => if c < |o| then MixedChannel(p[c], o[c], g) else p[c])
  }

  /** Sum of sample `i` over all channels, added left to right as the
      iterator `sum` does. */
  function ColumnSum(s: Samples, i: nat): real
    requires forall c :: 0 <= c < |s| ==> i < |s[c]|
  {
    if |s| == 0 then 0.0 else ColumnSum(s[..|s| - 1], i) + s[|s| - 1][i]
  }

  /** `to_mono` on more than one channel reads `channel[i]` for every index
      `i` of channel 0, so it needs at least one channel and no channel
      shorter than channel 0. */
  predicate MonoReadable(s: Samples) {
    |s| > 0 && forall c :: 0 <= c < |s| ==> |s[0]| <= |s[c]|
  }

  /** What `to_mono` makes of the storage: a single channel holding the mean
      across channels; a one-channel buffer is left as it is. */
  function Mono(s: Samples): Samples
    requires |s| == 1 || MonoReadable(s)
  {
    if |s| == 1 then s
    else [seq(|s[0]|, i requires 0 <= i < |s[0]| => ColumnSum(s, i) / (|s| as real))]
  }

  lemma ResizedAt(s: Samples, n: nat)
    ensures var r := Resized(s, n);
      && |r| == |s| && Rectangular(r)
      && (forall c :: 0 <= c < |r| ==> |r[c]| == n)
      && forall c, i :: 0 <= c < |r| && 0 <= i < n ==> r[c][i] == At(s[c], i)
  {
  }

  lemma MixedAt(s: Samples, o: Samples, g: real)
    requires |s| == |o| > 0
    ensures var r := Mixed(s, o, g);
      && |r| == |s| && Rectangular(r)
      && (forall c :: 0 <= c < |r| ==> |r[c]| == Max(|s[0]|, |o[0]|))
      && forall c, i :: 0 <= c < |r| && 0 <= i < |r[c]| ==> r[c][i] == At(s[c], i) + At(o[c], i) * g
  {
  }

  /** Mixing with gain zero only pads (or cuts) to the common length. */
  lemma {:induction false} MixWithZeroGain(s: Samples, o: Samples)
    requires |s| == |o| > 0
    ensures Mixed(s, o, 0.0) == Resized(s, Max(|s[0]|, |o[0]|))
  {
    var n := Max(|s[0]|, |o[0]|);
    var r, p := Mixed(s, o, 0.0), Resized(s, n);
    MixedAt(s, o, 0.0);
    ResizedAt(s, n);
    assert |r| == |p|;
    forall c | 0 <= c < |r| ensures r[c] == p[c] {
      assert |r[c]| == |p[c]| == n;
      forall i | 0 <= i < n ensures r[c][i] == p[c][i] {
        assert r[c][i] == At(s[c], i) + At(o[c], i) * 0.0;
      }
    }
  }

  /** Two mixes into the same buffer can be applied in either order: the
      result is the same, since every sample is the sum of the three
      (zero-padded) contributions. */
  lemma {:induction false} MixCommutes(s: Samples, a: Samples, b: Samples, ga: real, gb: real)
    requires |s| == |a| == |b| > 0
    requires Rectangular(s) && Rectangular(a) && Rectangular(b)
    ensures Mixed(Mixed(s, a, ga), b, gb) == Mixed(Mixed(s, b, gb), a, ga)
  {
    var sa, sb := Mixed(s, a, ga), Mixed(s, b, gb);
    MixedAt(s, a, ga);
    MixedAt(s, b, gb);
    var left, right := Mixed(sa, b, gb), Mixed(sb, a, ga);
    MixedAt(sa, b, gb);
    MixedAt(sb, a, ga);
    var n := Max(Max(|s[0]|, |a[0]|), |b[0]|);
    assert Max(|sa[0]|, |b[0]|) == n == Max(|sb[0]|, |a[0]|);
    forall c | 0 <= c < |s| ensures left[c] == right[c] {
      forall i | 0 <= i < n ensures left[c][i] == right[c][i] {
        assert At(sa[c], i) == At(s[c], i) + At(a[c], i) * ga;
        assert At(sb[c], i) == At(s[c], i) + At(b[c], i) * gb;
      }
    }
  }

  lemma {:induction false} ColumnSumOfCopies(s: Samples, i: nat, v: real)
    requires forall c :: 0 <= c < |s| ==> i < |s[c]| && s[c][i] == v
    ensures ColumnSum(s, i) == (|s| as real) * v
  {
    if |s| > 0 {
      ColumnSumOfCopies(s[..|s| - 1], i, v);
    }
  }

  /** `to_mono` on a buffer whose channels all hold the same samples gives
      exactly those samples, as the unit test at buffer.rs:271-284 expects. */
  lemma MonoOfEqualChannels(s: Samples)
    requires |s| > 0 && forall c :: 0 <= c < |s| ==> s[c] == s[0]
    ensures Mono(s) == [s[0]]
  {
    if |s| != 1 {
      var n := |s| as real;
      forall i | 0 <= i < |s[0]| ensures ColumnSum(s, i) / n == s[0][i] {
        ColumnSumOfCopies(s, i, s[0][i]);
        assert n * s[0][i] / n == s[0][i];
      }
      assert Mono(s)[0] == s[0];
    }
  }

  lemma {:induction false} ColumnSumScales(s: Samples, i: nat, g: real)
    requires forall c :: 0 <= c < |s| ==> i < |s[c]|
    ensures ColumnSum(Gained(s, g), i) == ColumnSum(s, i) * g
  {
    if |s| > 0 {
      var t := s[..|s| - 1];
      ColumnSumScales(t, i, g);
      assert Gained(s, g)[..|s| - 1] == Gained(t, g);
    }
  }

  /** Downmixing and applying a gain commute: `to_mono` then `apply_gain(g)`
      equals `apply_gain(g)` then `to_mono`. */
  lemma MonoCommutesWithGain(s: Samples, g: real)
    requires |s| == 1 || MonoReadable(s)
    ensures Mono(Gained(s, g)) == Gained(Mono(s), g)
  {
    if |s| != 1 {
      forall i | 0 <= i < |s[0]|
        ensures ColumnSum(Gained(s, g), i) / (|s| as real) == ColumnSum(s, i) / (|s| as real) * g
      {
        ColumnSumScales(s, i, g);
        var n := |s| as real;
        assert ColumnSum(s, i) * g / n == ColumnSum(s, i) / n * g;
      }
      var left, right := Mono(Gained(s, g))[0], Gained(Mono(s), g)[0];
      assert |left| == |right|;
      forall i | 0 <= i < |left| ensures left[i] == right[i] {
      }
      assert left == right;
      assert |Mono(Gained(s, g))| == 1 == |Gained(Mono(s), g)|;
    }
  }

  /** A track's (or a mix bus's) multi-channel audio. */
  class AudioBuffer {
    var samples: Samples
    const sampleRate: nat

    /** `new(sample_rate, channels)`: `channels` empty channels. */
    constructor (sampleRate: nat, channels: nat)
      ensures this.sampleRate == sampleRate
      ensures |samples| == channels && forall c :: 0 <= c < channels ==> samples[c] == []
      ensures channels > 0 ==> IsEmpty()
    {
      this.sampleRate := sampleRate;
      samples := seq(channels, _ => []);
    }

    /** `from_data`: rejects storage with no channel at all. */
    static method FromData(data: Samples, sampleRate: nat) returns (r: Result<AudioBuffer>)
      ensures r.Err? <==> data == []
      ensures r.Err? ==> r.error == InvalidBuffer
      ensures r.Ok? ==> fresh(r.value) && r.value.samples == data && r.value.sampleRate == sampleRate
    {
      if data == [] {
        return Err(InvalidBuffer);
      }
      var b := new AudioBuffer(sampleRate, 0);
      b.samples := data;
      return Ok(b);
    }

    /** `len()`: the length of channel 0, which is the length of every
        channel of a rectangular buffer. */
    function Len(): (n: nat)
      reads this
      requires |samples| > 0
      ensures Rectangular(samples) ==> forall c :: 0 <= c < |samples| ==> |samples[c]| == n
    {
      |samples[0]|
    }

    function IsEmpty(): (e: bool)
      reads this
      requires |samples| > 0
      ensures Rectangular(samples) ==> (e <==> forall c :: 0 <= c < |samples| ==> samples[c] == [])
    {
      Len() == 0
    }

    /** `append_mono(x)`: every channel is extended by the same samples. */
    method AppendMono(x: seq<real>)
      modifies this
      ensures |samples| == |old(samples)|
      ensures forall c :: 0 <= c < |samples| ==> samples[c] == old(samples)[c] + x
      ensures Rectangular(old(samples)) ==> Rectangular(samples)
    {
      var c := 0;
      while c < |samples|
        invariant 0 <= c <= |samples| == |old(samples)|
        invariant forall k :: 0 <= k < c ==> samples[k] == old(samples)[k] + x
        invariant forall k :: c <= k < |samples| ==> samples[k] == old(samples)[k]
      {
        samples := samples[c := samples[c] + x];
        c := c + 1;
      }
    }

    /** `append(slices)`: one slice per channel, or `ChannelMismatch` and no
        change. */
    method Append(slices: seq<seq<real>>) returns (r: Result<()>)
      modifies this
      ensures r.Err? <==> |slices| != |old(samples)|
      ensures r.Err? ==> r.error == ChannelMismatch && samples == old(samples)
      ensures r.Ok? ==> |samples| == |old(samples)|
      ensures r.Ok? ==> forall c :: 0 <= c < |samples| ==> samples[c] == old(samples)[c] + slices[c]
    {
      if |slices| != |samples| {
        return Err(ChannelMismatch);
      }
      var c := 0;
      while c < |samples|
        invariant 0 <= c <= |samples| == |old(samples)| == |slices|
        invariant forall k :: 0 <= k < c ==> samples[k] == old(samples)[k] + slices[k]
        invariant forall k :: c <= k < |samples| ==> samples[k] == old(samples)[k]
      {
        samples := samples[c := samples[c] + slices[c]];
        c := c + 1;
      }
      return Ok(());
    }

    /** `clear()`: every channel emptied, the channel count kept. */
    method Clear()
      modifies this
      ensures |samples| == |old(samples)|
      ensures forall c :: 0 <= c < |samples| ==> samples[c] == []
    {
      var c := 0;
      while c < |samples|
        invariant 0 <= c <= |samples| == |old(samples)|
        invariant forall k :: 0 <= k < c ==> samples[k] == []
      {
        samples := samples[c := []];
        c := c + 1;
      }
    }

    /** `resize(n)`: every channel cut or zero-padded to `n` samples. */
    method Resize(n: nat)
      modifies this
      ensures samples == Resized(old(samples), n)
    {
      var c := 0;
      while c < |samples|
        invariant 0 <= c <= |samples| == |old(samples)|
        invariant forall k :: 0 <= k < c ==> samples[k] == ResizedChannel(old(samples)[k], n)
        invariant forall k :: c <= k < |samples| ==> samples[k] == old(samples)[k]
      {
        samples := samples[c := ResizedChannel(samples[c], n)];
        c := c + 1;
      }
    }

    /** `apply_gain(g)`: every sample multiplied by `g` in place. */
    method ApplyGain(g: real)
      modifies this
      ensures samples == Gained(old(samples), g)
    {
      var c := 0;
      while c < |samples|
        invariant 0 <= c <= |samples| == |old(samples)|
        invariant forall k :: 0 <= k < c ==> samples[k] == Gained(old(samples), g)[k]
        invariant forall k :: c <= k < |samples| ==> samples[k] == old(samples)[k]
      {
        var ch := samples[c];
        var i := 0;
        while i < |ch|
          invariant 0 <= i <= |ch| == |samples[c]|
          invariant forall j :: 0 <= j < i ==> ch[j] == samples[c][j] * g
          invariant forall j :: i <= j < |ch| ==> ch[j] == samples[c][j]
        {
          ch := ch[i := ch[i] * g];
          i := i + 1;
        }
        assert samples[c] == old(samples)[c];
        forall j | 0 <= j < |ch| ensures ch[j] == Gained(old(samples), g)[c][j] {
        }
        assert ch == Gained(old(samples), g)[c];
        samples := samples[c := ch];
        c := c + 1;
      }
    }

    /** `mix(other, g)`: `BufferMismatch` and no change unless the channel
        counts and sample rates agree; otherwise grow to the longer length
        and add `other`'s samples scaled by `g`. */
    method Mix(other: AudioBuffer, g: real) returns (r: Result<()>)
      requires |other.samples| == |samples| && other.sampleRate == sampleRate ==> |samples| > 0
      modifies this
      ensures r.Err? <==> |old(other.samples)| != |old(samples)| || other.sampleRate != sampleRate
      ensures r.Err? ==> r.error == BufferMismatch && samples == old(samples)
      ensures r.Ok? ==> samples == Mixed(old(samples), old(other.samples), g)
    {
      if |other.samples| != |samples| || other.sampleRate != sampleRate {
        return Err(BufferMismatch);
      }
      var src := other.samples;
      var target := Max(Len(), other.Len());
      Resize(target);
      ghost var padded := samples;
      var c := 0;
      while c < |samples| && c < |src|
        invariant 0 <= c <= |samples| == |padded| == |src|
        invariant forall k :: 0 <= k < c ==> samples[k] == MixedChannel(padded[k], src[k], g)
        invariant forall k :: c <= k < |samples| ==> samples[k] == padded[k]
      {
        var ch := samples[c];
        var i := 0;
        while i < |ch| && i < |src[c]|
          invariant 0 <= i <= |ch| == |samples[c]| && i <= |src[c]|
          invariant forall j :: 0 <= j < i ==> ch[j] == samples[c][j] + src[c][j] * g
          invariant forall j :: i <= j < |ch| ==> ch[j] == samples[c][j]
        {
          ch := ch[i := ch[i] + src[c][i] * g];
          i := i + 1;
        }
        forall j | 0 <= j < |ch| ensures ch[j] == MixedChannel(samples[c], src[c], g)[j] {
          if j < i {
            assert j < |src[c]|;
          } else {
            assert i == |src[c]|;
          }
        }
        assert ch == MixedChannel(samples[c], src[c], g);
        samples := samples[c := ch];
        c := c + 1;
      }
      assert samples == Mixed(old(samples), src, g);
      return Ok(());
    }

    /** `to_mono()`: replace the channels by their mean; nothing to do on a
        single channel. */
    method ToMono()
      requires |samples| != 1 ==> MonoReadable(samples)
      modifies this
      ensures samples == Mono(old(samples))
    {
      if |samples| == 1 {
        return;
      }
      var s := samples;
      var mono: seq<real> := [];
      var i := 0;
      while i < |s[0]|
        invariant 0 <= i <= |s[0]| && |mono| == i
        invariant forall k :: 0 <= k < i ==> mono[k] == ColumnSum(s, k) / (|s| as real)
      {
        var sum := 0.0;
        var c := 0;
        while c < |s|
          invariant 0 <= c <= |s|
          invariant sum == ColumnSum(s[..c], i)
        {
          assert s[..c + 1][..c] == s[..c];
          sum := sum + s[c][i];
          c := c + 1;
        }
        assert s[..|s|] == s;
        mono := mono + [sum / (|s| as real)];
        i := i + 1;
      }
      assert mono == Mono(s)[0];
      samples := [mono];
    }
  }

  /** The sequence of operations of the unit test at buffer.rs:271-284,
      with what the test asserts after each step proved from the contracts. */
  method BufferOperationsExample() {
    var buffer := new AudioBuffer(44100, 2);
    buffer.AppendMono([1.0, 2.0, 3.0]);
    assert buffer.Len() == 3;
    assert buffer.samples[0] == [1.0, 2.0, 3.0] && buffer.samples[1] == [1.0, 2.0, 3.0];
    buffer.ApplyGain(0.5);
    assert buffer.samples[0] == [0.5, 1.0, 1.5] && buffer.samples[1] == [0.5, 1.0, 1.5];
    MonoOfEqualChannels(buffer.samples);
    buffer.ToMono();
    assert |buffer.samples| == 1;
    assert buffer.samples[0] == [0.5, 1.0, 1.5];
  }

  /** Backing storage handed out by the pool: one sample vector per channel. */
  type Storage = Samples

  /** The pool's queues, keyed by channel count; each queue is FIFO, with
      its front at index 0. */
  type Queues = map<nat, seq<Storage>>

  /** A checked-out storage together with the queues left behind. */
  datatype Checkout = Checkout(data: Storage, queues: Queues)

  /** `get(channels, _)`: the bucket for `channels` is created if missing;
      its front storage is taken if there is one, otherwise fresh storage of
      `channels` empty channels is made. */
  function Taken(q: Queues, channels: nat): Checkout {
    if channels in q && |q[channels]| > 0 then
      Checkout(q[channels][0], q[channels := q[channels][1..]])
    else
      Checkout(seq(channels, _ => []), q[channels := []])
  }

  /** `return_buffer(data)`: the storage is queued at the back of the bucket
      for its channel count only while the number of BUCKETS is below the
      cap and that bucket exists; otherwise it is dropped. */
  function Returned(q: Queues, maxBuffers: nat, data: Storage): Queues {
    if |q| < maxBuffers && |data| in q then q[|data| := q[|data|] + [data]] else q
  }

  /** Storage returned one after the other. */
  function ReturnedAll(q: Queues, maxBuffers: nat, ds: seq<Storage>): Queues
    decreases |ds|
  {
    if ds == [] then q else ReturnedAll(Returned(q, maxBuffers, ds[0]), maxBuffers, ds[1..])
  }

  /** Every queued storage has the channel count of its bucket. */
  predicate QueuesValid(q: Queues) {
    forall k :: k in q ==> forall j :: 0 <= j < |q[k]| ==> |q[k][j]| == k
  }

  /** The cap counts buckets, not entries: while a pool holds a single
      bucket and the cap is at least 2, every storage of that channel count
      that comes back is queued, so the bucket grows without bound (a pool
      with `max_buffers = 10` accepts an 11th, 12th, ... buffer). */
  lemma {:induction false} SingleBucketGrowsWithoutBound(q: Queues, maxBuffers: nat, k: nat, ds: seq<Storage>)
    requires q.Keys == {k} && maxBuffers >= 2
    requires forall j :: 0 <= j < |ds| ==> |ds[j]| == k
    ensures ReturnedAll(q, maxBuffers, ds).Keys == {k}
    ensures ReturnedAll(q, maxBuffers, ds)[k] == q[k] + ds
    decreases |ds|
  {
    if ds != [] {
      assert |q| == |q.Keys| == 1;
      var q' := Returned(q, maxBuffers, ds[0]);
      assert q' == q[k := q[k] + [ds[0]]];
      assert q'.Keys == {k};
      SingleBucketGrowsWithoutBound(q', maxBuffers, k, ds[1..]);
      assert q[k] + [ds[0]] + ds[1..] == q[k] + ds;
    }
  }

  /** Storage is not cleared on its way back: checking out from a bucket
      whose queue was empty hands back the returned storage with the samples
      it held. */
  lemma ReuseKeepsContents(q: Queues, maxBuffers: nat, data: Storage)
    requires |data| in q && q[|data|] == [] && |q| < maxBuffers
    ensures Taken(Returned(q, maxBuffers, data), |data|) == Checkout(data, q)
  {
  }

  /** Queues are first-in first-out: a storage returned to a non-empty
      bucket is not the next one handed out. */
  lemma ReturnThenTakeIsFifo(q: Queues, maxBuffers: nat, data: Storage)
    requires |data| in q && |q[|data|]| > 0
    ensures Taken(Returned(q, maxBuffers, data), |data|).data == q[|data|][0]
  {
  }

  /** The shared pool of reusable storage. */
  class BufferPool {
    var pool: Queues
    const maxBuffers: nat

    ghost predicate Valid()
      reads this
    {
      QueuesValid(pool)
    }

    /** `new(max_buffers)`: no bucket yet. */
    constructor (maxBuffers: nat)
      ensures Valid() && pool == map[] && this.maxBuffers == maxBuffers
    {
      pool := map[];
      this.maxBuffers := maxBuffers;
    }

    /** `get(channels, capacity)`: the reserved capacity is not modelled. */
    method Get(channels: nat, capacity: nat) returns (b: PooledBuffer)
      requires Valid()
      modifies this
      ensures Valid() && fresh(b) && b.pool == this
      ensures Checkout(b.data, pool) == Taken(old(pool), channels)
      ensures |b.data| == channels
    {
      if channels !in pool {
        pool := pool[channels := []];
      }
      var queue := pool[channels];
      if |queue| > 0 {
        pool := pool[channels := queue[1..]];
        b := new PooledBuffer(queue[0], this);
      } else {
        b := new PooledBuffer(seq(channels, _ => []), this);
      }
    }

    /** `return_buffer(data)`, called when a pooled buffer is dropped. */
    method ReturnBuffer(data: Storage)
      requires Valid()
      modifies this
      ensures Valid() && pool == Returned(old(pool), maxBuffers, data)
    {
      if |pool| < maxBuffers {
        var channels := |data|;
        if channels in pool {
          pool := pool[channels := pool[channels] + [data]];
        }
      }
    }
  }

  /** A checked-out storage that goes back to its pool when dropped. The
      source builds the handle's pool reference with `Arc::new(self.clone())`;
      the model takes the evident intent that the handle refers to the pool
      it came from. */
  class PooledBuffer {
    var data: Storage
    const pool: BufferPool

    constructor (data: Storage, pool: BufferPool)
      ensures this.data == data && this.pool == pool
    {
      this.data := data;
      this.pool := pool;
    }

    /** `PooledBuffer::new(pool, channels, capacity)` is `pool.get(...)`. */
    static method New(pool: BufferPool, channels: nat, capacity: nat) returns (b: PooledBuffer)
      requires pool.Valid()
      modifies pool
      ensures pool.Valid() && fresh(b) && b.pool == pool
      ensures Checkout(b.data, pool.pool) == Taken(old(pool.pool), channels)
      ensures |b.data| == channels
    {
      b := pool.Get(channels, capacity);
    }

    /** `len()`: the length of channel 0. */
    function Len(): (n: nat)
      reads this
      requires |data| > 0
      ensures Rectangular(data) ==> forall c :: 0 <= c < |data| ==> |data[c]| == n
    {
      |data[0]|
    }

    /** `buffer[c].extend_from_slice(x)` through the mutable view of the
        channels. */
    method ExtendChannel(c: nat, x: seq<real>)
      requires c < |data|
      modifies this
      ensures data == old(data)[c := old(data)[c] + x]
    {
      data := data[c := data[c] + x];
    }

    /** `drop`: the storage is moved out (the handle keeps an empty vector)
        and offered back to the pool. */
    method Drop()
      requires pool.Valid()
      modifies this, pool
      ensures pool.Valid() && data == []
      ensures pool.pool == Returned(old(pool.pool), pool.maxBuffers, old(data))
    {
      var storage := data;
      data := [];
      pool.ReturnBuffer(storage);
    }
  }

  /** The sequence of the unit test at buffer.rs:286-297: what was written
      into a pooled buffer is still there when the pool hands the same
      storage out again. */
  method BufferPoolExample() {
    var pool := new BufferPool(10);
    var buffer := PooledBuffer.New(pool, 2, 1024);
    assert pool.pool == map[2 := []] && buffer.data == [[], []];
    assert |pool.pool| == |pool.pool.Keys| == |{2}| == 1;
    buffer.ExtendChannel(0, [1.0, 2.0]);
    assert buffer.data[0] == [1.0, 2.0];
    buffer.ExtendChannel(1, [3.0, 4.0]);
    assert buffer.data[1] == [3.0, 4.0];
    assert buffer.data == [[1.0, 2.0], [3.0, 4.0]];
    assert pool.pool == map[2 := []] && |pool.pool| < pool.maxBuffers;
    assert |pool.pool| == 1 && pool.maxBuffers == 10;
    assert |buffer.data| in pool.pool;
    assert pool.pool[|buffer.data|] + [buffer.data] == [buffer.data];
    assert pool.pool[2 := [buffer.data]] == map[2 := [buffer.data]];
    assert Returned(pool.pool, 10, buffer.data) == map[2 := [buffer.data]];
    buffer.Drop();
    assert pool.pool == map[2 := [[[1.0, 2.0], [3.0, 4.0]]]];
    var again := PooledBuffer.New(pool, 2, 1024);
    assert again.data == [[1.0, 2.0], [3.0, 4.0]];
  }
}
