/**
 * The effects chain (src/audio/effects/mod.rs): an enabled flag and an
 * ordered list of effect units applied one after the other to a buffer.
 *
 * The effect units themselves are not part of this model: each is an
 * arbitrary function from the buffer's samples to the samples it leaves
 * behind and the error it reports, if any.
 */
module Effects {
  import opened Errors
  import Buffers

  type Samples = Buffers.Samples

  /** What an effect (or a run of effects) leaves in the buffer, and the
      error it reports, if any. */
  datatype Applied<E> = Applied(samples: Samples, failure: Option<E>)

  /** One effect unit. On failure it may already have changed the buffer. */
  type Effect = Samples -> Applied<AudioError>

  /** The effects applied in order as total functions, every one receiving
      the previous one's output, failures ignored. */
  function Compose(effects: seq<Effect>, s: Samples): Samples
    decreases |effects|
  {
    if effects == [] then s else Compose(effects[1..], effects[0](s).samples)
  }

  /** The loop of `process` on an enabled chain: the effects in list order,
      stopping at the first one that fails, keeping what it left behind. */
  function RunChain(effects: seq<Effect>, s: Samples): Applied<AudioError>
    decreases |effects|
  {
    if effects == [] then Applied(s, None)
    else
      var before := RunChain(effects[..|effects| - 1], s);
      if before.failure.Some? then before else effects[|effects| - 1](before.samples)
  }

  lemma {:induction false} ComposeAppend(a: seq<Effect>, b: seq<Effect>, s: Samples)
    ensures Compose(a + b, s) == Compose(b, Compose(a, s))
    decreases |a|
  {
    if a != [] {
      assert (a + b)[0] == a[0] && (a + b)[1..] == a[1..] + b;
      var next := a[0](s).samples;
      ComposeAppend(a[1..], b, next);
      assert Compose(a + b, s) == Compose(a[1..] + b, next);
      assert Compose(a, s) == Compose(a[1..], next);
    } else {
      assert a + b == b;
    }
  }

  /** A chain split anywhere runs as its first part followed, unless that
      part failed, by its second part on the first part's output. */
  lemma {:induction false} RunChainAppend(a: seq<Effect>, b: seq<Effect>, s: Samples)
    ensures RunChain(a + b, s) ==
      (var first := RunChain(a, s); if first.failure.Some? then first else RunChain(b, first.samples))
    decreases |b|
  {
    if b == [] {
      assert a + b == a;
    } else {
      var b' := b[..|b| - 1];
      assert (a + b)[..|a + b| - 1] == a + b';
      RunChainAppend(a, b', s);
    }
  }

  /** A chain succeeds exactly when every effect succeeds on the output of
      the effects before it, and its result is then the composition of all
      effects in order. */
  lemma {:induction false} ChainSucceedsIff(effects: seq<Effect>, s: Samples)
    ensures RunChain(effects, s).failure.None? <==>
      forall k :: 0 <= k < |effects| ==> effects[k](Compose(effects[..k], s)).failure.None?
    ensures RunChain(effects, s).failure.None? ==> RunChain(effects, s).samples == Compose(effects, s)
    decreases |effects|
  {
    if effects != [] {
      var n := |effects| - 1;
      var init := effects[..n];
      ChainSucceedsIff(init, s);
      ComposeAppend(init, [effects[n]], s);
      assert init + [effects[n]] == effects;
      forall k | 0 <= k < n ensures effects[..k] == init[..k] && effects[k] == init[k] {
      }
    }
  }

  /** The first failing effect decides the outcome: its error is returned,
      the buffer holds what it left behind (what the effects before it did
      is not rolled back), and no effect after it has any influence. */
  lemma FirstFailureIsReturned(effects: seq<Effect>, s: Samples, k: nat)
    requires k < |effects|
    requires forall j :: 0 <= j < k ==> effects[j](Compose(effects[..j], s)).failure.None?
    requires effects[k](Compose(effects[..k], s)).failure.Some?
    ensures RunChain(effects, s) == effects[k](Compose(effects[..k], s))
  {
    var prefix := effects[..k];
    ChainSucceedsIff(prefix, s);
    forall j | 0 <= j < k ensures prefix[..j] == effects[..j] {
    }
    assert prefix + [effects[k]] == effects[..k + 1];
    RunChainAppend(effects[..k + 1], effects[k + 1..], s);
    assert effects[..k + 1] + effects[k + 1..] == effects;
  }

  /** `EffectsChain`: `process` does nothing on a disabled chain. */
  class EffectsChain {
    var effects: seq<Effect>
    var enabled: bool

    constructor (effects: seq<Effect>, enabled: bool)
      ensures this.effects == effects && this.enabled == enabled
    {
      this.effects := effects;
      this.enabled := enabled;
    }

    /** `process(buffer)`: `Ok` and no change when disabled; otherwise the
        effects in list order until the first error, which is returned. */
    method Process(buffer: Buffers.AudioBuffer) returns (r: Result<()>)
      modifies buffer
      ensures !enabled ==> r == Ok(()) && buffer.samples == old(buffer.samples)
      ensures enabled ==> buffer.samples == RunChain(effects, old(buffer.samples)).samples
      ensures enabled ==> r == match RunChain(effects, old(buffer.samples)).failure
                             case None => Ok(())
                             case Some(e) => Err(e)
    {
      if !enabled {
        return Ok(());
      }
      var i := 0;
      while i < |effects|
        invariant 0 <= i <= |effects|
        invariant RunChain(effects[..i], old(buffer.samples)) == Applied(buffer.samples, None)
      {
        assert effects[..i + 1][..i] == effects[..i];
        var applied := effects[i](buffer.samples);
        buffer.samples := applied.samples;
        if applied.failure.Some? {
          RunChainAppend(effects[..i + 1], effects[i + 1..], old(buffer.samples));
          assert effects[..i + 1] + effects[i + 1..] == effects;
          return Err(applied.failure.value);
        }
        i := i + 1;
      }
      assert effects[..|effects|] == effects;
      return Ok(());
    }
  }
}
