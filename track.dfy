/**
 * One loop track (src/core/track.rs): its state machine, its own small
 * multi-channel buffer, the playhead, overdubbing, and the bounded
 * undo/redo history of buffer snapshots.
 *
 * The track's effects processor is not part of this model: per-sample
 * processing and whole-buffer processing are parameters of the operations
 * that call them.
 */
module Tracks {
  import opened Errors
  import opened Modular
  import Buffers
  import Effects
  import Clock

  type Samples = Buffers.Samples

  // ---------------------------------------------------------------------
  // State machine

  datatype TrackState = Idle | Recording | Playing | Overdubbing | Stopped | Muted

  /** The three events that move a track between states. */
  datatype Transition = StartRecording | StopRecording | StartOverdub

  /** The state an event leads to, or `None` when the current state rejects
      it (the operation then fails with `InvalidStateTransition`). */
  function Next(s: TrackState, t: Transition): Option<TrackState> {
    match t
    case StartRecording => if s == Idle || s == Stopped then Some(Recording) else None
    case StopRecording => if s == Recording then Some(Playing) else None
    case StartOverdub => if s == Playing then Some(Overdubbing) else None
  }

  /** The state after an event, a rejected event leaving it as it was. */
  function After(s: TrackState, t: Transition): TrackState {
    match Next(s, t)
    case Some(n) => n
    case None => s
  }

  /** The state after a sequence of events. */
  function Run(s: TrackState, ts: seq<Transition>): TrackState
    decreases |ts|
  {
    if ts == [] then s else Run(After(s, ts[0]), ts[1..])
  }

  /** The states a freshly created track can reach. */
  predicate Reachable(s: TrackState) {
    s == Idle || s == Recording || s == Playing || s == Overdubbing
  }

  /** No event leaves overdubbing: once a track overdubs, no sequence of
      these events brings it back to playing or recording. */
  lemma {:induction false} OverdubbingIsFinal(ts: seq<Transition>)
    ensures Run(Overdubbing, ts) == Overdubbing
    decreases |ts|
  {
    if ts != [] {
      OverdubbingIsFinal(ts[1..]);
    }
  }

  /** No event leads into `Stopped` or `Muted`: from a new track (or any
      state it can reach) those two states are never entered. */
  lemma {:induction false} StoppedAndMutedUnreachable(s: TrackState, ts: seq<Transition>)
    requires Reachable(s)
    ensures Reachable(Run(s, ts))
    decreases |ts|
  {
    if ts != [] {
      StoppedAndMutedUnreachable(After(s, ts[0]), ts[1..]);
    }
  }

  // ---------------------------------------------------------------------
  // The track's own buffer type

  /** The `AudioBuffer` private to the track module (not the one of the
      buffer module): a vector of channels and a sample rate. */
  class AudioBuffer {
    var samples: Samples
    const sampleRate: nat

    /** `new(sample_rate, channels)`: `channels` empty channels. */
    constructor (sampleRate: nat, channels: nat)
      ensures |samples| == channels && forall c :: 0 <= c < channels ==> samples[c] == []
      ensures this.sampleRate == sampleRate
    {
      this.sampleRate := sampleRate;
      samples := seq(channels, _ => []);
    }

    /** `append(x)`: the same samples are appended to every channel. */
    method Append(x: seq<real>)
      modifies this
      ensures |samples| == |old(samples)|
      ensures forall c :: 0 <= c < |samples| ==> samples[c] == old(samples)[c] + x
    {
      var c := 0;
      while c < |samples|
        invariant 0 <= c <= |samples| == |old(samples)|
        invariant forall d :: 0 <= d < c ==> samples[d] == old(samples)[d] + x
        invariant forall d :: c <= d < |samples| ==> samples[d] == old(samples)[d]
      {
        samples := samples[c := samples[c] + x];
        c := c + 1;
      }
    }

    /** `clear()`: every channel emptied, the channel count kept. */
    method Clear()
      modifies this
      ensures |samples| == |old(samples)|
      ensures forall c :: 0 <= c < |samples| ==> samples[c] == []
    {
      var c := 0;
      while c < |samples|
        invariant 0 <= c <= |samples| == |old(samples)|
        invariant forall d :: 0 <= d < c ==> samples[d] == []
      {
        samples := samples[c := []];
        c := c + 1;
      }
    }

    /** `len()`: the length of channel 0, which must exist. */
    function Len(): (n: nat)
      reads this
      requires |samples| > 0
      ensures n == 0 <==> samples[0] == []
    {
      |samples[0]|
    }
  }

  // ---------------------------------------------------------------------
  // Overdubbing

  /** The position input sample `i` lands on: `(cursor + i) % n`. */
  function Landing(cursor: nat, i: nat, n: nat): nat
    requires n > 0
  {
    (cursor + i) % n
  }

  /** Channel `ch` after adding input `x` sample by sample, sample `i` at
      position `(cursor + i) % |ch|`, wrapping around the channel as often
      as the input is long. */
  function Overdubbed(ch: seq<real>, cursor: nat, x: seq<real>): (r: seq<real>)
    requires |ch| > 0
    ensures |r| == |ch|
    decreases |x|
  {
    if x == [] then ch
    else
      var prev := Overdubbed(ch, cursor, x[..|x| - 1]);
      var pos := Landing(cursor, |x| - 1, |ch|);
      prev[pos := prev[pos] + x[|x| - 1]]
  }

  /** The sum of the input samples that land on position `p`. */
  function Hits(x: seq<real>, cursor: nat, n: nat, p: nat): real
    requires n > 0
    decreases |x|
  {
    if x == [] then 0.0
    else Hits(x[..|x| - 1], cursor, n, p) + (if Landing(cursor, |x| - 1, n) == p then x[|x| - 1] else 0.0)
  }

  /** Every position ends up holding its old sample plus every input sample
      that landed on it, however many times the input wrapped around. */
  lemma {:induction false} OverdubbedAt(ch: seq<real>, cursor: nat, x: seq<real>, p: nat)
    requires 0 <= p < |ch|
    ensures Overdubbed(ch, cursor, x)[p] == ch[p] + Hits(x, cursor, |ch|, p)
    decreases |x|
  {
    if x != [] {
      OverdubbedAt(ch, cursor, x[..|x| - 1], p);
    }
  }

  /** Two input samples less than a whole loop apart land on different
      positions. */
  lemma {:induction false} DistinctPositions(cursor: nat, n: nat, i: nat, j: nat)
    requires i < j < n
    ensures Landing(cursor, i, n) != Landing(cursor, j, n)
  {
    var qi, qj := (cursor + i) / n, (cursor + j) / n;
    if (cursor + i) % n == (cursor + j) % n {
      assert (qj - qi) * n == j - i;
      ProductOrderCancels(qj - qi, 1, n);
      ProductOrderCancels(0, qj - qi, n);
    }
  }

  lemma {:induction false} HitsNone(x: seq<real>, cursor: nat, n: nat, p: nat)
    requires n > 0
    requires forall i :: 0 <= i < |x| ==> Landing(cursor, i, n) != p
    ensures Hits(x, cursor, n, p) == 0.0
    decreases |x|
  {
    if x != [] {
      HitsNone(x[..|x| - 1], cursor, n, p);
    }
  }

  lemma {:induction false} HitsOne(x: seq<real>, cursor: nat, n: nat, i: nat)
    requires |x| <= n && i < |x|
    ensures Hits(x, cursor, n, Landing(cursor, i, n)) == x[i]
    decreases |x|
  {
    var m := |x| - 1;
    var p := Landing(cursor, i, n);
    var init := x[..m];
    if i == m {
      forall k | 0 <= k < |init| ensures Landing(cursor, k, n) != p {
        DistinctPositions(cursor, n, k, i);
      }
      HitsNone(init, cursor, n, p);
    } else {
      HitsOne(init, cursor, n, i);
      DistinctPositions(cursor, n, i, m);
    }
  }

  /** An overdub no longer than the loop adds input sample `i` to position
      `(cursor + i) % |ch|` and leaves every other position as it was. */
  lemma OverdubWithinLoop(ch: seq<real>, cursor: nat, x: seq<real>)
    requires 0 < |ch| && |x| <= |ch|
    ensures forall i :: 0 <= i < |x| ==>
      Overdubbed(ch, cursor, x)[Landing(cursor, i, |ch|)] == ch[Landing(cursor, i, |ch|)] + x[i]
    ensures forall p :: 0 <= p < |ch| && (forall i :: 0 <= i < |x| ==> Landing(cursor, i, |ch|) != p) ==>
      Overdubbed(ch, cursor, x)[p] == ch[p]
  {
    forall i | 0 <= i < |x|
      ensures Overdubbed(ch, cursor, x)[Landing(cursor, i, |ch|)] == ch[Landing(cursor, i, |ch|)] + x[i]
    {
      OverdubbedAt(ch, cursor, x, Landing(cursor, i, |ch|));
      HitsOne(x, cursor, |ch|, i);
    }
    forall p | 0 <= p < |ch| && (forall i :: 0 <= i < |x| ==> Landing(cursor, i, |ch|) != p)
      ensures Overdubbed(ch, cursor, x)[p] == ch[p]
    {
      OverdubbedAt(ch, cursor, x, p);
      HitsNone(x, cursor, |ch|, p);
    }
  }

  // ---------------------------------------------------------------------
  // Playback

  /** One step of the playhead: `cursor += 1`, back to 0 on reaching the
      loop length. */
  function Advanced(p: nat, len: nat): nat {
    if p + 1 >= len then 0 else p + 1
  }

  /** The playhead after `k` output samples. */
  function PlayheadAfter(c: nat, len: nat, k: nat): nat
    decreases k
  {
    if k == 0 then c else Advanced(PlayheadAfter(c, len, k - 1), len)
  }

  /** The index output sample `k` reads: `cursor % len` at that moment. */
  function ReadIndex(c: nat, len: nat, k: nat): nat
    requires len > 0
  {
    PlayheadAfter(c, len, k) % len
  }

  /** Playing `a + b` samples is playing `a` and then `b`. */
  lemma {:induction false} PlayheadSplits(c: nat, len: nat, a: nat, b: nat)
    ensures PlayheadAfter(c, len, a + b) == PlayheadAfter(PlayheadAfter(c, len, a), len, b)
    decreases b
  {
    if b > 0 {
      PlayheadSplits(c, len, a, b - 1);
    }
  }

  /** From a playhead inside the loop, output sample `k` reads position
      `(c + k) % len`: playback walks the loop cyclically. */
  lemma {:induction false} PlaybackIsCyclic(c: nat, len: nat, k: nat)
    requires c < len
    ensures PlayheadAfter(c, len, k) == (c + k) % len
    decreases k
  {
    if k == 0 {
      ModUnique(c, len, 0, c);
    } else {
      PlaybackIsCyclic(c, len, k - 1);
      ModSuccessor(c + k - 1, len);
    }
  }

  /** As written, right after `stop_recording` the playhead equals the loop
      length (the number of samples recorded). The first output then reads
      position `len % len == 0` and the wrap sets the playhead to 0, so the
      second output reads position 0 again: output `j >= 1` reads sample
      `(j - 1) % len`, and the first `len` outputs play sample 0 twice and
      never reach sample `len - 1`. */
  lemma ReplayAfterStopRepeatsFirstSample(len: nat)
    requires len > 0
    ensures ReadIndex(len, len, 0) == 0
    ensures forall j :: 1 <= j ==> ReadIndex(len, len, j) == (j - 1) % len
    ensures len >= 2 ==> ReadIndex(len, len, 1) == 0
    ensures forall j :: 0 <= j < len ==> ReadIndex(len, len, j) != len - 1 || len == 1
  {
    ModUnique(len, len, 1, 0);
    forall j | 1 <= j
      ensures ReadIndex(len, len, j) == (j - 1) % len
    {
      PlayheadSplits(len, len, 1, j - 1);
      PlaybackIsCyclic(0, len, j - 1);
      ModUnique((j - 1) % len, len, 0, (j - 1) % len);
    }
    forall j | 0 <= j < len
      ensures ReadIndex(len, len, j) != len - 1 || len == 1
    {
      if j >= 1 {
        ModUnique(j - 1, len, 0, j - 1);
      }
    }
  }

  /** The evidently intended step: bring the playhead into the loop before
      advancing it, so the sample after the one just read comes next. */
  function IntendedAdvanced(p: nat, len: nat): nat
    requires len > 0
  {
    var q := p % len + 1;
    if q >= len then 0 else q
  }

  function IntendedPlayheadAfter(c: nat, len: nat, k: nat): nat
    requires len > 0
    decreases k
  {
    if k == 0 then c else IntendedAdvanced(IntendedPlayheadAfter(c, len, k - 1), len)
  }

  function IntendedReadIndex(c: nat, len: nat, k: nat): nat
    requires len > 0
  {
    IntendedPlayheadAfter(c, len, k) % len
  }

  /** With the intended step the playhead is `(c + k) % len` after `k`
      output samples, wherever it starts. */
  lemma {:induction false} IntendedPlayheadIsCyclic(c: nat, len: nat, k: nat)
    requires len > 0 && k > 0
    ensures IntendedPlayheadAfter(c, len, k) == (c + k) % len
    decreases k
  {
    var prev := IntendedPlayheadAfter(c, len, k - 1);
    if k == 1 {
      ModSuccessor(c, len);
    } else {
      IntendedPlayheadIsCyclic(c, len, k - 1);
      ModUnique(prev, len, 0, prev);
      ModSuccessor(c + k - 1, len);
    }
  }

  /** With the intended step, output sample `k` reads position
      `(c + k) % len` wherever the playhead starts; in particular, right
      after `stop_recording` the loop is replayed from its first sample,
      each sample once and in order. */
  lemma IntendedPlaybackIsCyclic(c: nat, len: nat, k: nat)
    requires len > 0
    ensures IntendedReadIndex(c, len, k) == (c + k) % len
    ensures c == len && k < len ==> IntendedReadIndex(c, len, k) == k
  {
    if k > 0 {
      IntendedPlayheadIsCyclic(c, len, k);
      ModUnique((c + k) % len, len, 0, (c + k) % len);
    }
    if c == len && k < len {
      ModUnique(c + k, len, 1, k);
    }
  }

  // ---------------------------------------------------------------------
  // Undo / redo history

  /** `BufferHistory`: a copy of the buffer's samples and the playhead. */
  datatype Snapshot = Snapshot(samples: Samples, cursor: nat)

  /** The undo stack keeps at most this many snapshots. */
  const HISTORY_LIMIT: nat := 32

  /** The undo and redo stacks, top of stack last. */
  datatype History = History(undo: seq<Snapshot>, redo: seq<Snapshot>)

  /** `save_to_history`: drop the oldest snapshot when the undo stack is
      full, push the current one, and forget the redo stack. */
  function Saved(h: History, current: Snapshot): History {
    var kept := if |h.undo| >= HISTORY_LIMIT then h.undo[1..] else h.undo;
    History(kept + [current], [])
  }

  /** `undo`: `None` on an empty undo stack; otherwise the current snapshot
      moves onto the redo stack and the top undo snapshot becomes current. */
  function Undone(h: History, current: Snapshot): Option<(History, Snapshot)> {
    if h.undo == [] then None
    else Some((History(h.undo[..|h.undo| - 1], h.redo + [current]), h.undo[|h.undo| - 1]))
  }

  /** `redo`: the mirror image of `undo`. */
  function Redone(h: History, current: Snapshot): Option<(History, Snapshot)> {
    if h.redo == [] then None
    else Some((History(h.undo + [current], h.redo[..|h.redo| - 1]), h.redo[|h.redo| - 1]))
  }

  /** Undo followed by redo (and redo followed by undo) gives back the
      history and the current snapshot from before. */
  lemma UndoRedoRoundTrip(h: History, current: Snapshot)
    ensures Undone(h, current).Some? ==>
      var (h', c') := Undone(h, current).value; Redone(h', c') == Some((h, current))
    ensures Redone(h, current).Some? ==>
      var (h', c') := Redone(h, current).value; Undone(h', c') == Some((h, current))
  {
    if h.undo != [] {
      assert h.undo[..|h.undo| - 1] + [h.undo[|h.undo| - 1]] == h.undo;
    }
    if h.redo != [] {
      assert h.redo[..|h.redo| - 1] + [h.redo[|h.redo| - 1]] == h.redo;
    }
  }

  /** The last `n` elements of `s` (all of them when there are fewer). */
  function Newest(s: seq<Snapshot>, n: nat): (r: seq<Snapshot>)
    ensures |r| <= n && |r| <= |s|
  {
    if |s| <= n then s else s[|s| - n..]
  }

  /** The history after saving each of `cs` in turn. */
  function SavedAll(h: History, cs: seq<Snapshot>): History
    decreases |cs|
  {
    if cs == [] then h else Saved(SavedAll(h, cs[..|cs| - 1]), cs[|cs| - 1])
  }

  /** However many snapshots are saved, the undo stack holds exactly the
      newest `HISTORY_LIMIT` of them, oldest first, and the redo stack is
      empty. */
  lemma {:induction false} SavesKeepNewest(h: History, cs: seq<Snapshot>)
    requires |h.undo| <= HISTORY_LIMIT
    ensures SavedAll(h, cs).undo == Newest(h.undo + cs, HISTORY_LIMIT)
    ensures cs != [] ==> SavedAll(h, cs).redo == []
    decreases |cs|
  {
    if cs == [] {
      assert h.undo + cs == h.undo;
    } else {
      var init := cs[..|cs| - 1];
      var c := cs[|cs| - 1];
      SavesKeepNewest(h, init);
      var before := h.undo + init;
      assert h.undo + cs == before + [c];
      var all := before + [c];
      if |before| >= HISTORY_LIMIT {
        var prev := before[|before| - HISTORY_LIMIT..];
        assert prev[1..] + [c] == all[|all| - HISTORY_LIMIT..];
      }
    }
  }

  /** The history and current snapshot after `k` undos, `None` if one fails. */
  function UndoneTimes(h: History, current: Snapshot, k: nat): Option<(History, Snapshot)>
    decreases k
  {
    if k == 0 then Some((h, current))
    else match Undone(h, current)
      case None => None
      case Some(p) => UndoneTimes(p.0, p.1, k - 1)
  }

  /** `k` undos succeed exactly when the undo stack holds `k` snapshots;
      they pop the top `k`, and the last one popped becomes current. */
  lemma {:induction false} UndoneTimesPops(h: History, current: Snapshot, k: nat)
    ensures k <= |h.undo| ==> (UndoneTimes(h, current, k).Some?
      && UndoneTimes(h, current, k).value.0.undo == h.undo[..|h.undo| - k]
      && (k > 0 ==> UndoneTimes(h, current, k).value.1 == h.undo[|h.undo| - k]))
    ensures k > |h.undo| ==> UndoneTimes(h, current, k) == None
    decreases k
  {
    if k > 0 && h.undo != [] {
      var n := |h.undo|;
      var (h', c') := Undone(h, current).value;
      UndoneTimesPops(h', c', k - 1);
      if k <= n {
        assert h'.undo[..n - 1 - (k - 1)] == h.undo[..n - k];
      }
    }
  }

  /** After saving the snapshots `cs` (one per destructive operation), `k`
      undos succeed exactly for `k` up to the number of snapshots kept,
      at most `HISTORY_LIMIT`, and the `k`-th restores the `k`-th newest
      snapshot; one more undo fails with nothing to undo. */
  lemma UndoAfterSaves(h: History, cs: seq<Snapshot>, current: Snapshot, k: nat)
    requires |h.undo| <= HISTORY_LIMIT
    ensures var all := h.undo + cs;
      var r := UndoneTimes(SavedAll(h, cs), current, k);
      (k <= |all| && k <= HISTORY_LIMIT ==> r.Some? && (k > 0 ==> r.value.1 == all[|all| - k]))
      && (k > |all| || k > HISTORY_LIMIT ==> r == None)
  {
    var all := h.undo + cs;
    SavesKeepNewest(h, cs);
    var kept := SavedAll(h, cs).undo;
    UndoneTimesPops(SavedAll(h, cs), current, k);
    if k <= |kept| && k > 0 {
      assert kept[|kept| - k] == all[|all| - k];
    }
  }

  /** The scenario of 33 destructive operations on a track with an empty
      history: 32 undos restore the state before the second operation, and
      the 33rd undo fails. */
  lemma ThirtyThreeSaves(cs: seq<Snapshot>, current: Snapshot)
    requires |cs| == 33
    ensures UndoneTimes(SavedAll(History([], []), cs), current, 32).Some?
    ensures UndoneTimes(SavedAll(History([], []), cs), current, 32).value.1 == cs[1]
    ensures UndoneTimes(SavedAll(History([], []), cs), current, 33) == None
  {
    UndoAfterSaves(History([], []), cs, current, 32);
    UndoAfterSaves(History([], []), cs, current, 33);
    assert [] + cs == cs;
  }

  // ---------------------------------------------------------------------
  // The track

  /** `Track`. Its id, name, colour and creation time are left out. */
  class Track {
    var state: TrackState
    const buffer: AudioBuffer
    var cursor: nat
    var loopLength: Option<nat>
    var undoStack: seq<Snapshot>
    var redoStack: seq<Snapshot>
    const quantizer: Clock.Quantizer
    const sampleRate: nat

    /** The two stacks together never hold more than `HISTORY_LIMIT`
        snapshots: a save empties the redo stack, undo and redo move one
        snapshot across. */
    ghost predicate Valid()
      reads this
    {
      |undoStack| + |redoStack| <= HISTORY_LIMIT
    }

    function Hist(): History
      reads this
    {
      History(undoStack, redoStack)
    }

    function Current(): Snapshot
      reads this, buffer
    {
      Snapshot(buffer.samples, cursor)
    }

    /** Playback produces samples: the track plays or overdubs, and its
        buffer has a channel 0 holding at least one sample. */
    predicate Plays()
      reads this, buffer
    {
      (state == Playing || state == Overdubbing) && |buffer.samples| > 0 && buffer.samples[0] != []
    }

    /** The loop length if one was set, else the buffer's length. */
    function EffectiveLength(): nat
      reads this, buffer
      requires |buffer.samples| > 0
    {
      match loopLength
      case Some(n) => n
      case None => buffer.Len()
    }

    /** `new(id, name, sample_rate, channels)`: idle, empty buffer,
        playhead at 0, no loop length, empty history. */
    constructor (sampleRate: nat, channels: nat)
      ensures Valid() && fresh(buffer)
      ensures state == Idle && cursor == 0 && loopLength == None
      ensures undoStack == [] && redoStack == []
      ensures |buffer.samples| == channels && forall c :: 0 <= c < channels ==> buffer.samples[c] == []
      ensures buffer.sampleRate == sampleRate && this.sampleRate == sampleRate
    {
      state := Idle;
      buffer := new AudioBuffer(sampleRate, channels);
      cursor := 0;
      loopLength := None;
      undoStack := [];
      redoStack := [];
      quantizer := Clock.Quantizer;
      this.sampleRate := sampleRate;
    }

    /** `save_to_history`. */
    method SaveToHistory()
      requires Valid()
      modifies this
      ensures Valid() && Hist() == Saved(old(Hist()), Current())
      ensures state == old(state) && cursor == old(cursor) && loopLength == old(loopLength)
    {
      if |undoStack| >= HISTORY_LIMIT {
        undoStack := undoStack[1..];
      }
      undoStack := undoStack + [Snapshot(buffer.samples, cursor)];
      redoStack := [];
    }

    /** `start_recording`: accepted from `Idle` and `Stopped`; saves the
        current state, empties every channel and rewinds the playhead. */
    method StartRecording() returns (r: Result<()>)
      requires Valid()
      modifies this, buffer
      ensures Valid() && state == After(old(state), Transition.StartRecording)
      ensures r.Ok? <==> Next(old(state), Transition.StartRecording).Some?
      ensures r.Err? ==> r.error == TrackFailure(InvalidStateTransition) && unchanged(this) && unchanged(buffer)
      ensures r.Ok? ==> (Hist() == Saved(old(Hist()), old(Current())) && cursor == 0
        && |buffer.samples| == |old(buffer.samples)|
        && (forall c :: 0 <= c < |buffer.samples| ==> buffer.samples[c] == [])
        && loopLength == old(loopLength))
    {
      if state == Idle || state == Stopped {
        SaveToHistory();
        buffer.Clear();
        cursor := 0;
        state := Recording;
        r := Ok(());
      } else {
        r := Err(TrackFailure(InvalidStateTransition));
      }
    }

    /** `stop_recording`: accepted only while recording; the loop length
        becomes the number of samples recorded and playback starts. */
    method StopRecording() returns (r: Result<()>)
      modifies this
      ensures state == After(old(state), Transition.StopRecording)
      ensures r.Ok? <==> old(state) == Recording
      ensures r.Err? ==> r.error == TrackFailure(InvalidStateTransition) && unchanged(this)
      ensures r.Ok? ==> (loopLength == Some(old(cursor)) && cursor == old(cursor)
        && undoStack == old(undoStack) && redoStack == old(redoStack))
    {
      if state == Recording {
        loopLength := Some(cursor);
        state := Playing;
        r := Ok(());
      } else {
        r := Err(TrackFailure(InvalidStateTransition));
      }
    }

    /** `start_overdub`: accepted only while playing; saves the current
        state first. */
    method StartOverdub() returns (r: Result<()>)
      requires Valid()
      modifies this
      ensures Valid() && state == After(old(state), Transition.StartOverdub)
      ensures r.Ok? <==> old(state) == Playing
      ensures r.Err? ==> r.error == TrackFailure(InvalidStateTransition) && unchanged(this)
      ensures r.Ok? ==> (Hist() == Saved(old(Hist()), old(Current()))
        && cursor == old(cursor) && loopLength == old(loopLength))
    {
      if state == Playing {
        SaveToHistory();
        state := Overdubbing;
        r := Ok(());
      } else {
        r := Err(TrackFailure(InvalidStateTransition));
      }
    }

    /** `process_input(input)`: recording appends the input to every
        channel; overdubbing adds it into channel 0 around the loop (the
        modulus is channel 0's length, so a non-empty input needs a
        non-empty channel 0); both advance the playhead by the input's
        length. Other states ignore the input. */
    method ProcessInput(input: seq<real>)
      requires state == Overdubbing && input != [] ==> |buffer.samples| > 0 && buffer.samples[0] != []
      modifies this, buffer
      ensures state == old(state) && loopLength == old(loopLength)
      ensures undoStack == old(undoStack) && redoStack == old(redoStack)
      ensures old(state) == Recording ==> (cursor == old(cursor) + |input|
        && |buffer.samples| == |old(buffer.samples)|
        && forall c :: 0 <= c < |buffer.samples| ==> buffer.samples[c] == old(buffer.samples)[c] + input)
      ensures old(state) == Overdubbing ==> (cursor == old(cursor) + |input|
        && if input == [] then buffer.samples == old(buffer.samples)
           else buffer.samples == old(buffer.samples)[0 := Overdubbed(old(buffer.samples)[0], old(cursor), input)])
      ensures old(state) != Recording && old(state) != Overdubbing ==> unchanged(this) && unchanged(buffer)
    {
      if state == Recording {
        buffer.Append(input);
        cursor := cursor + |input|;
      } else if state == Overdubbing {
        if input != [] {
          var i := 0;
          while i < |input|
            invariant 0 <= i <= |input|
            invariant state == old(state) && cursor == old(cursor) && loopLength == old(loopLength)
            invariant undoStack == old(undoStack) && redoStack == old(redoStack)
            invariant buffer.samples == old(buffer.samples)[0 := Overdubbed(old(buffer.samples)[0], old(cursor), input[..i])]
          {
            assert input[..i + 1][..i] == input[..i];
            var pos := Landing(cursor, i, buffer.Len());
            buffer.samples := buffer.samples[0 := buffer.samples[0][pos := buffer.samples[0][pos] + input[i]]];
            i := i + 1;
          }
          assert input[..|input|] == input;
        }
        cursor := cursor + |input|;
      }
    }

    /** `process_output(out)`: while playing or overdubbing a non-empty
        buffer, each output sample is the processed sample of channel 0 at
        `cursor % len` (`len` the loop length, else the buffer length), and
        the playhead steps on, back to 0 on reaching `len`. Reading needs
        `len` positive and within channel 0; otherwise nothing changes.
        Channel 0 must exist whenever the track plays or overdubs. */
    method ProcessOutput(out: array<real>, processSample: real -> real)
      requires state == Playing || state == Overdubbing ==> |buffer.samples| > 0
      requires Plays() && out.Length > 0 ==> 0 < EffectiveLength() <= |buffer.samples[0]|
      modifies this, out
      ensures state == old(state) && loopLength == old(loopLength)
      ensures undoStack == old(undoStack) && redoStack == old(redoStack)
      ensures !Plays() || out.Length == 0 ==> cursor == old(cursor) && out[..] == old(out[..])
      ensures Plays() && out.Length > 0 ==>
        cursor == PlayheadAfter(old(cursor), EffectiveLength(), out.Length) && cursor < EffectiveLength()
      ensures Plays() && out.Length > 0 ==> forall j :: 0 <= j < out.Length ==>
        out[j] == processSample(buffer.samples[0][ReadIndex(old(cursor), EffectiveLength(), j)])
    {
      if (state == Playing || state == Overdubbing) && buffer.Len() != 0 && out.Length > 0 {
        var len := EffectiveLength();
        var j := 0;
        while j < out.Length
          invariant 0 <= j <= out.Length
          invariant state == old(state) && loopLength == old(loopLength)
          invariant undoStack == old(undoStack) && redoStack == old(redoStack)
          invariant cursor == PlayheadAfter(old(cursor), len, j)
          invariant j > 0 ==> cursor < len
          invariant forall k :: 0 <= k < j ==>
            out[k] == processSample(buffer.samples[0][ReadIndex(old(cursor), len, k)])
        {
          out[j] := processSample(buffer.samples[0][cursor % len]);
          cursor := cursor + 1;
          if cursor >= len {
            cursor := 0;
            quantizer.OnLoop();
          }
          j := j + 1;
        }
      }
    }

    /** `apply_effects`: saves the current state, then hands the whole
        buffer to the effects processor; its error, if any, comes back as
        an `EffectError` carrying the message, and what the processor left
        in the buffer stays. */
    method ApplyEffects(processBuffer: Samples -> Effects.Applied<string>) returns (r: Result<()>)
      requires Valid()
      modifies this, buffer
      ensures Valid() && Hist() == Saved(old(Hist()), old(Current()))
      ensures state == old(state) && cursor == old(cursor) && loopLength == old(loopLength)
      ensures buffer.samples == processBuffer(old(buffer.samples)).samples
      ensures r == match processBuffer(old(buffer.samples)).failure
                   case None => Ok(())
                   case Some(message) => Err(EffectError(message))
    {
      SaveToHistory();
      var applied := processBuffer(buffer.samples);
      buffer.samples := applied.samples;
      match applied.failure {
        case None => r := Ok(());
        case Some(message) => r := Err(EffectError(message));
      }
    }

    /** `quantize(clock)`: saves the current state and asks the quantizer,
        a stub, to align the buffer to the clock's beat length. */
    method Quantize(clock: Clock.MasterClock) returns (r: Result<()>)
      requires Valid()
      modifies this
      ensures Valid() && Hist() == Saved(old(Hist()), old(Current()))
      ensures state == old(state) && cursor == old(cursor) && loopLength == old(loopLength)
      ensures r == Ok(())
    {
      SaveToHistory();
      var beatLength := clock.SamplesPerBeat();
      r := quantizer.Quantize(buffer, beatLength);
    }

    /** `undo`: fails with `NothingToUndo` on an empty undo stack, changing
        nothing; otherwise restores the top snapshot and pushes the current
        one onto the redo stack. The state and loop length stay. */
    method Undo() returns (r: Result<()>)
      requires Valid()
      modifies this, buffer
      ensures Valid() && state == old(state) && loopLength == old(loopLength)
      ensures r.Err? <==> old(undoStack) == []
      ensures r.Err? ==> r.error == TrackFailure(NothingToUndo) && unchanged(this) && unchanged(buffer)
      ensures r.Ok? ==> Undone(old(Hist()), old(Current())) == Some((Hist(), Current()))
    {
      if undoStack == [] {
        return Err(TrackFailure(NothingToUndo));
      }
      var history := undoStack[|undoStack| - 1];
      undoStack := undoStack[..|undoStack| - 1];
      redoStack := redoStack + [Snapshot(buffer.samples, cursor)];
      buffer.samples := history.samples;
      cursor := history.cursor;
      return Ok(());
    }

    /** `redo`: the mirror image of `undo`, failing with `NothingToRedo`. */
    method Redo() returns (r: Result<()>)
      requires Valid()
      modifies this, buffer
      ensures Valid() && state == old(state) && loopLength == old(loopLength)
      ensures r.Err? <==> old(redoStack) == []
      ensures r.Err? ==> r.error == TrackFailure(NothingToRedo) && unchanged(this) && unchanged(buffer)
      ensures r.Ok? ==> Redone(old(Hist()), old(Current())) == Some((Hist(), Current()))
    {
      if redoStack == [] {
        return Err(TrackFailure(NothingToRedo));
      }
      var history := redoStack[|redoStack| - 1];
      redoStack := redoStack[..|redoStack| - 1];
      undoStack := undoStack + [Snapshot(buffer.samples, cursor)];
      buffer.samples := history.samples;
      cursor := history.cursor;
      return Ok(());
    }
  }

  // ---------------------------------------------------------------------
  // Scenarios

  /** A second `start_recording` fails and leaves the buffer and playhead
      alone; undo then restores the empty track the first one saved. */
  method RecordTwiceThenUndo() {
    var t := new Track(44100, 2);
    var r1 := t.StartRecording();
    assert r1.Ok?;
    t.ProcessInput([0.5, 0.25]);
    assert t.cursor == 2;
    var r2 := t.StartRecording();
    assert r2 == Err(TrackFailure(InvalidStateTransition));
    assert t.cursor == 2 && t.buffer.samples[1] == [0.5, 0.25];
    var r3 := t.Undo();
    assert r3.Ok?;
    assert t.cursor == 0 && t.buffer.samples[0] == [];
    var r4 := t.Undo();
    assert r4 == Err(TrackFailure(NothingToUndo));
  }

  /** Record three samples, stop, and play four: the output repeats the
      first sample, as `ReplayAfterStopRepeatsFirstSample` states in
      general. */
  method ReplayAfterStop() {
    var t := new Track(44100, 1);
    var _ := t.StartRecording();
    t.ProcessInput([1.0, 2.0, 3.0]);
    var _ := t.StopRecording();
    assert t.loopLength == Some(3) && t.cursor == 3;
    var out := new real[4];
    t.ProcessOutput(out, x => x);
    assert t.buffer.samples[0] == [1.0, 2.0, 3.0];
    assert ReadIndex(3, 3, 0) == 0 && ReadIndex(3, 3, 1) == 0;
    assert ReadIndex(3, 3, 2) == 1 && ReadIndex(3, 3, 3) == 2;
    assert out[..] == [1.0, 1.0, 2.0, 3.0];
  }
}
