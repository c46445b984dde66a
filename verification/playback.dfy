/** Down-sampling of stored snapshots for replay. */
module Playback {
  import opened Common

  const MAX_PLAYBACK_FRAMES: nat := 500

  datatype Frame = Frame(snapshotMs: int, payload: string)

  /** Python's `members[::step]`. */
  function Strided(members: seq<int>, step: nat): (kept: seq<int>)
    requires step > 0
    ensures step == 1 ==> kept == members
  {
    if |members| <= step then (if members == [] then [] else [members[0]])
    else [members[0]] + Strided(members[step..], step)
  }

  function Step(n: nat): nat { if n / MAX_PLAYBACK_FRAMES > 1 then n / MAX_PLAYBACK_FRAMES else 1 }

  /** The members replayed. */
  function Sampled(members: seq<int>): seq<int> {
    if |members| > MAX_PLAYBACK_FRAMES then Strided(members, Step(|members|)) else members
  }

  /** The stored frames for the given members, in order; a missing or empty payload is skipped. */
  function FramesOf(members: seq<int>, payloads: map<int, string>): seq<Frame> {
    if members == [] then []
    else
      var init, m := FramesOf(members[..|members| - 1], payloads), members[|members| - 1];
      if m in payloads && payloads[m] != "" then init + [Frame(m, payloads[m])] else init
  }

  method GraphPlayback(found: seq<int>, payloads: map<int, string>) returns (frames: seq<Frame>)
    ensures frames == FramesOf(Sampled(found), payloads)
  {
    var members := found;
    if |members| > MAX_PLAYBACK_FRAMES {
      var step := if |members| / MAX_PLAYBACK_FRAMES > 1 then |members| / MAX_PLAYBACK_FRAMES else 1;
      members := Strided(members, step);
    }
    frames := [];
    for i := 0 to |members|
      invariant frames == FramesOf(members[..i], payloads)
    {
      var member := members[i];
      assert members[..i + 1][..i] == members[..i];
      if member !in payloads || payloads[member] == "" {
        continue;
      }
      frames := frames + [Frame(member, payloads[member])];
    }
    assert members[..|members|] == members;
  }

  lemma {:induction false} StridedAtPosition(members: seq<int>, step: nat, i: nat, p: int)
    requires step > 0 && p == i * step
    ensures i < |Strided(members, step)| <==> p < |members|
    ensures i < |Strided(members, step)| ==> 0 <= p && Strided(members, step)[i] == members[p]
    decreases |members|
  {
    if i == 0 {
    } else {
      assert p - step == (i - 1) * step;
      MulMonotone(1, i, step);
      if |members| > step {
        StridedAtPosition(members[step..], step, i - 1, p - step);
      }
    }
  }

  /** The kept members are exactly those at multiples of the step, in order. */
  lemma StridedAt(members: seq<int>, step: nat, i: nat)
    requires step > 0
    ensures i < |Strided(members, step)| <==> i * step < |members|
    ensures i < |Strided(members, step)| ==> Strided(members, step)[i] == members[i * step]
  {
    StridedAtPosition(members, step, i, i * step);
  }

  /** Every member is kept or follows a kept one by fewer than `step` positions, and the first is kept. */
  lemma NoLongGaps(members: seq<int>, step: nat, p: nat)
    requires step > 0 && p < |members|
    ensures Strided(members, step) != [] && Strided(members, step)[0] == members[0]
    ensures var i := p / step;
      0 <= p - i * step < step && i < |Strided(members, step)| && Strided(members, step)[i] == members[i * step]
  {
    hide Strided;
    StridedAt(members, step, 0);
    DivBounds(p, step);
    StridedAt(members, step, p / step);
  }

  lemma KeptCount(members: seq<int>, step: nat, k: nat)
    requires step > 0 && |Strided(members, step)| == k
    ensures members != [] ==> k > 0 && (k - 1) * step < |members| <= k * step
  {
    StridedAt(members, step, k);
    if members != [] {
      StridedAt(members, step, 0);
      StridedAt(members, step, k - 1);
    }
  }

  lemma Products(q: nat, k: int)
    requires q > 0
    ensures k * q == (k - 1) * q + q
    ensures k < MAX_PLAYBACK_FRAMES ==> k * q <= MAX_PLAYBACK_FRAMES * q - q
    ensures k > MAX_PLAYBACK_FRAMES ==> (k - 1) * q >= MAX_PLAYBACK_FRAMES * q
    ensures k >= 2 * MAX_PLAYBACK_FRAMES ==> (k - 1) * q >= 2 * (MAX_PLAYBACK_FRAMES * q) - q
  {
    if k < MAX_PLAYBACK_FRAMES { MulMonotone(k, MAX_PLAYBACK_FRAMES - 1, q); }
    if k > MAX_PLAYBACK_FRAMES { MulMonotone(MAX_PLAYBACK_FRAMES, k - 1, q); }
    if k >= 2 * MAX_PLAYBACK_FRAMES { MulMonotone(2 * MAX_PLAYBACK_FRAMES - 1, k - 1, q); }
  }

  /** The arithmetic of `SampledBounds`, with the products named. */
  lemma Bounds(n: nat, q: nat, k: nat, kq: int, below: int)
    requires q == Step(n) && n > MAX_PLAYBACK_FRAMES && below < n <= kq && kq == below + q
    requires k < MAX_PLAYBACK_FRAMES ==> kq <= MAX_PLAYBACK_FRAMES * q - q
    requires k > MAX_PLAYBACK_FRAMES ==> below >= MAX_PLAYBACK_FRAMES * q
    requires k >= 2 * MAX_PLAYBACK_FRAMES ==> below >= 2 * (MAX_PLAYBACK_FRAMES * q) - q
    requires k == MAX_PLAYBACK_FRAMES ==> kq == MAX_PLAYBACK_FRAMES * q
    ensures MAX_PLAYBACK_FRAMES <= k < 2 * MAX_PLAYBACK_FRAMES
    ensures k <= MAX_PLAYBACK_FRAMES <==> n % MAX_PLAYBACK_FRAMES == 0
  {
  }

  /** With more than MAX members at least MAX and fewer than twice MAX are kept. The nominal maximum is respected
      exactly when the number of members is a multiple of it, because the step is rounded down. */
  lemma SampledBounds(members: seq<int>)
    requires |members| > MAX_PLAYBACK_FRAMES
    ensures MAX_PLAYBACK_FRAMES <= |Sampled(members)| < 2 * MAX_PLAYBACK_FRAMES
    ensures |Sampled(members)| <= MAX_PLAYBACK_FRAMES <==> |members| % MAX_PLAYBACK_FRAMES == 0
  {
    hide Strided;
    var q, k := Step(|members|), |Sampled(members)|;
    assert k == |Strided(members, q)|;
    hide Sampled;
    KeptCount(members, q, k);
    Products(q, k);
    Bounds(|members|, q, k, k * q, (k - 1) * q);
  }

  /** The nominal maximum does fail: with one member more than it, all of them are kept. */
  lemma OneTooManyAreAllKept(members: seq<int>)
    requires |members| == MAX_PLAYBACK_FRAMES + 1
    ensures Sampled(members) == members && |Sampled(members)| > MAX_PLAYBACK_FRAMES
  {
    assert Step(|members|) == 1;
  }

  predicate Increasing(members: seq<int>) { forall i, j :: 0 <= i < j < |members| ==> members[i] < members[j] }

  /** Every frame is the stored payload of one of the members. */
  predicate Stored(fs: seq<Frame>, members: seq<int>, payloads: map<int, string>) {
    forall i :: 0 <= i < |fs| ==>
      var ms := fs[i].snapshotMs;
      ms in members && ms in payloads && payloads[ms] == fs[i].payload && fs[i].payload != ""
  }

  function Times(fs: seq<Frame>): seq<int> { seq(|fs|, i requires 0 <= i < |fs| => fs[i].snapshotMs) }

  /** Replayed frames are stored payloads of kept members, in the order of the index. */
  lemma {:induction false} FramesInOrder(members: seq<int>, payloads: map<int, string>)
    requires Increasing(members)
    ensures Increasing(Times(FramesOf(members, payloads)))
    ensures Stored(FramesOf(members, payloads), members, payloads)
  {
    if members == [] {
    } else {
      var init, m := members[..|members| - 1], members[|members| - 1];
      FramesInOrder(init, payloads);
      var fs := FramesOf(init, payloads);
      assert Stored(fs, init, payloads);
      forall i | 0 <= i < |fs| ensures fs[i].snapshotMs < m && fs[i].snapshotMs in members {
        assert fs[i].snapshotMs in init;
        var j :| 0 <= j < |init| && init[j] == fs[i].snapshotMs;
        assert members[j] < members[|members| - 1];
      }
      assert m in payloads ==> Times(fs + [Frame(m, payloads[m])]) == Times(fs) + [m];
    }
  }

  lemma SampledIncreasing(members: seq<int>)
    requires Increasing(members)
    ensures Increasing(Sampled(members)) && forall m :: m in Sampled(members) ==> m in members
  {
    var kept, step := Sampled(members), Step(|members|);
    if |members| > MAX_PLAYBACK_FRAMES {
      forall i | 0 <= i < |kept| ensures kept[i] in members { StridedAt(members, step, i); }
      forall i, j | 0 <= i < j < |kept| ensures kept[i] < kept[j] {
        StridedAt(members, step, i);
        StridedAt(members, step, j);
        MulMonotone(i + 1, j, step);
        assert (i + 1) * step == i * step + step;
      }
    }
  }

  /** No stored payload is passed over. */
  predicate Complete(fs: seq<Frame>, members: seq<int>, payloads: map<int, string>) {
    forall m :: m in members && m in payloads && payloads[m] != "" ==> Frame(m, payloads[m]) in fs
  }

  lemma {:induction false} FramesComplete(members: seq<int>, payloads: map<int, string>)
    ensures Complete(FramesOf(members, payloads), members, payloads)
  {
    if members == [] {
    } else {
      var init, m := members[..|members| - 1], members[|members| - 1];
      FramesComplete(init, payloads);
      assert members == init + [m];
    }
  }

  /** The replay is an in-order selection of the index, each frame with its own stored payload, and every kept
      member with a payload is replayed. */
  lemma ReplayInOrder(found: seq<int>, payloads: map<int, string>)
    requires Increasing(found)
    ensures Increasing(Times(FramesOf(Sampled(found), payloads)))
    ensures Stored(FramesOf(Sampled(found), payloads), found, payloads)
    ensures Complete(FramesOf(Sampled(found), payloads), Sampled(found), payloads)
  {
    SampledIncreasing(found);
    FramesInOrder(Sampled(found), payloads);
    FramesComplete(Sampled(found), payloads);
  }

  /** With at most five hundred members nothing is left out: every stored, non-empty payload is replayed. */
  lemma FewAreAllReplayed(found: seq<int>, payloads: map<int, string>)
    requires |found| <= 500
    ensures Complete(FramesOf(Sampled(found), payloads), found, payloads)
  {
    FramesComplete(found, payloads);
  }
}
