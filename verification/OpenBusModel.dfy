/** The open bus: every bit keeps the last value driven onto it until it decays. */
module OpenBusModel {
  import opened Bits

  datatype Event = Drive(value: byte, mask: byte) | Pass(times: nat)

  // --- what a bit should read, from the history of the bus.  Bits are counted from the most significant.

  predicate Covers(e: Event, bit: nat)
    requires bit < 8
  {
    e.Drive? && BitAt(e.mask, bit)
  }

  /** The clock ticks since event `k`. */
  function TicksAfter(history: seq<Event>, k: int): nat
    requires -1 <= k < |history|
    decreases |history|
  {
    if k == |history| - 1 then 0
    else
      var last := history[|history| - 1];
      TicksAfter(history[..|history| - 1], k) + if last.Pass? then last.times else 0
  }

  /** Event `k` is the last to drive the bit. */
  ghost predicate LastDriven(history: seq<Event>, bit: nat, k: int)
    requires bit < 8
  {
    && 0 <= k < |history| && history[k].Drive? && Covers(history[k], bit)
    && forall j :: k < j < |history| ==> !Covers(history[j], bit)
  }

  /** The bit was last driven to one, no longer ago than the decay time. */
  ghost predicate ReadsOne(history: seq<Event>, bit: nat, decayTime: nat)
    requires bit < 8
  {
    exists k {:trigger LastDriven(history, bit, k)} ::
      LastDriven(history, bit, k) && BitAt(history[k].value, bit) && TicksAfter(history, k) <= decayTime
  }

  lemma TicksGrow(history: seq<Event>, e: Event, k: int)
    requires -1 <= k < |history|
    ensures TicksAfter(history + [e], k) == TicksAfter(history, k) + if e.Pass? then e.times else 0
    ensures TicksAfter(history + [e], |history|) == 0
  {
    assert (history + [e])[..|history|] == history;
  }

  lemma LastGrows(history: seq<Event>, e: Event, bit: nat, k: int)
    requires bit < 8
    ensures LastDriven(history + [e], bit, k) <==> if Covers(e, bit) then k == |history| else LastDriven(history, bit, k)
  {
    var h := history + [e];
    hide BitAt;
    if Covers(e, bit) && 0 <= k < |history| {
      assert Covers(h[|history|], bit);
    } else if !Covers(e, bit) && LastDriven(history, bit, k) {
      forall j | k < j < |h|
        ensures !Covers(h[j], bit)
      {
        if j < |history| {
          assert h[j] == history[j];
        }
      }
    } else if !Covers(e, bit) && LastDriven(h, bit, k) {
      assert h[|history|] == e && h[k] == history[k];
      forall j | k < j < |history|
        ensures !Covers(history[j], bit)
      {
        assert h[j] == history[j];
      }
    }
  }

  /** The bit was last driven to one, `age` ticks ago. */
  ghost predicate Held(history: seq<Event>, bit: nat, age: nat)
    requires bit < 8
  {
    exists k {:trigger LastDriven(history, bit, k)} ::
      LastDriven(history, bit, k) && BitAt(history[k].value, bit) && TicksAfter(history, k) == age
  }

  /** What the value and the timer of a bit say about its history. */
  ghost predicate Tracks(history: seq<Event>, bit: nat, on: bool, timer: nat, decayTime: nat)
    requires bit < 8
  {
    timer <= decayTime && if on then Held(history, bit, timer) else !ReadsOne(history, bit, decayTime)
  }

  lemma TracksReading(history: seq<Event>, bit: nat, on: bool, timer: nat, decayTime: nat)
    requires bit < 8 && Tracks(history, bit, on, timer, decayTime)
    ensures on <==> ReadsOne(history, bit, decayTime)
  {
    hide BitAt, Covers;
    if on {
      var k :| LastDriven(history, bit, k) && BitAt(history[k].value, bit) && TicksAfter(history, k) == timer;
      assert LastDriven(history, bit, k);
    }
  }

  lemma TracksDriven(history: seq<Event>, value: byte, mask: byte, bit: nat, decayTime: nat)
    requires bit < 8 && BitAt(mask, bit)
    ensures Tracks(history + [Drive(value, mask)], bit, BitAt(value, bit), 0, decayTime)
  {
    hide BitAt;
    var e := Drive(value, mask);
    var h := history + [e];
    LastGrows(history, e, bit, |history|);
    if history != [] {
      TicksGrow(history, e, -1);
    }
    assert TicksAfter(h, |history|) == 0;
    forall k | LastDriven(h, bit, k)
      ensures k == |history|
    {
      LastGrows(history, e, bit, k);
    }
    assert LastDriven(h, bit, |history|) && h[|history|] == e;
  }

  /** An event that does not cover the bit makes it older by the ticks of the event. */
  lemma TracksKept(history: seq<Event>, e: Event, bit: nat, on: bool, timer: nat, decayTime: nat)
    requires bit < 8 && !Covers(e, bit) && Tracks(history, bit, on, timer, decayTime)
    ensures var age := timer + if e.Pass? then e.times else 0;
      if on && age <= decayTime then Tracks(history + [e], bit, true, age, decayTime)
      else forall t: nat {:trigger Tracks(history + [e], bit, false, t, decayTime)} ::
             t <= decayTime ==> Tracks(history + [e], bit, false, t, decayTime)
  {
    hide BitAt, Covers;
    var h := history + [e];
    forall k
      ensures LastDriven(h, bit, k) <==> LastDriven(history, bit, k)
    {
      LastGrows(history, e, bit, k);
    }
    if on {
      var k :| LastDriven(history, bit, k) && BitAt(history[k].value, bit) && TicksAfter(history, k) == timer;
      TicksGrow(history, e, k);
      assert LastDriven(h, bit, k) && h[k] == history[k];
      forall j | LastDriven(h, bit, j)
        ensures j == k
      {
        assert LastDriven(history, bit, j);
      }
    } else if j :| LastDriven(h, bit, j) && h[j].Drive? && BitAt(h[j].value, bit) && TicksAfter(h, j) <= decayTime {
      assert LastDriven(history, bit, j) && h[j] == history[j];
      TicksGrow(history, e, j);
    }
  }

  // --- bits of a byte

  predicate OneBit(m: byte) {
    m != 0 && m & (m - 1) == 0
  }

  lemma MaskIsOneBit(i: nat)
    requires i < 8
    ensures OneBit(Mask(i))
  {
  }

  lemma MasksApart(i: nat, j: nat)
    requires i < 8 && j < 8
    ensures Meets(Mask(i), Mask(j)) <==> i == j
  {
  }

  lemma MergedUnder(v: byte, d: byte, k: byte, m: byte)
    requires OneBit(m)
    ensures ((v & !k) | (d & k)) & m != 0 <==> if k & m != 0 then d & m != 0 else v & m != 0
  {
  }

  /** `d` on the bits of `m`, `v` elsewhere. */
  function Merge(v: byte, d: byte, m: byte): byte { (v & !m) | (d & m) }

  lemma Merged(v: byte, d: byte, m: byte, bit: nat)
    requires bit < 8
    ensures BitAt(Merge(v, d, m), bit) <==> if BitAt(m, bit) then BitAt(d, bit) else BitAt(v, bit)
  {
    hide Mask, OneBit;
    MaskIsOneBit(bit);
    MergedUnder(v, d, m, Mask(bit));
  }

  lemma ClearedUnder(v: byte, e: byte, m: byte)
    requires OneBit(m)
    ensures (v & !e) & m != 0 <==> v & m != 0 && e & m == 0
  {
  }

  lemma Cleared(v: byte, e: byte, bit: nat)
    requires bit < 8
    ensures BitAt(v & !e, bit) <==> BitAt(v, bit) && !BitAt(e, bit)
  {
    hide Mask, OneBit;
    MaskIsOneBit(bit);
    ClearedUnder(v, e, Mask(bit));
  }

  predicate Meets(b: byte, m: byte) { b & m != 0 }

  lemma BitMeets(b: byte, bit: nat)
    requires bit < 8
    ensures BitAt(b, bit) <==> Meets(b, Mask(bit))
  {
    hide Mask;
  }

  lemma JoinedUnder(e: byte, k: byte, m: byte)
    ensures Meets(Or(e, k), m) <==> Meets(e, m) || Meets(k, m)
  {
  }

  lemma Joined(e: byte, i: nat, bit: nat)
    requires bit < 8 && i < 8
    ensures BitAt(Or(e, Mask(i)), bit) <==> BitAt(e, bit) || bit == i
  {
    hide Mask, BitAt, Or, Meets;
    BitMeets(Or(e, Mask(i)), bit);
    BitMeets(e, bit);
    JoinedUnder(e, Mask(i), Mask(bit));
    MasksApart(i, bit);
  }

  lemma NoBits(bit: nat)
    requires bit < 8
    ensures !BitAt(0, bit)
  {
  }

  class OpenBus {
    var value: byte
    const timers: array<nat>
    const decayTime: nat
    ghost var history: seq<Event>

    ghost predicate Valid()
      reads this, timers
    {
      && timers.Length == 8
      && forall i {:trigger timers[i]} :: 0 <= i < 8 ==> Tracks(history, i, BitAt(value, i), timers[i], decayTime)
    }

    constructor (decayTime: nat)
      ensures Valid() && fresh(timers) && this.decayTime == decayTime && history == []
    {
      value := 0;
      timers := new nat[8](_ => decayTime);
      this.decayTime := decayTime;
      history := [];
      new;
      forall i | 0 <= i < 8
        ensures Tracks(history, i, BitAt(value, i), timers[i], decayTime)
      {
        NoBits(i);
      }
    }

    /** Drives the bits of `mask`. */
    method SetMasked(value: byte, mask: byte)
      requires Valid()
      modifies this, timers
      ensures Valid() && history == old(history) + [Drive(value, mask)]
    {
      hide BitAt, Tracks, Merge, Or, Mask;
      ghost var before := this.value;
      ghost var h := history + [Drive(value, mask)];
      this.value := Merge(this.value, value, mask);
      history := h;
      if mask != 0 {
        for bit := 0 to 8
          invariant this.value == Merge(before, value, mask) && history == h
          invariant forall i {:trigger timers[i]} :: 0 <= i < 8 ==>
                      timers[i] == if i < bit && BitAt(mask, i) then 0 else old(timers[i])
        {
          if BitAt(mask, bit) {
            timers[bit] := 0;
          }
        }
      }
      forall i | 0 <= i < 8
        ensures Tracks(h, i, BitAt(this.value, i), timers[i], decayTime)
      {
        Merged(before, value, mask, i);
        NoBits(i);
        Untouched(old(history), Drive(value, mask), mask, i, BitAt(before, i), old(timers[i]), decayTime, BitAt(value, i), value);
      }
    }

    /** Time passes, and bits that were driven too long ago fall to zero. */
    method Tick(times: nat)
      requires Valid()
      modifies this, timers
      ensures Valid() && history == old(history) + [Pass(times)]
    {
      hide BitAt, Tracks, Merge, Or, Mask;
      var expired: byte := 0;
      forall j | 0 <= j < 8
        ensures !BitAt(expired, j)
      {
        NoBits(j);
      }
      for i := 0 to 8
        invariant value == old(value) && history == old(history)
        invariant forall j {:trigger timers[j]} :: 0 <= j < 8 ==>
                    timers[j] == if j >= i then old(timers[j])
                                 else if old(timers[j]) + times > decayTime then 0 else old(timers[j]) + times
        invariant forall j {:trigger BitAt(expired, j)} :: 0 <= j < 8 ==>
                    (BitAt(expired, j) <==> j < i && old(timers[j]) + times > decayTime)
      {
        ghost var e := expired;
        timers[i] := timers[i] + times;
        if timers[i] > decayTime {
          expired := Or(expired, Mask(i));
          timers[i] := 0;
        }
        forall j | 0 <= j < 8
          ensures BitAt(expired, j) <==> j < i + 1 && old(timers[j]) + times > decayTime
        {
          Joined(e, i, j);
        }
      }
      ghost var before := value;
      value := value & !expired;
      history := history + [Pass(times)];
      forall i | 0 <= i < 8
        ensures Tracks(history, i, BitAt(value, i), timers[i], decayTime)
      {
        Cleared(before, expired, i);
        Aged(old(history), times, i, BitAt(before, i), old(timers[i]), decayTime);
      }
    }

    /** Every bit reads one exactly if it was last driven to one no longer ago than the decay time. */
    method Read() returns (r: byte)
      requires Valid()
      ensures forall i {:trigger BitAt(r, i)} :: 0 <= i < 8 ==> (BitAt(r, i) <==> ReadsOne(history, i, decayTime))
      ensures forall i {:trigger timers[i]} :: 0 <= i < 8 ==> timers[i] <= decayTime
    {
      hide BitAt;
      r := value;
      forall i {:trigger BitAt(r, i)} | 0 <= i < 8
        ensures BitAt(r, i) <==> ReadsOne(history, i, decayTime)
      {
        assert timers[i] == timers[i];
        TracksReading(history, i, BitAt(value, i), timers[i], decayTime);
      }
    }
  }

  /** One bit across a drive. */
  lemma Untouched(history: seq<Event>, e: Event, mask: byte, bit: nat, on: bool, timer: nat, decayTime: nat, drivenOn: bool, value: byte)
    requires bit < 8 && Tracks(history, bit, on, timer, decayTime) && e == Drive(value, mask) && drivenOn == BitAt(value, bit)
    ensures if BitAt(mask, bit) then Tracks(history + [e], bit, drivenOn, 0, decayTime)
            else Tracks(history + [e], bit, on, timer, decayTime)
  {
    hide BitAt, Tracks, Held, ReadsOne;
    if BitAt(mask, bit) {
      TracksDriven(history, value, mask, bit, decayTime);
    } else {
      TracksTimer(history, bit, on, timer, decayTime);
      TracksKept(history, e, bit, on, timer, decayTime);
    }
  }

  lemma TracksTimer(history: seq<Event>, bit: nat, on: bool, timer: nat, decayTime: nat)
    requires bit < 8 && Tracks(history, bit, on, timer, decayTime)
    ensures timer <= decayTime
  {
    hide Held, ReadsOne;
  }

  /** One bit across ticks. */
  lemma Aged(history: seq<Event>, times: nat, bit: nat, on: bool, timer: nat, decayTime: nat)
    requires bit < 8 && Tracks(history, bit, on, timer, decayTime)
    ensures if timer + times > decayTime then Tracks(history + [Pass(times)], bit, false, 0, decayTime)
            else Tracks(history + [Pass(times)], bit, on, timer + times, decayTime)
  {
    hide Tracks, Held, ReadsOne, BitAt;
    TracksTimer(history, bit, on, timer, decayTime);
    TracksKept(history, Pass(times), bit, on, timer, decayTime);
  }
}
