/**
 * Properties of the dimmable LED that relate several events: the long-press
 * cycle through the brightness buckets, the power toggle undoing itself, and
 * the button path agreeing with a remote write of the same state.
 */
module LedProperties {
  import opened Wrappers
  import opened DimmableLed

  /** The levels five long presses visit, in order, starting from full brightness. */
  const CycleOrder: seq<int> := [WrapLevel] + Thresholds

  /** `n` copies of the event `ev`. */
  function Repeat(ev: Event, n: nat): (s: seq<Event>)
    ensures |s| == n
    ensures forall i :: 0 <= i < n ==> s[i] == ev
  {
    if n == 0 then [] else [ev] + Repeat(ev, n - 1)
  }

  /** Handling `ev` first and then `rest` is handling `[ev] + rest`. */
  lemma RunCons(d: Device, ev: Event, rest: seq<Event>)
    ensures Run(d, [ev] + rest) == Run(Handle(d, ev), rest)
  {
  }

  /** The state a long press leaves: on, at a bucket, pin consistent. */
  ghost predicate AtBucket(d: Device) {
    d.light.power && d.light.level in Buckets && Consistent(d)
  }

  /**
   * One long press from full brightness drops to the wrap level, and from any
   * other bucket moves to the next one up; the light ends on either way.
   */
  lemma LongFromBucket(d: Device)
    requires AtBucket(d)
    ensures AtBucket(Button(d, Long))
    ensures Button(d, Long).light.level
         == (if d.light.level == 100 then 5
             else if d.light.level == 5 then 25
             else d.light.level + 25)
  {
  }

  /** The press `p` delivered `k` times in a row. */
  function Presses(d: Device, p: Press, k: nat): Device
    decreases k
  {
    if k == 0 then d else Presses(Button(d, p), p, k - 1)
  }

  /** Running `k` copies of one press is pressing it `k` times. */
  lemma {:induction false} RunRepeat(d: Device, p: Press, k: nat)
    ensures Run(d, Repeat(Pressed(p), k)) == Presses(d, p, k)
    decreases k
  {
    if k == 0 {
      assert Repeat(Pressed(p), 0) == [];
    } else {
      RunCons(d, Pressed(p), Repeat(Pressed(p), k - 1));
      RunRepeat(Button(d, p), p, k - 1);
    }
  }

  /** A lit light at the j-th level of the cycle, with the pin showing it. */
  function AtCycle(j: nat): Device
    requires j < |CycleOrder|
  {
    Device(Light(true, CycleOrder[j]), CycleOrder[j])
  }

  /** Where a bucket level sits in the cycle. */
  function CycleIndex(level: int): (j: nat)
    requires level in Buckets
    ensures j < |CycleOrder| && CycleOrder[j] == level
  {
    if level == WrapLevel then 0
    else if level == Thresholds[0] then 1
    else if level == Thresholds[1] then 2
    else if level == Thresholds[2] then 3
    else 4
  }

  /** The position k steps after position j, going round the cycle. */
  function Advance(j: nat, k: nat): (r: nat)
    requires j < |CycleOrder|
    ensures r < |CycleOrder|
  {
    (j + k) % |CycleOrder|
  }

  /** Stepping once and then k - 1 times lands where k steps do. */
  lemma AdvanceShift(j: nat, k: nat)
    requires j < |CycleOrder| && 0 < k
    ensures Advance(Advance(j, 1), k - 1) == Advance(j, k)
  {
    assert |CycleOrder| == 5;
  }

  /** Going once round the cycle changes nothing. */
  lemma AdvanceRound(j: nat, k: nat)
    requires j < |CycleOrder|
    ensures |CycleOrder| == 5
    ensures Advance(j, k + |CycleOrder|) == Advance(j, k)
    ensures Advance(j, 0) == j
    ensures k < |CycleOrder| ==> Advance(0, k) == k
  {
    assert |CycleOrder| == 5;
  }

  /** A single long press moves one step along the cycle, from the last bucket back to the first. */
  lemma LongAdvancesOne(j: nat)
    requires j < |CycleOrder|
    ensures Button(AtCycle(j), Long) == AtCycle(Advance(j, 1))
  {
    assert |CycleOrder| == 5;
  }

  /** Any long press lands on the cycle, whatever the device was before. */
  lemma LongLandsOnCycle(d: Device)
    ensures Button(d, Long) == AtCycle(CycleIndex(Button(d, Long).light.level))
  {
  }

  /**
   * Long presses walk the bucket cycle: k presses from the j-th bucket land on
   * the ((j + k) mod 5)-th, lit, with the pin showing that level.
   */
  lemma {:induction false} LongsAdvanceCycle(j: nat, k: nat)
    requires j < |CycleOrder|
    ensures Presses(AtCycle(j), Long, k) == AtCycle(Advance(j, k))
    decreases k
  {
    if k == 0 {
      AdvanceRound(j, 0);
    } else {
      var next := Advance(j, 1);
      LongAdvancesOne(j);
      assert Presses(AtCycle(j), Long, k) == Presses(AtCycle(next), Long, k - 1);
      LongsAdvanceCycle(next, k - 1);
      AdvanceShift(j, k);
    }
  }

  /**
   * From full brightness, the k-th long press (1 <= k <= 5) lands on
   * CycleOrder[k-1]: 5, 25, 50, 75 and then 100 again, with the light on and
   * the pin showing that level.
   */
  lemma LongCycleFromFull(d: Device)
    requires d.light.level == MaxLevel
    ensures forall k :: 1 <= k <= 5 ==>
      Run(d, Repeat(Pressed(Long), k)) == Device(Light(true, CycleOrder[k - 1]), CycleOrder[k - 1])
  {
    var d1 := Button(d, Long);
    assert d1 == AtCycle(0);
    forall k | 1 <= k <= 5
      ensures Run(d, Repeat(Pressed(Long), k)) == Device(Light(true, CycleOrder[k - 1]), CycleOrder[k - 1])
    {
      RunRepeat(d, Long, k);
      assert Presses(d, Long, k) == Presses(d1, Long, k - 1);
      LongsAdvanceCycle(0, k - 1);
      AdvanceRound(0, k - 1);
    }
  }

  /** A full round of long presses (five) from any bucket state comes back to that very state. */
  lemma FiveLongsFromBucket(d: Device)
    requires AtBucket(d)
    ensures |CycleOrder| == 5
    ensures Run(d, Repeat(Pressed(Long), |CycleOrder|)) == d
  {
    var j := CycleIndex(d.light.level);
    assert d == AtCycle(j);
    RunRepeat(d, Long, |CycleOrder|);
    LongsAdvanceCycle(j, |CycleOrder|);
    AdvanceRound(j, 0);
  }

  /** After the first long press, pressing long five more times changes nothing. */
  lemma LongPressesPeriodic(d: Device, n: nat)
    requires 1 <= n
    ensures Presses(d, Long, n + 5) == Presses(d, Long, n)
  {
    var d1 := Button(d, Long);
    var j := CycleIndex(d1.light.level);
    LongLandsOnCycle(d);
    assert Presses(d, Long, n + 5) == Presses(d1, Long, n + 4);
    assert Presses(d, Long, n) == Presses(d1, Long, n - 1);
    AdvanceRound(j, n - 1);
    assert (n - 1) + |CycleOrder| == n + 4;
    LongsAdvanceCycle(j, n + 4);
    LongsAdvanceCycle(j, n - 1);
  }

  /**
   * From any device, once at least one long press has happened, repeated long
   * presses are periodic with period 5.
   */
  lemma LongPressPeriodic(d: Device, n: nat)
    requires 1 <= n
    ensures Run(d, Repeat(Pressed(Long), n + 5)) == Run(d, Repeat(Pressed(Long), n))
  {
    RunRepeat(d, Long, n + 5);
    RunRepeat(d, Long, n);
    LongPressesPeriodic(d, n);
  }

  /** Two single presses switch the light off and on again (or on and off) and restore it. */
  lemma SingleTwiceRestores(d: Device)
    requires Consistent(d)
    ensures Button(Button(d, Single), Single) == d
    ensures Button(d, Single).light.level == d.light.level
    ensures Button(d, Single).light.power != d.light.power
  {
  }

  /** A light switched off by a single press keeps its level and drives the pin at 0. */
  lemma SingleOffRemembersLevel(d: Device)
    requires d.light.power
    ensures Button(d, Single).pwm == 0
    ensures Button(d, Single).light.level == d.light.level
    ensures Button(Button(d, Single), Single).pwm == d.light.level
  {
  }

  /** A second double press changes nothing: the favourite state is a fixed point. */
  lemma DoubleIdempotent(d: Device)
    ensures Button(d, Double) == Device(Light(true, FavouriteLevel), FavouriteLevel)
    ensures Button(Button(d, Double), Double) == Button(d, Double)
  {
  }

  /** Repeating the same remote write leaves the state and the pin as the first one did. */
  lemma UpdateIdempotent(d: Device, req: Request)
    ensures ExternalUpdate(ExternalUpdate(d, req), req) == ExternalUpdate(d, req)
  {
  }

  /**
   * The two write paths agree: whatever a handled press leaves behind, a remote
   * write of the same power and level would leave exactly the same device.
   */
  lemma ButtonAgreesWithUpdate(d: Device, p: Press)
    requires !p.Other?
    ensures var b := Button(d, p);
      b == ExternalUpdate(d, Request(Some(b.light.power), Some(b.light.level)))
  {
  }

  /**
   * Any sequence of events, starting from the constructed service, leaves the
   * level in the declared range and the pin consistent with the state.
   */
  lemma ReachableInvariant(events: seq<Event>)
    requires forall i :: 0 <= i < |events| ==> InRangeEvent(events[i])
    ensures Consistent(Run(Initial(), events))
    ensures InRange(Run(Initial(), events).light.level)
    ensures 0 <= Run(Initial(), events).pwm <= MaxLevel
  {
  }
}
