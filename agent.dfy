/** The agent side of src/main.rs: the nearest-obstacle sensor list that
    `update_sensors` keeps sorted by distance, the sensor list `spawn_agent`
    builds, and the dead-zone decision of `move_agent`. Distances and directions
    (computed with glam) are inputs. */
module Agent {

  /** Number of sensor slots an agent is spawned with. */
  const SENSOR_COUNT: nat := 3

  /** Distance a slot is reset to before the readings of a frame come in. */
  const FAR: real := 10000000.0

  datatype Sensor = Sensor(distance: real, direction: real)

  /** The slot value every sensor is reset to. */
  const EMPTY: Sensor := Sensor(FAR, 0.0)

  predicate Sorted(s: seq<Sensor>) {
    forall a, b :: 0 <= a < b < |s| ==> s[a].distance <= s[b].distance
  }

  // ---------------------------------------------------------------------------
  // The bounded insertion of update_sensors

  /** Every slot reset to the sentinel, the length kept. */
  function Cleared(s: seq<Sensor>): (t: seq<Sensor>)
    ensures |t| == |s| && forall i :: 0 <= i < |t| ==> t[i] == EMPTY
  {
    seq(|s|, i => EMPTY)
  }

  /** The first slot j with i <= j < SENSOR_COUNT whose distance is strictly larger
      than `d`, or SENSOR_COUNT when the scan finds none (the loop runs out). */
  function SlotFor(s: seq<Sensor>, d: real, i: nat): (j: nat)
    requires |s| >= SENSOR_COUNT && i <= SENSOR_COUNT
    ensures i <= j <= SENSOR_COUNT
    ensures j < SENSOR_COUNT ==> d < s[j].distance
    ensures forall m :: i <= m < j ==> s[m].distance <= d
    decreases SENSOR_COUNT - i
  {
    if i == SENSOR_COUNT then i
    else if d < s[i].distance then i
    else SlotFor(s, d, i + 1)
  }

  /** One reading processed: `insert` at the first strictly farther slot, then `pop`
      the last element; a reading no closer than the first SENSOR_COUNT slots is
      dropped. Insert-then-pop keeps the length. */
  function WithReading(s: seq<Sensor>, r: Sensor): (t: seq<Sensor>)
    requires |s| >= SENSOR_COUNT
    ensures |t| == |s|
  {
    var j := SlotFor(s, r.distance, 0);
    if j < SENSOR_COUNT then s[..j] + [r] + s[j..|s| - 1] else s
  }

  /** All readings processed in order. */
  function WithReadings(s: seq<Sensor>, readings: seq<Sensor>): (t: seq<Sensor>)
    requires |s| >= SENSOR_COUNT
    ensures |t| == |s|
    decreases |readings|
  {
    if readings == [] then s
    else
      WithReadings(WithReading(s, readings[0]), readings[1..])
  }

  /** Where the reading goes: before the first strictly farther slot, after every
      earlier slot (so after equal distances); a reading at least as far as each
      of the first SENSOR_COUNT slots leaves the list unchanged. */
  lemma WithReadingPlacement(s: seq<Sensor>, r: Sensor)
    requires |s| >= SENSOR_COUNT
    ensures var t := WithReading(s, r); var j := SlotFor(s, r.distance, 0);
      && (j < SENSOR_COUNT ==>
            && t[j] == r
            && t[..j] == s[..j]
            && t[j + 1..] == s[j..|s| - 1]
            && (forall m :: 0 <= m < j ==> s[m].distance <= r.distance)
            && r.distance < s[j].distance)
      && ((forall m :: 0 <= m < SENSOR_COUNT ==> s[m].distance <= r.distance) ==> t == s)
  {
    var j := SlotFor(s, r.distance, 0);
    if j == SENSOR_COUNT {
    } else {
      var t := WithReading(s, r);
      assert t == s[..j] + [r] + s[j..|s| - 1];
      assert t[j + 1..] == s[j..|s| - 1];
    }
  }

  /** A sorted list stays sorted after a reading. */
  lemma WithReadingSorted(s: seq<Sensor>, r: Sensor)
    requires |s| >= SENSOR_COUNT && Sorted(s)
    ensures Sorted(WithReading(s, r))
  {
    var j := SlotFor(s, r.distance, 0);
    if j < SENSOR_COUNT {
      var t := WithReading(s, r);
      assert t == s[..j] + [r] + s[j..|s| - 1];
      forall a, b | 0 <= a < b < |t|
        ensures t[a].distance <= t[b].distance
      {
        if b == j {
          assert t[a] == s[a];
        } else if a == j {
          assert t[b] == s[b - 1];
        } else {
          assert t[a] == (if a < j then s[a] else s[a - 1]);
          assert t[b] == (if b < j then s[b] else s[b - 1]);
        }
      }
    }
  }

  lemma {:induction false} WithReadingsSorted(s: seq<Sensor>, readings: seq<Sensor>)
    requires |s| >= SENSOR_COUNT && Sorted(s)
    ensures Sorted(WithReadings(s, readings))
    decreases |readings|
  {
    if readings != [] {
      WithReadingSorted(s, readings[0]);
      WithReadingsSorted(WithReading(s, readings[0]), readings[1..]);
    }
  }

  // ---------------------------------------------------------------------------
  // Reference: unbounded stable sorted insertion

  /** Insert `r` before the first element strictly farther away, with no bound on
      the length: a stable insertion sort step. */
  function Place(l: seq<Sensor>, r: Sensor): (t: seq<Sensor>)
    ensures |t| == |l| + 1
    decreases |l|
  {
    if l == [] then [r]
    else if r.distance < l[0].distance then [r] + l
    else [l[0]] + Place(l[1..], r)
  }

  function PlaceAll(l: seq<Sensor>, readings: seq<Sensor>): seq<Sensor>
    decreases |readings|
  {
    if readings == [] then l else PlaceAll(Place(l, readings[0]), readings[1..])
  }

  /** The index at which `Place` puts `r`: after every element no farther than it
      that precedes the first strictly farther one. */
  function PlaceIndex(l: seq<Sensor>, d: real): (p: nat)
    ensures p <= |l|
    ensures p < |l| ==> d < l[p].distance
    ensures forall m :: 0 <= m < p ==> l[m].distance <= d
    decreases |l|
  {
    if l == [] then 0
    else if d < l[0].distance then 0
    else 1 + PlaceIndex(l[1..], d)
  }

  lemma {:induction false} PlaceSplit(l: seq<Sensor>, r: Sensor)
    ensures var p := PlaceIndex(l, r.distance); Place(l, r) == l[..p] + [r] + l[p..]
    decreases |l|
  {
    if l != [] && !(r.distance < l[0].distance) {
      PlaceSplit(l[1..], r);
      var p := PlaceIndex(l[1..], r.distance);
      assert l[..p + 1] == [l[0]] + l[1..][..p];
      assert l[p + 1..] == l[1..][p..];
    }
  }

  lemma PlacePermutation(l: seq<Sensor>, r: Sensor)
    ensures multiset(Place(l, r)) == multiset(l) + multiset{r}
  {
    PlaceSplit(l, r);
    var p := PlaceIndex(l, r.distance);
    var front, back := l[..p], l[p..];
    assert l == front + back;
    assert multiset(l) == multiset(front) + multiset(back);
    assert multiset(front + [r] + back) == multiset(front) + multiset{r} + multiset(back);
  }

  lemma {:induction false} PlaceSorted(l: seq<Sensor>, r: Sensor)
    requires Sorted(l)
    ensures Sorted(Place(l, r))
  {
    PlaceSplit(l, r);
    var p := PlaceIndex(l, r.distance);
    var t := Place(l, r);
    forall a, b | 0 <= a < b < |t|
      ensures t[a].distance <= t[b].distance
    {
      if b == p {
        assert t[a] == l[a];
      } else if a == p {
        assert t[b] == l[b - 1];
      } else {
        assert t[a] == (if a < p then l[a] else l[a - 1]);
        assert t[b] == (if b < p then l[b] else l[b - 1]);
      }
    }
  }

  /** The unbounded list stays a sorted permutation of what was put in. */
  lemma {:induction false} PlaceAllSortedPermutation(l: seq<Sensor>, readings: seq<Sensor>)
    requires Sorted(l)
    ensures Sorted(PlaceAll(l, readings))
    ensures multiset(PlaceAll(l, readings)) == multiset(l) + multiset(readings)
    ensures |PlaceAll(l, readings)| == |l| + |readings|
    decreases |readings|
  {
    if readings != [] {
      PlaceSorted(l, readings[0]);
      PlacePermutation(l, readings[0]);
      PlaceAllSortedPermutation(Place(l, readings[0]), readings[1..]);
      assert readings == [readings[0]] + readings[1..];
    }
  }

  /** On lists that agree in their first SENSOR_COUNT entries, the bounded scan
      stops where the unbounded insertion places the reading, or runs out exactly
      when the insertion point lies at or beyond SENSOR_COUNT. */
  lemma SlotForMatchesPlaceIndex(s: seq<Sensor>, l: seq<Sensor>, d: real)
    requires |s| >= SENSOR_COUNT && |l| >= SENSOR_COUNT
    requires forall m :: 0 <= m < SENSOR_COUNT ==> s[m] == l[m]
    ensures var j := SlotFor(s, d, 0); var p := PlaceIndex(l, d);
      && (j < SENSOR_COUNT ==> p == j)
      && (j == SENSOR_COUNT ==> p >= SENSOR_COUNT)
  {
    var j := SlotFor(s, d, 0);
    var p := PlaceIndex(l, d);
    if p < SENSOR_COUNT {
      assert s[p] == l[p];
    }
    if j < SENSOR_COUNT {
      assert s[j] == l[j];
    }
  }

  /** The bounded insertion sees the first SENSOR_COUNT entries of the unbounded
      list: its first SENSOR_COUNT slots after a reading are those of `Place`. */
  lemma BoundedMatchesPlace(s: seq<Sensor>, l: seq<Sensor>, r: Sensor)
    requires |s| >= SENSOR_COUNT && |l| >= SENSOR_COUNT
    requires s[..SENSOR_COUNT] == l[..SENSOR_COUNT]
    ensures WithReading(s, r)[..SENSOR_COUNT] == Place(l, r)[..SENSOR_COUNT]
  {
    forall m | 0 <= m < SENSOR_COUNT
      ensures s[m] == l[m]
    {
      assert s[..SENSOR_COUNT][m] == l[..SENSOR_COUNT][m];
    }
    var j := SlotFor(s, r.distance, 0);
    var p := PlaceIndex(l, r.distance);
    SlotForMatchesPlaceIndex(s, l, r.distance);
    PlaceSplit(l, r);
    var t := WithReading(s, r);
    var u := Place(l, r);
    if j < SENSOR_COUNT {
      assert t == s[..j] + [r] + s[j..|s| - 1];
      assert u == l[..j] + [r] + l[j..];
      forall m | 0 <= m < SENSOR_COUNT
        ensures t[m] == u[m]
      {
        if m < j {
          assert t[m] == s[m] && u[m] == l[m];
        } else if m > j {
          assert t[m] == s[m - 1] && u[m] == l[m - 1];
        }
      }
    } else {
      assert t == s;
      assert u == l[..p] + [r] + l[p..];
      forall m | 0 <= m < SENSOR_COUNT
        ensures t[m] == u[m]
      {
        assert u[m] == l[m];
      }
    }
    assert t[..SENSOR_COUNT] == u[..SENSOR_COUNT];
  }

  lemma {:induction false} BoundedMatchesPlaceAll(s: seq<Sensor>, l: seq<Sensor>, readings: seq<Sensor>)
    requires |s| >= SENSOR_COUNT && |l| >= SENSOR_COUNT
    requires s[..SENSOR_COUNT] == l[..SENSOR_COUNT]
    ensures |PlaceAll(l, readings)| >= SENSOR_COUNT
    ensures WithReadings(s, readings)[..SENSOR_COUNT] == PlaceAll(l, readings)[..SENSOR_COUNT]
    decreases |readings|
  {
    if readings != [] {
      BoundedMatchesPlace(s, l, readings[0]);
      BoundedMatchesPlaceAll(WithReading(s, readings[0]), Place(l, readings[0]), readings[1..]);
    }
  }

  /** What `update_sensors` leaves in the first SENSOR_COUNT slots: the first
      SENSOR_COUNT entries of the sorted permutation of SENSOR_COUNT sentinels plus
      all readings that stable insertion produces, i.e. the nearest readings in
      ascending distance (earlier readings first among equals), padded with the
      sentinel. */
  lemma UpdateKeepsNearest(s: seq<Sensor>, readings: seq<Sensor>)
    requires |s| >= SENSOR_COUNT
    ensures var l := PlaceAll(Cleared(s)[..SENSOR_COUNT], readings);
      && Sorted(l)
      && multiset(l) == multiset(Cleared(s)[..SENSOR_COUNT]) + multiset(readings)
      && |l| >= SENSOR_COUNT
      && WithReadings(Cleared(s), readings)[..SENSOR_COUNT] == l[..SENSOR_COUNT]
  {
    var c := Cleared(s);
    var base := c[..SENSOR_COUNT];
    assert Sorted(base);
    PlaceAllSortedPermutation(base, readings);
    assert c[..SENSOR_COUNT] == base[..SENSOR_COUNT];
    BoundedMatchesPlaceAll(c, base, readings);
  }

  // ---------------------------------------------------------------------------
  // The Sensors component

  class Sensors {
    var sensors: seq<Sensor>

    /** The list `spawn_agent` builds: SENSOR_COUNT copies of `Sensor::default()`
        (passed in as `initial`), pushed one at a time. */
    constructor (initial: Sensor)
      ensures |sensors| == SENSOR_COUNT
      ensures forall i :: 0 <= i < |sensors| ==> sensors[i] == initial
    {
      var temp: seq<Sensor> := [];
      for n := 0 to SENSOR_COUNT
        invariant |temp| == n && forall i :: 0 <= i < n ==> temp[i] == initial
      {
        temp := temp + [initial];
      }
      sensors := temp;
    }

    /** The first loop of `update_sensors`: every slot back to the sentinel. */
    method Reset()
      modifies this
      ensures sensors == Cleared(old(sensors))
    {
      for i := 0 to |sensors|
        invariant |sensors| == |old(sensors)|
        invariant forall m :: 0 <= m < i ==> sensors[m] == EMPTY
      {
        sensors := sensors[i := EMPTY];
      }
    }

    /** One reading: scan the first SENSOR_COUNT slots; at the first strictly
        farther one, `insert` the reading there, `pop` the last slot and stop. */
    method Insert(reading: Sensor)
      requires |sensors| >= SENSOR_COUNT
      modifies this
      ensures sensors == WithReading(old(sensors), reading)
    {
      for i := 0 to SENSOR_COUNT
        invariant sensors == old(sensors)
        invariant forall m :: 0 <= m < i ==> sensors[m].distance <= reading.distance
      {
        if reading.distance < sensors[i].distance {
          assert SlotFor(sensors, reading.distance, 0) == i by {
            SlotForFirst(sensors, reading.distance, 0, i);
          }
          sensors := sensors[..i] + [reading] + sensors[i..];
          sensors := sensors[..|sensors| - 1];
          assert sensors == old(sensors)[..i] + [reading] + old(sensors)[i..|old(sensors)| - 1];
          return;
        }
      }
      SlotForNone(sensors, reading.distance, 0);
    }

    /** `update_sensors` for one agent: reset, then every reading in turn. */
    method Update(readings: seq<Sensor>)
      requires |sensors| >= SENSOR_COUNT
      modifies this
      ensures sensors == WithReadings(Cleared(old(sensors)), readings)
    {
      Reset();
      ghost var start := sensors;
      for k := 0 to |readings|
        invariant |sensors| == |start|
        invariant WithReadings(start, readings) == WithReadings(sensors, readings[k..])
      {
        assert readings[k..][0] == readings[k] && readings[k..][1..] == readings[k + 1..];
        Insert(readings[k]);
      }
      assert readings[|readings|..] == [];
    }
  }

  /** The scan stops at a strictly farther slot that follows only nearer-or-equal ones. */
  lemma {:induction false} SlotForFirst(s: seq<Sensor>, d: real, i: nat, j: nat)
    requires |s| >= SENSOR_COUNT && i <= j < SENSOR_COUNT
    requires d < s[j].distance && forall m :: i <= m < j ==> s[m].distance <= d
    ensures SlotFor(s, d, i) == j
    decreases j - i
  {
    if i < j {
      SlotForFirst(s, d, i + 1, j);
    }
  }

  /** No strictly farther slot among the first SENSOR_COUNT: the scan runs out. */
  lemma {:induction false} SlotForNone(s: seq<Sensor>, d: real, i: nat)
    requires |s| >= SENSOR_COUNT && i <= SENSOR_COUNT
    requires forall m :: i <= m < SENSOR_COUNT ==> s[m].distance <= d
    ensures SlotFor(s, d, i) == SENSOR_COUNT
    decreases SENSOR_COUNT - i
  {
    if i < SENSOR_COUNT {
      SlotForNone(s, d, i + 1);
    }
  }

  // ---------------------------------------------------------------------------
  // move_agent

  /** What an agent's `Actions` component holds. */
  datatype Actions = Actions(up: real, right: real)

  /** The per-axis decision of `move_agent`: -1 below -0.33, +1 above 0.33, and 0
      in the dead zone [-0.33, 0.33]. */
  function AxisStep(action: real): (step: int)
    ensures step == -1 <==> action < -0.33
    ensures step == 1 <==> action > 0.33
    ensures step == 0 <==> -0.33 <= action <= 0.33
  {
    if action < -0.33 then -1 else if action > 0.33 then 1 else 0
  }

  /** The x and y of an agent's `Transform` translation. */
  class Translation {
    var x: real
    var y: real
  }

  /** `move_agent` for one agent: each axis moves by speed * dt in the direction its
      action selects, independently of the other axis. */
  method MoveAgent(t: Translation, speedX: real, speedY: real, actions: Actions, dt: real)
    modifies t
    ensures t.x == old(t.x) + (AxisStep(actions.right) as real) * speedX * dt
    ensures t.y == old(t.y) + (AxisStep(actions.up) as real) * speedY * dt
  {
    if actions.right < -0.33 {
      t.x := t.x - speedX * dt;
    } else if actions.right > 0.33 {
      t.x := t.x + speedX * dt;
    }
    if actions.up < -0.33 {
      t.y := t.y - speedY * dt;
    } else if actions.up > 0.33 {
      t.y := t.y + speedY * dt;
    }
  }
}
