/**
 * The light map: which universe and which bytes of a frame belong to each
 * light, derived once at startup from the channel stride, the number of
 * lights and the contiguous universe range.
 */
module LightMap {
  import opened Wrappers

  /** Channels in one universe frame. */
  const UNIVERSE_SIZE: int := 512

  /** Python's `a // b`: the floor of the rational a / b. */
  function FloorDiv(a: int, b: int): (q: int)
    requires b != 0
    ensures b > 0 ==> q * b <= a < q * b + b
    ensures b < 0 ==> q * b >= a > q * b + b
  {
    if b > 0 then a / b else (-a) / (-b)
  }

  /** `math.ceil(a / b)`, computed exactly on integers. */
  function CeilDiv(a: int, b: int): (q: int)
    requires b != 0
    ensures b > 0 ==> q * b - b < a <= q * b
    ensures b < 0 ==> q * b <= a < q * b - b
  {
    -FloorDiv(-a, b)
  }

  function Min(a: int, b: int): int {
    if a <= b then a else b
  }

  /** The subscribed universes: `[start + i for i in range(count)]`. */
  function Universes(start: int, count: int): (r: seq<int>)
    ensures |r| == if count > 0 then count else 0
    ensures forall i, j :: 0 <= i < j < |r| ==> r[i] < r[j]
  {
    seq(if count > 0 then count else 0, i => start + i)
  }

  /** The subscribed universes are exactly the contiguous range from `start`. */
  lemma InUniverses(start: int, count: int, u: int)
    ensures u in Universes(start, count) <==> start <= u < start + count
  {
    var r := Universes(start, count);
    if start <= u < start + count {
      assert r[u - start] == u;
    }
  }

  /** `512 // channels`: how many lights of the given stride fit in a universe. */
  function LightsPerUniverse(channels: int): (n: int)
    requires channels != 0
    ensures n > 0 <==> 0 < channels <= UNIVERSE_SIZE
    ensures n < 0 <==> channels < 0
    ensures channels > 0 ==> n * channels <= UNIVERSE_SIZE < n * channels + channels
  {
    FloorDiv(UNIVERSE_SIZE, channels)
  }

  /** The derived layout held by the running bridge. */
  datatype Layout = Layout(universes: seq<int>, channels: int, lights: int, perUniverse: int)

  /** The two ways startup can fail while deriving the layout. */
  datatype LayoutError =
    | DivisionByZero                       // `512 // 0`, or `ceil(n / 0)` when the stride exceeds 512
    | NotEnoughUniverses(required: int)    // the failed capacity assertion and the count it reports

  /** What every layout accepted at startup satisfies. */
  ghost predicate IsPlan(l: Layout) {
    && l.channels != 0
    && l.perUniverse == LightsPerUniverse(l.channels)
    && l.perUniverse != 0
    && l.perUniverse * |l.universes| >= l.lights
  }

  /** Startup's derivation of the light map, with its fatal errors in source order. */
  function Plan(start: int, count: int, channels: int, lights: int): (r: Result<Layout, LayoutError>)
    ensures r.Success? ==> IsPlan(r.value)
    ensures r.Success? ==> channels != 0 && r.value == Layout(Universes(start, count), channels, lights, LightsPerUniverse(channels))
    ensures r == Failure(DivisionByZero) <==> channels == 0 || channels > UNIVERSE_SIZE
    ensures r.Failure? && r.error.NotEnoughUniverses? ==>
              && channels != 0
              && LightsPerUniverse(channels) * |Universes(start, count)| < lights
              && r.error.required == CeilDiv(lights, LightsPerUniverse(channels))
    ensures r.Failure? && r.error.NotEnoughUniverses? && channels > 0 ==>
              r.error.required > |Universes(start, count)|
  {
    var universes := Universes(start, count);
    if channels == 0 then Failure(DivisionByZero)
    else
      var perUniverse := LightsPerUniverse(channels);
      if perUniverse == 0 then Failure(DivisionByZero)
      else
        var required := CeilDiv(lights, perUniverse);
        if perUniverse * |universes| >= lights then Success(Layout(universes, channels, lights, perUniverse))
        else if perUniverse > 0 then
          CapacityIff(perUniverse, |universes|, lights);
          Failure(NotEnoughUniverses(required))
        else
          Failure(NotEnoughUniverses(required))
  }

  lemma MulMonotone(a: int, x: int, y: int)
    requires a > 0 && x <= y
    ensures a * x <= a * y
  {
    assert a * y - a * x == a * (y - x);
  }

  /**
   * The capacity check `lightsPerUniverse * universes >= lights` holds
   * exactly when the reported `ceil(lights / lightsPerUniverse)` fits.
   */
  lemma CapacityIff(perUniverse: int, universes: int, lights: int)
    requires perUniverse > 0
    ensures perUniverse * universes >= lights <==> CeilDiv(lights, perUniverse) <= universes
  {
    var q := CeilDiv(lights, perUniverse);
    assert q * perUniverse - perUniverse < lights <= q * perUniverse;
    if q <= universes {
      MulMonotone(perUniverse, q, universes);
    } else {
      MulMonotone(perUniverse, universes, q - 1);
      assert perUniverse * (q - 1) == q * perUniverse - perUniverse;
    }
  }

  /** Startup accepts a stride of 1..512 exactly when the reported requirement fits. */
  lemma PlanSucceedsIff(start: int, count: int, channels: int, lights: int)
    requires 0 < channels <= UNIVERSE_SIZE
    ensures Plan(start, count, channels, lights).Success?
            <==> CeilDiv(lights, LightsPerUniverse(channels)) <= |Universes(start, count)|
  {
    CapacityIff(LightsPerUniverse(channels), |Universes(start, count)|, lights);
  }

  /** Id of the first light of universe ordinal `u` (`lights_offset`). */
  function FirstLight(l: Layout, u: nat): int {
    u * l.perUniverse
  }

  /** `universe_lights`: may be zero or negative, and then `range` is empty. */
  function LightsIn(l: Layout, u: nat): int {
    Min(l.perUniverse, l.lights - FirstLight(l, u))
  }

  /** The light ids processed for universe ordinal `u`, in processing order. */
  function LightIds(l: Layout, u: nat): (r: seq<int>)
    ensures |r| == if LightsIn(l, u) > 0 then LightsIn(l, u) else 0
    ensures forall k :: 0 <= k < |r| ==> r[k] == FirstLight(l, u) + k
  {
    seq(if LightsIn(l, u) > 0 then LightsIn(l, u) else 0, k => FirstLight(l, u) + k)
  }

  /** The ids of a universe form one contiguous range. */
  lemma InLightIds(l: Layout, u: nat, id: int)
    ensures id in LightIds(l, u) <==> FirstLight(l, u) <= id < FirstLight(l, u) + |LightIds(l, u)|
  {
    if FirstLight(l, u) <= id < FirstLight(l, u) + |LightIds(l, u)| {
      assert LightIds(l, u)[id - FirstLight(l, u)] == id;
    }
  }

  /**
   * Universe ordinal `u` owns exactly the lights whose id divided by the
   * lights-per-universe is `u`; the ids are increasing.
   */
  lemma UniverseOwnsIds(l: Layout, u: nat, id: int)
    requires IsPlan(l)
    ensures id in LightIds(l, u) <==> 0 <= id < l.lights && id / l.perUniverse == u
  {
    InLightIds(l, u, id);
    if id in LightIds(l, u) {
      OwnedIdDivides(l, u, id);
    }
    if 0 <= id < l.lights && id / l.perUniverse == u {
      DividingIdOwned(l, u, id);
    }
  }

  lemma OwnedIdDivides(l: Layout, u: nat, id: int)
    requires FirstLight(l, u) <= id < FirstLight(l, u) + |LightIds(l, u)|
    ensures l.perUniverse > 0 && 0 <= id < l.lights && id / l.perUniverse == u
  {
    var p := l.perUniverse;
    var k := id - u * p;
    assert 0 <= k < p && k < l.lights - u * p;
    MulMonotone(p, 0, u);
    DivOfOffset(p, u, k);
  }

  lemma DividingIdOwned(l: Layout, u: nat, id: int)
    requires IsPlan(l) && 0 <= id < l.lights && id / l.perUniverse == u
    ensures FirstLight(l, u) <= id < FirstLight(l, u) + |LightIds(l, u)|
  {
    PositivePerUniverse(l);
    var p := l.perUniverse;
    var k := id % p;
    assert id == u * p + k;
    assert k < l.lights - u * p;
  }

  lemma MulMonotoneNeg(p: int, n: int)
    requires p < 0 && n >= 0
    ensures p * n <= 0
  {
  }

  lemma DivOfOffset(p: int, u: int, k: int)
    requires p > 0 && 0 <= k < p
    ensures (u * p + k) / p == u && (u * p + k) % p == k
  {
    var x := u * p + k;
    var q, r := x / p, x % p;
    assert p * (u - q) == r - k;
    if u - q >= 1 {
      MulMonotone(p, 1, u - q);
    } else if u - q <= -1 {
      MulMonotone(p, u - q, -1);
    }
  }

  /** Different universe ordinals never touch the same light. */
  lemma UniversesDisjoint(l: Layout, u: nat, v: nat, id: int)
    requires IsPlan(l) && u != v
    ensures !(id in LightIds(l, u) && id in LightIds(l, v))
  {
    UniverseOwnsIds(l, u, id);
    UniverseOwnsIds(l, v, id);
  }

  /** Byte offset of a light inside its universe's frame. */
  function ByteOffset(l: Layout, id: int): int
    requires l.perUniverse != 0
  {
    (id % l.perUniverse) * l.channels
  }

  /** A light's `channels` bytes, at its offset within a universe, stay inside the frame. */
  lemma SlotFits(perUniverse: int, channels: int, k: int)
    requires channels > 0 && perUniverse * channels <= UNIVERSE_SIZE && 0 <= k < perUniverse
    ensures 0 <= k * channels && k * channels + channels <= UNIVERSE_SIZE
  {
    MulMonotone(channels, 0, k);
    MulMonotone(channels, k, perUniverse - 1);
    assert channels * (perUniverse - 1) + channels == perUniverse * channels;
  }

  /** An accepted layout has a positive number of lights per universe whenever it has any light. */
  lemma PositivePerUniverse(l: Layout)
    requires IsPlan(l) && l.lights > 0
    ensures l.perUniverse > 0
  {
    if l.perUniverse < 0 { MulMonotoneNeg(l.perUniverse, |l.universes|); }
  }

  /**
   * Once the layout is accepted, every light id below the light count has
   * an owning universe among the subscribed ones, and its bytes lie inside
   * a 512-channel frame.
   */
  lemma LightHasHome(l: Layout, id: int)
    requires IsPlan(l) && 0 <= id < l.lights
    ensures l.perUniverse > 0
    ensures 0 <= id / l.perUniverse < |l.universes|
    ensures id in LightIds(l, id / l.perUniverse)
    ensures id == FirstLight(l, id / l.perUniverse) + id % l.perUniverse
    ensures 0 <= ByteOffset(l, id) && ByteOffset(l, id) + l.channels <= UNIVERSE_SIZE
  {
    PositivePerUniverse(l);
    var p := l.perUniverse;
    var u := id / p;
    OrdinalBelowCount(l, id);
    DividingIdOwned(l, u, id);
    InLightIds(l, u, id);
    SlotFits(p, l.channels, id % p);
  }

  /** The ordinal of a light of an accepted layout is below the universe count. */
  lemma OrdinalBelowCount(l: Layout, id: int)
    requires IsPlan(l) && 0 <= id < l.lights && l.perUniverse > 0
    ensures 0 <= id / l.perUniverse < |l.universes|
  {
    var p, n := l.perUniverse, |l.universes|;
    var u := id / p;
    assert p * u <= id < p * n;
    if u >= n {
      MulMonotone(p, n, u);
      assert false;
    }
  }

  /**
   * Two universes of 4-channel lights hold 128 lights each, so 200 lights
   * fit: the first universe carries ids 0..127 and the second 128..199.
   */
  lemma TwoUniverseLayout()
    ensures Plan(0, 2, 4, 200) == Success(Layout([0, 1], 4, 200, 128))
    ensures var l := Layout([0, 1], 4, 200, 128);
            && LightIds(l, 0) == seq(128, k => k)
            && LightIds(l, 1) == seq(72, k => 128 + k)
  {
    assert LightsPerUniverse(4) == 128;
    assert Universes(0, 2) == [0, 1];
    var l := Layout([0, 1], 4, 200, 128);
    assert LightIds(l, 0) == seq(128, k => k);
    assert LightIds(l, 1) == seq(72, k => 128 + k);
  }

  /** 300 lights of 4 channels need three universes; with two, startup reports 3. */
  lemma TooFewUniverses()
    ensures Plan(0, 2, 4, 300) == Failure(NotEnoughUniverses(3))
  {
    assert LightsPerUniverse(4) == 128;
    assert Universes(0, 2) == [0, 1];
    assert CeilDiv(300, 128) == 3;
  }
}
