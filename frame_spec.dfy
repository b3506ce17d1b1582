/**
 * What one call of the frame processor does to the per-light state and the
 * outbound queue, as functions: `Run` follows the loop light by light, and
 * `RunCharacterized` states the outcome all at once.
 */
module FrameSpec {
  import opened LightMap

  type Payload = seq<bv8>

  /** An outbound message: a light id and a copy of its channel bytes. */
  datatype Message = Message(light: nat, payload: Payload)

  /** Everything one call sees besides the state: which lights, the frame, the time and the limits. */
  datatype Frame = Frame(
    first: int,         // id of the universe's first light
    count: int,         // how many of its lights exist; none when not positive
    channels: int,      // bytes per light
    data: seq<bv8>,     // the received channel values
    t: int,             // the time of arrival, in ticks
    rebroadcast: int,   // the rebroadcast time
    capacity: nat)      // the queue's capacity

  /**
   * The per-light stored values and times, the queue, and whether a
   * rejected enqueue has ended the call.
   */
  datatype FrameState = FrameState(values: seq<Payload>, times: seq<int>, queue: seq<Message>, halted: bool)

  /** Number of loop iterations: Python's `range` of a non-positive count is empty. */
  function Lights(f: Frame): nat {
    if f.count > 0 then f.count else 0
  }

  /** A frame whose lights have a start id and a stride to be sliced with. */
  ghost predicate WellFormed(f: Frame) {
    f.count > 0 ==> f.first >= 0 && f.channels > 0
  }

  /** The state has an entry for every light of the frame. */
  ghost predicate Fits(f: Frame, s: FrameState) {
    && WellFormed(f)
    && |s.values| == |s.times|
    && (f.count > 0 ==> f.first + f.count <= |s.values|)
  }

  /** Python's slice `data[lo:lo + len]` for non-negative bounds, clamped to the data. */
  function Slice(data: seq<bv8>, lo: nat, len: nat): (r: seq<bv8>)
    ensures |r| == if lo + len <= |data| then len else if lo < |data| then |data| - lo else 0
    ensures forall k :: 0 <= k < |r| ==> r[k] == data[lo + k]
  {
    if lo >= |data| then [] else if lo + len <= |data| then data[lo..lo + len] else data[lo..]
  }

  /** `j = i * light_channels`: where the `i`-th light's bytes start. */
  function Offset(i: nat, channels: nat): nat {
    i * channels
  }

  /** The bytes of the `i`-th light of the frame. */
  function PayloadOf(f: Frame, i: int): (d: Payload)
    requires 0 <= i && f.channels > 0
    ensures |d| <= f.channels
  {
    Slice(f.data, Offset(i, f.channels), f.channels)
  }

  /** The change-or-rebroadcast test: a light is sent iff its bytes differ or it is overdue. */
  predicate Qualifies(last: Payload, lastTime: int, d: Payload, t: int, rebroadcast: int) {
    d != last || t - lastTime > rebroadcast
  }

  /** One iteration of the loop, for the `i`-th light of the universe. */
  function Visit(f: Frame, s: FrameState, i: nat): (r: FrameState)
    requires Fits(f, s) && i < Lights(f)
    ensures |r.values| == |s.values| && |r.times| == |s.times|
  {
    if s.halted then s
    else
      var id := f.first + i;
      var d := PayloadOf(f, i);
      if !Qualifies(s.values[id], s.times[id], d, f.t, f.rebroadcast) then s
      else if |s.queue| >= f.capacity then s.(halted := true)
      else FrameState(s.values[id := d], s.times[id := f.t], s.queue + [Message(id, d)], false)
  }

  /** The state after the first `i` lights of the universe. */
  function Run(f: Frame, s0: FrameState, i: nat): (r: FrameState)
    requires Fits(f, s0) && i <= Lights(f)
    ensures |r.values| == |s0.values| && |r.times| == |s0.times|
    decreases i
  {
    if i == 0 then s0 else Visit(f, Run(f, s0, i - 1), i - 1)
  }

  /** The state after the whole frame. */
  function Process(f: Frame, s0: FrameState): (r: FrameState)
    requires Fits(f, s0)
    ensures |r.values| == |s0.values| && |r.times| == |s0.times|
  {
    Run(f, s0, Lights(f))
  }

  /**
   * The positions, among the first `i` lights, of those that qualify
   * against the state before the call, in increasing order.
   */
  function Qualifying(f: Frame, s0: FrameState, i: nat): (q: seq<int>)
    requires Fits(f, s0) && i <= Lights(f)
    ensures forall k :: 0 <= k < |q| ==> 0 <= q[k] < i
    ensures forall k, k' :: 0 <= k < k' < |q| ==> q[k] < q[k']
    decreases i
  {
    if i == 0 then []
    else
      var id := f.first + i - 1;
      Qualifying(f, s0, i - 1)
      + if Qualifies(s0.values[id], s0.times[id], PayloadOf(f, i - 1), f.t, f.rebroadcast) then [i - 1] else []
  }

  /** The messages for a list of light positions. */
  function Messages(f: Frame, q: seq<int>): (ms: seq<Message>)
    requires WellFormed(f) && forall k :: 0 <= k < |q| ==> 0 <= q[k] < Lights(f)
    ensures |ms| == |q|
    ensures forall k :: 0 <= k < |q| ==> f.count > 0 && ms[k] == Message(f.first + q[k], PayloadOf(f, q[k]))
  {
    if q == [] then []
    else
      var last := q[|q| - 1];
      assert 0 <= last < Lights(f);
      Messages(f, q[..|q| - 1]) + [Message(f.first + last, PayloadOf(f, last))]
  }

  /** How many of `n` qualifying lights fit in `free` places. */
  function Sendable(n: nat, free: int): int {
    if n <= free then n else free
  }

  /** The `j`-th light qualifies against the state before the call. */
  ghost predicate QualifiesAt(f: Frame, s0: FrameState, j: nat)
    requires Fits(f, s0) && j < Lights(f)
  {
    Qualifies(s0.values[f.first + j], s0.times[f.first + j], PayloadOf(f, j), f.t, f.rebroadcast)
  }

  /**
   * The `j`-th light is sent: it qualifies, and fewer lights before it
   * qualified than the queue had free places.
   */
  ghost predicate SentAt(f: Frame, s0: FrameState, j: nat)
    requires Fits(f, s0) && j < Lights(f)
  {
    QualifiesAt(f, s0, j) && |Qualifying(f, s0, j)| < f.capacity - |s0.queue|
  }

  /** The queue holds the old messages followed by those of the sent lights, in order. */
  ghost predicate QueueMatches(f: Frame, s0: FrameState, i: nat, r: FrameState)
    requires Fits(f, s0) && i <= Lights(f) && |s0.queue| <= f.capacity
  {
    var q := Qualifying(f, s0, i);
    var free := f.capacity - |s0.queue|;
    && r.queue == s0.queue + Messages(f, q[..Sendable(|q|, free)])
    && (r.halted <==> |q| > free)
  }

  /** Each of the first `i` lights holds its new bytes and time iff it was sent. */
  ghost predicate LightsMatch(f: Frame, s0: FrameState, i: nat, r: FrameState)
    requires Fits(f, s0) && i <= Lights(f) && |r.values| == |r.times| == |s0.values|
  {
    forall j :: 0 <= j < i ==>
      && r.values[f.first + j] == (if SentAt(f, s0, j) then PayloadOf(f, j) else s0.values[f.first + j])
      && r.times[f.first + j] == (if SentAt(f, s0, j) then f.t else s0.times[f.first + j])
  }

  /** Every light not among the first `i` of the universe keeps its state. */
  ghost predicate OthersKept(f: Frame, s0: FrameState, i: nat, r: FrameState)
    requires Fits(f, s0) && |r.values| == |r.times| == |s0.values|
  {
    forall id :: 0 <= id < |s0.values| && !(f.first <= id < f.first + i) ==>
      r.values[id] == s0.values[id] && r.times[id] == s0.times[id]
  }

  /** The properties `RunCharacterized` gives of the state after `i` lights. */
  ghost predicate Characterized(f: Frame, s0: FrameState, i: nat, r: FrameState)
    requires Fits(f, s0) && i <= Lights(f) && |s0.queue| <= f.capacity
  {
    && |r.values| == |s0.values| && |r.times| == |s0.times|
    && QueueMatches(f, s0, i, r)
    && LightsMatch(f, s0, i, r)
    && OthersKept(f, s0, i, r)
  }

  /**
   * The outcome of the loop in one statement: of the lights that qualify
   * against their stored state, in id order, as many as the queue has room
   * for are appended to it and recorded as sent; the call stops at the
   * first that finds the queue full, and no other light changes.
   */
  lemma {:induction false} RunCharacterized(f: Frame, s0: FrameState, i: nat)
    requires Fits(f, s0) && i <= Lights(f) && !s0.halted && |s0.queue| <= f.capacity
    ensures Characterized(f, s0, i, Run(f, s0, i))
    decreases i
  {
    if i > 0 {
      var k := i - 1;
      RunCharacterized(f, s0, k);
      VisitCharacterized(f, s0, k);
    } else {
      assert Qualifying(f, s0, 0) == [];
    }
  }

  /** The induction step of `RunCharacterized`: one more light. */
  lemma VisitCharacterized(f: Frame, s0: FrameState, k: nat)
    requires Fits(f, s0) && k < Lights(f) && !s0.halted && |s0.queue| <= f.capacity
    requires Characterized(f, s0, k, Run(f, s0, k))
    ensures Characterized(f, s0, k + 1, Run(f, s0, k + 1))
  {
    var r := Run(f, s0, k);
    assert Run(f, s0, k + 1) == Visit(f, r, k);
    VisitCharacterizedStep(f, s0, k, r);
  }

  /** One more light, for any state characterized after the first `k`. */
  lemma VisitCharacterizedStep(f: Frame, s0: FrameState, k: nat, r: FrameState)
    requires Fits(f, s0) && k < Lights(f) && |s0.queue| <= f.capacity
    requires Characterized(f, s0, k, r)
    ensures Characterized(f, s0, k + 1, Visit(f, r, k))
  {
    var id := f.first + k;
    assert r.values[id] == s0.values[id] && r.times[id] == s0.times[id];
    VisitEffect(f, s0, k, r);
    var r' := Visit(f, r, k);
    LightsStep(f, s0, k, r, r');
    OthersStep(f, s0, k, r, r');
  }

  /** The light written by one more step is the `k`-th; the earlier ones keep what they hold. */
  lemma LightsStep(f: Frame, s0: FrameState, k: nat, r: FrameState, r': FrameState)
    requires Fits(f, s0) && k < Lights(f) && |s0.queue| <= f.capacity
    requires |r.values| == |r.times| == |s0.values| && LightsMatch(f, s0, k, r)
    requires r.values[f.first + k] == s0.values[f.first + k] && r.times[f.first + k] == s0.times[f.first + k]
    requires r'.values == (if SentAt(f, s0, k) then r.values[f.first + k := PayloadOf(f, k)] else r.values)
    requires r'.times == (if SentAt(f, s0, k) then r.times[f.first + k := f.t] else r.times)
    ensures LightsMatch(f, s0, k + 1, r')
  {
    forall j | 0 <= j < k + 1
      ensures r'.values[f.first + j] == (if SentAt(f, s0, j) then PayloadOf(f, j) else s0.values[f.first + j])
      ensures r'.times[f.first + j] == (if SentAt(f, s0, j) then f.t else s0.times[f.first + j])
    {
      if j < k {
        assert r'.values[f.first + j] == r.values[f.first + j];
        assert r'.times[f.first + j] == r.times[f.first + j];
      }
    }
  }

  /** One more step writes only the `k`-th light. */
  lemma OthersStep(f: Frame, s0: FrameState, k: nat, r: FrameState, r': FrameState)
    requires Fits(f, s0) && k < Lights(f)
    requires |r.values| == |r.times| == |s0.values| && OthersKept(f, s0, k, r)
    requires r'.values == r.values || r'.values == r.values[f.first + k := PayloadOf(f, k)]
    requires r'.times == r.times || r'.times == r.times[f.first + k := f.t]
    ensures OthersKept(f, s0, k + 1, r')
  {
    forall id | 0 <= id < |s0.values| && !(f.first <= id < f.first + k + 1)
      ensures r'.values[id] == s0.values[id] && r'.times[id] == s0.times[id]
    {
      assert r'.values[id] == r.values[id] && r'.times[id] == r.times[id];
    }
  }

  /**
   * What one more light does to a characterized state: it is written iff
   * it is sent, and the queue and the halt flag stay characterized.
   */
  lemma VisitEffect(f: Frame, s0: FrameState, k: nat, r: FrameState)
    requires Fits(f, s0) && k < Lights(f) && |s0.queue| <= f.capacity
    requires |r.values| == |s0.values| && |r.times| == |s0.times|
    requires QueueMatches(f, s0, k, r)
    requires r.values[f.first + k] == s0.values[f.first + k] && r.times[f.first + k] == s0.times[f.first + k]
    ensures var id := f.first + k;
            && Visit(f, r, k).values == (if SentAt(f, s0, k) then r.values[id := PayloadOf(f, k)] else r.values)
            && Visit(f, r, k).times == (if SentAt(f, s0, k) then r.times[id := f.t] else r.times)
    ensures QueueMatches(f, s0, k + 1, Visit(f, r, k))
  {
    assert Qualifying(f, s0, k + 1) == Qualifying(f, s0, k) + if QualifiesAt(f, s0, k) then [k] else [];
    if r.halted || !QualifiesAt(f, s0, k) {
      VisitSkips(f, s0, k, r);
    } else if |r.queue| >= f.capacity {
      VisitFindsFull(f, s0, k, r);
    } else {
      VisitSends(f, s0, k, r);
    }
  }

  lemma VisitSkips(f: Frame, s0: FrameState, k: nat, r: FrameState)
    requires Fits(f, s0) && k < Lights(f) && |s0.queue| <= f.capacity
    requires |r.values| == |s0.values| && |r.times| == |s0.times|
    requires QueueMatches(f, s0, k, r)
    requires r.halted || !QualifiesAt(f, s0, k)
    requires r.values[f.first + k] == s0.values[f.first + k] && r.times[f.first + k] == s0.times[f.first + k]
    requires Qualifying(f, s0, k + 1) == Qualifying(f, s0, k) + if QualifiesAt(f, s0, k) then [k] else []
    ensures Visit(f, r, k) == r && !SentAt(f, s0, k)
    ensures QueueMatches(f, s0, k + 1, Visit(f, r, k))
  {
    var q, q' := Qualifying(f, s0, k), Qualifying(f, s0, k + 1);
    var free := f.capacity - |s0.queue|;
    assert |q| > free ==> |q'| > free;
    assert q'[..Sendable(|q'|, free)] == q[..Sendable(|q|, free)];
  }

  lemma VisitFindsFull(f: Frame, s0: FrameState, k: nat, r: FrameState)
    requires Fits(f, s0) && k < Lights(f) && |s0.queue| <= f.capacity
    requires |r.values| == |s0.values| && |r.times| == |s0.times|
    requires QueueMatches(f, s0, k, r)
    requires !r.halted && |r.queue| >= f.capacity && QualifiesAt(f, s0, k)
    requires r.values[f.first + k] == s0.values[f.first + k] && r.times[f.first + k] == s0.times[f.first + k]
    requires Qualifying(f, s0, k + 1) == Qualifying(f, s0, k) + [k]
    ensures Visit(f, r, k) == r.(halted := true) && !SentAt(f, s0, k)
    ensures QueueMatches(f, s0, k + 1, Visit(f, r, k))
  {
    var q, q' := Qualifying(f, s0, k), Qualifying(f, s0, k + 1);
    var free := f.capacity - |s0.queue|;
    assert |q| == free;
    assert q'[..Sendable(|q'|, free)] == q[..Sendable(|q|, free)];
  }

  lemma VisitSends(f: Frame, s0: FrameState, k: nat, r: FrameState)
    requires Fits(f, s0) && k < Lights(f) && |s0.queue| <= f.capacity
    requires |r.values| == |s0.values| && |r.times| == |s0.times|
    requires QueueMatches(f, s0, k, r)
    requires !r.halted && |r.queue| < f.capacity && QualifiesAt(f, s0, k)
    requires r.values[f.first + k] == s0.values[f.first + k] && r.times[f.first + k] == s0.times[f.first + k]
    requires Qualifying(f, s0, k + 1) == Qualifying(f, s0, k) + [k]
    ensures var id, d := f.first + k, PayloadOf(f, k);
            Visit(f, r, k) == FrameState(r.values[id := d], r.times[id := f.t], r.queue + [Message(id, d)], false)
    ensures SentAt(f, s0, k)
    ensures QueueMatches(f, s0, k + 1, Visit(f, r, k))
  {
    var q, q' := Qualifying(f, s0, k), Qualifying(f, s0, k + 1);
    var free := f.capacity - |s0.queue|;
    var id, d := f.first + k, PayloadOf(f, k);
    VisitOnRoom(f, r, k);
    var m := Sendable(|q|, free);
    assert |r.queue| == |s0.queue| + m;
    assert m == |q| && |q| < free;
    assert q[..m] == q;
    QueueAppend(f, s0.queue, q, k, r.queue);
    assert q'[..Sendable(|q'|, free)] == q + [k];
  }

  /** A light that qualifies against the current state and finds room is sent. */
  lemma VisitOnRoom(f: Frame, r: FrameState, k: nat)
    requires Fits(f, r) && k < Lights(f) && !r.halted && |r.queue| < f.capacity
    requires Qualifies(r.values[f.first + k], r.times[f.first + k], PayloadOf(f, k), f.t, f.rebroadcast)
    ensures var id, d := f.first + k, PayloadOf(f, k);
            Visit(f, r, k) == FrameState(r.values[id := d], r.times[id := f.t], r.queue + [Message(id, d)], false)
  {
  }

  /** Appending the message of one more position to a queue of earlier messages. */
  lemma QueueAppend(f: Frame, front: seq<Message>, q: seq<int>, k: nat, queue: seq<Message>)
    requires WellFormed(f) && k < Lights(f) && forall i :: 0 <= i < |q| ==> 0 <= q[i] < Lights(f)
    requires queue == front + Messages(f, q)
    ensures queue + [Message(f.first + k, PayloadOf(f, k))] == front + Messages(f, q + [k])
  {
    assert (q + [k])[..|q|] == q;
  }

  /** Once a call has stopped, the remaining lights change nothing. */
  lemma {:induction false} HaltedStays(f: Frame, s0: FrameState, i: nat, j: nat)
    requires Fits(f, s0) && i <= j <= Lights(f) && Run(f, s0, i).halted
    ensures Run(f, s0, j) == Run(f, s0, i)
    decreases j
  {
    if j > i {
      HaltedStays(f, s0, i, j - 1);
    }
  }

  /** The lights that qualify are listed by `Qualifying`, and no others. */
  lemma {:induction false} QualifyingExactly(f: Frame, s0: FrameState, i: nat, j: int)
    requires Fits(f, s0) && i <= Lights(f) && 0 <= j < i
    ensures j in Qualifying(f, s0, i) <==> QualifiesAt(f, s0, j)
    decreases i
  {
    var k: nat := i - 1;
    var q := Qualifying(f, s0, k);
    assert Qualifying(f, s0, k + 1) == q + if QualifiesAt(f, s0, k) then [k] else [];
    if j < k {
      QualifyingExactly(f, s0, k, j);
    } else {
      assert k !in q;
    }
  }

  /** When every light qualifies, all of them are listed, in order. */
  lemma {:induction false} QualifyingAll(f: Frame, s0: FrameState, i: nat)
    requires Fits(f, s0) && i <= Lights(f)
    requires forall j :: 0 <= j < i ==> QualifiesAt(f, s0, j)
    ensures Qualifying(f, s0, i) == seq(i, j => j)
    decreases i
  {
    if i > 0 {
      QualifyingAll(f, s0, i - 1);
      assert QualifiesAt(f, s0, i - 1);
      assert Qualifying(f, s0, i) == Qualifying(f, s0, i - 1) + [i - 1];
      assert seq(i, j => j) == seq(i - 1, j => j) + [i - 1];
    }
  }

  /** The positions of the lights a call sends, in increasing order. */
  ghost function SentPositions(f: Frame, s0: FrameState): (p: seq<int>)
    requires Fits(f, s0) && |s0.queue| <= f.capacity
    ensures |p| <= f.capacity - |s0.queue|
    ensures forall k :: 0 <= k < |p| ==> 0 <= p[k] < Lights(f)
    ensures forall k, k' :: 0 <= k < k' < |p| ==> p[k] < p[k']
  {
    var q := Qualifying(f, s0, Lights(f));
    q[..Sendable(|q|, f.capacity - |s0.queue|)]
  }

  /** The queue after a call: the old messages, then those of the sent lights. */
  lemma ProcessQueue(f: Frame, s0: FrameState)
    requires Fits(f, s0) && !s0.halted && |s0.queue| <= f.capacity
    ensures Process(f, s0).queue == s0.queue + Messages(f, SentPositions(f, s0))
  {
    RunCharacterized(f, s0, Lights(f));
  }

  /**
   * The queue never exceeds its capacity, and the messages queued before
   * the call stay at its front.
   */
  lemma QueueBounded(f: Frame, s0: FrameState)
    requires Fits(f, s0) && !s0.halted && |s0.queue| <= f.capacity
    ensures |Process(f, s0).queue| <= f.capacity
    ensures |s0.queue| <= |Process(f, s0).queue| && Process(f, s0).queue[..|s0.queue|] == s0.queue
  {
    ProcessQueue(f, s0);
    var sent := Messages(f, SentPositions(f, s0));
    assert (s0.queue + sent)[..|s0.queue|] == s0.queue;
  }

  /**
   * The messages a call appends are for lights of this universe, in
   * increasing id order, each carrying that light's slice of the frame.
   */
  lemma SentInIdOrder(f: Frame, s0: FrameState)
    requires Fits(f, s0) && !s0.halted && |s0.queue| <= f.capacity
    ensures |s0.queue| <= |Process(f, s0).queue|
    ensures var out := Process(f, s0).queue[|s0.queue|..];
            && (forall k :: 0 <= k < |out| ==>
                  f.first <= out[k].light < f.first + Lights(f)
                  && out[k].payload == PayloadOf(f, out[k].light - f.first))
            && (forall k, k' :: 0 <= k < k' < |out| ==> out[k].light < out[k'].light)
  {
    ProcessQueue(f, s0);
    var p := SentPositions(f, s0);
    AppendedAfter(s0.queue, Messages(f, p), Process(f, s0).queue);
    MessagesIncreasing(f, p);
  }

  /** Messages for increasing positions have increasing light ids. */
  lemma MessagesIncreasing(f: Frame, p: seq<int>)
    requires WellFormed(f) && forall k :: 0 <= k < |p| ==> 0 <= p[k] < Lights(f)
    requires forall k, k' :: 0 <= k < k' < |p| ==> p[k] < p[k']
    ensures forall k, k' :: 0 <= k < k' < |p| ==> Messages(f, p)[k].light < Messages(f, p)[k'].light
  {
    var ms := Messages(f, p);
    forall k, k' | 0 <= k < k' < |p| ensures ms[k].light < ms[k'].light {
      assert p[k] < p[k'];
    }
  }

  /** A light that is not sent keeps its stored bytes and time. */
  lemma NotSentKept(f: Frame, s0: FrameState, j: nat)
    requires Fits(f, s0) && !s0.halted && |s0.queue| <= f.capacity && j < Lights(f)
    requires !SentAt(f, s0, j)
    ensures Process(f, s0).values[f.first + j] == s0.values[f.first + j]
    ensures Process(f, s0).times[f.first + j] == s0.times[f.first + j]
  {
    RunCharacterized(f, s0, Lights(f));
  }

  /**
   * A light whose bytes equal the stored ones and which is not overdue is
   * not sent, and keeps its stored bytes and time.
   */
  lemma NotQualifyingKept(f: Frame, s0: FrameState, j: nat)
    requires Fits(f, s0) && !s0.halted && |s0.queue| <= f.capacity && j < Lights(f)
    requires PayloadOf(f, j) == s0.values[f.first + j] && f.t - s0.times[f.first + j] <= f.rebroadcast
    ensures Process(f, s0).values[f.first + j] == s0.values[f.first + j]
    ensures Process(f, s0).times[f.first + j] == s0.times[f.first + j]
    ensures forall k :: |s0.queue| <= k < |Process(f, s0).queue| ==> Process(f, s0).queue[k].light != f.first + j
  {
    NotSentKept(f, s0, j);
    NeverSent(f, s0, j);
  }

  /** No message the call appends is for a light that does not qualify. */
  lemma NeverSent(f: Frame, s0: FrameState, j: nat)
    requires Fits(f, s0) && !s0.halted && |s0.queue| <= f.capacity && j < Lights(f)
    requires !QualifiesAt(f, s0, j)
    ensures forall k :: |s0.queue| <= k < |Process(f, s0).queue| ==> Process(f, s0).queue[k].light != f.first + j
  {
    ProcessQueue(f, s0);
    var p := SentPositions(f, s0);
    var sent := Messages(f, p);
    QualifyingExactly(f, s0, Lights(f), j);
    forall k | 0 <= k < |sent| ensures sent[k].light != f.first + j {
      assert p[k] in Qualifying(f, s0, Lights(f));
    }
  }

  /**
   * A light that qualified but was dropped because the queue was full keeps
   * its stored state, so the same bytes qualify again in any later frame.
   */
  lemma DroppedLightRequalifies(f: Frame, s0: FrameState, j: nat, later: Frame)
    requires Fits(f, s0) && !s0.halted && |s0.queue| <= f.capacity && j < Lights(f)
    requires QualifiesAt(f, s0, j) && !SentAt(f, s0, j)
    requires later == f.(t := later.t, capacity := later.capacity) && f.t <= later.t
    ensures Fits(later, Process(f, s0)) && QualifiesAt(later, Process(f, s0), j)
  {
    NotSentKept(f, s0, j);
  }

  /** When every light qualifies and the queue has room, all are sent, in id order. */
  lemma AllSentWhenRoom(f: Frame, s0: FrameState)
    requires Fits(f, s0) && !s0.halted && |s0.queue| + Lights(f) <= f.capacity
    requires forall j :: 0 <= j < Lights(f) ==> QualifiesAt(f, s0, j)
    ensures |s0.queue| <= |Process(f, s0).queue|
    ensures var out := Process(f, s0).queue[|s0.queue|..];
            && |s0.queue| + |out| == |Process(f, s0).queue|
            && |out| == Lights(f)
            && forall j :: 0 <= j < |out| ==> f.count > 0 && out[j] == Message(f.first + j, PayloadOf(f, j))
  {
    ProcessQueue(f, s0);
    SentPositionsAll(f, s0);
    AppendedAfter(s0.queue, Messages(f, SentPositions(f, s0)), Process(f, s0).queue);
  }

  /** When every light qualifies and there is room, every position is sent. */
  lemma SentPositionsAll(f: Frame, s0: FrameState)
    requires Fits(f, s0) && |s0.queue| + Lights(f) <= f.capacity
    requires forall j :: 0 <= j < Lights(f) ==> QualifiesAt(f, s0, j)
    ensures SentPositions(f, s0) == seq(Lights(f), j => j)
  {
    QualifyingAll(f, s0, Lights(f));
    var q := Qualifying(f, s0, Lights(f));
    assert q[..Sendable(|q|, f.capacity - |s0.queue|)] == q;
  }

  /** What follows `front` in `front + back`. */
  lemma AppendedAfter(front: seq<Message>, back: seq<Message>, queue: seq<Message>)
    requires queue == front + back
    ensures |front| <= |queue| && queue[|front|..] == back
  {
  }

  /** The frame one call of the processor sees, for universe ordinal `u` of layout `l`. */
  function FrameOf(l: Layout, u: nat, data: seq<bv8>, t: int, rebroadcast: int, capacity: nat): Frame {
    Frame(FirstLight(l, u), LightsIn(l, u), l.channels, data, t, rebroadcast, capacity)
  }

  /** Number of per-light entries: one for each light id. */
  function Slots(l: Layout): nat {
    if l.lights > 0 then l.lights else 0
  }

  /** The state before any frame: empty bytes and time 0 for every light, and an empty queue. */
  function Initial(n: nat): (s: FrameState)
    ensures |s.values| == |s.times| == n && s.queue == [] && !s.halted
    ensures forall id :: 0 <= id < n ==> s.values[id] == [] && s.times[id] == 0
  {
    FrameState(seq(n, _ => []), seq(n, _ => 0), [], false)
  }

  /**
   * For an accepted layout, the frame of any universe ordinal can be
   * processed against the per-light state, and it visits exactly that
   * universe's light ids, in order.
   */
  lemma FrameOfFits(l: Layout, u: nat, data: seq<bv8>, t: int, rebroadcast: int, capacity: nat, s: FrameState)
    requires IsPlan(l) && |s.values| == |s.times| == Slots(l)
    ensures var f := FrameOf(l, u, data, t, rebroadcast, capacity);
            && Fits(f, s)
            && Lights(f) == |LightIds(l, u)|
            && f.first == FirstLight(l, u)
            && (Lights(f) > 0 ==> Lights(f) <= l.perUniverse)
  {
    var f := FrameOf(l, u, data, t, rebroadcast, capacity);
    if f.count > 0 {
      assert l.perUniverse > 0;
      MulMonotone(l.perUniverse, 0, u);
    }
  }

  /** A frame for one universe leaves the lights of every other universe as they were. */
  lemma OtherUniversesKept(l: Layout, u: nat, data: seq<bv8>, t: int, rebroadcast: int, capacity: nat,
                           s0: FrameState, id: int)
    requires IsPlan(l) && |s0.values| == |s0.times| == Slots(l) && !s0.halted && |s0.queue| <= capacity
    requires 0 <= id < Slots(l) && id !in LightIds(l, u)
    ensures var r := Process(FrameOf(l, u, data, t, rebroadcast, capacity), s0);
            r.values[id] == s0.values[id] && r.times[id] == s0.times[id]
  {
    var f := FrameOf(l, u, data, t, rebroadcast, capacity);
    FrameOfFits(l, u, data, t, rebroadcast, capacity, s0);
    InLightIds(l, u, id);
    RunCharacterized(f, s0, Lights(f));
  }

  /** In a full 512-byte frame, every light of the universe gets exactly `channels` bytes. */
  lemma FullFramePayload(l: Layout, u: nat, data: seq<bv8>, t: int, rebroadcast: int, capacity: nat, j: nat)
    requires IsPlan(l) && |data| == UNIVERSE_SIZE
    requires j < Lights(FrameOf(l, u, data, t, rebroadcast, capacity))
    ensures l.channels > 0
    ensures j * l.channels + l.channels <= |data|
    ensures PayloadOf(FrameOf(l, u, data, t, rebroadcast, capacity), j)
            == data[j * l.channels..j * l.channels + l.channels]
  {
    var p, c := l.perUniverse, l.channels;
    assert p > 0 && j < p;
    SlotFits(p, c, j);
    assert Offset(j, c) == j * c;
  }

  /**
   * The first frame of a universe, with a full 512-byte frame and room in
   * the queue, sends every light of the universe in id order: nothing has
   * been stored yet, so every slice differs from the empty value.
   */
  lemma FirstFrameSendsAll(l: Layout, u: nat, data: seq<bv8>, t: int, rebroadcast: int, capacity: nat)
    requires IsPlan(l) && |data| == UNIVERSE_SIZE && |LightIds(l, u)| <= capacity
    ensures var f := FrameOf(l, u, data, t, rebroadcast, capacity);
            && Fits(f, Initial(Slots(l)))
            && var out := Process(f, Initial(Slots(l))).queue;
            && |out| == |LightIds(l, u)|
            && forall j :: 0 <= j < |out| ==> f.channels > 0 && out[j] == Message(LightIds(l, u)[j], PayloadOf(f, j))
  {
    var f := FrameOf(l, u, data, t, rebroadcast, capacity);
    var s0 := Initial(Slots(l));
    FrameOfFits(l, u, data, t, rebroadcast, capacity, s0);
    forall j | 0 <= j < Lights(f) ensures QualifiesAt(f, s0, j) {
      FullFramePayload(l, u, data, t, rebroadcast, capacity, j);
      assert s0.values[f.first + j] == [];
    }
    AllSentWhenRoom(f, s0);
  }
}
