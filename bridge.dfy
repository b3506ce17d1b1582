/**
 * The running bridge: the bounded outbound queue, the frame processor that
 * an ArtNet listener calls for each received universe frame, and the worker
 * that turns queued messages into MQTT publications.
 */
module Bridge {
  import opened Wrappers
  import opened LightMap
  import opened FrameSpec
  import Topic
  import Liveness
  import Startup

  /** Capacity of the outbound queue. */
  const QUEUE_SIZE: nat := 10000

  /** A bounded first-in first-out queue of messages. */
  class OutboundQueue {
    const capacity: nat
    var items: seq<Message>

    ghost predicate Valid()
      reads this
    {
      |items| <= capacity
    }

    constructor (capacity: nat)
      ensures Valid() && this.capacity == capacity && items == []
    {
      this.capacity := capacity;
      items := [];
    }

    /** Appends `m` unless the queue is full; `ok` tells which happened. */
    method Put(m: Message) returns (ok: bool)
      requires Valid()
      modifies this
      ensures Valid()
      ensures ok <==> |old(items)| < capacity
      ensures items == if ok then old(items) + [m] else old(items)
    {
      if |items| < capacity {
        items := items + [m];
        ok := true;
      } else {
        ok := false;
      }
    }

    /** Removes and returns the oldest message, or `None` when the queue is empty. */
    method Get() returns (r: Option<Message>)
      requires Valid()
      modifies this
      ensures Valid()
      ensures old(items) == [] ==> r == None && items == []
      ensures old(items) != [] ==> r == Some(old(items)[0]) && items == old(items)[1..]
    {
      if items == [] {
        r := None;
      } else {
        r := Some(items[0]);
        items := items[1..];
      }
    }
  }

  /**
   * The receive callback's state: the stored bytes and time of every light,
   * the outbound queue, and the table of universe links it shares with the
   * watchdog.
   */
  class FrameProcessor {
    const layout: Layout
    const rebroadcast: int
    const lastLights: array<Payload>
    const lastTimes: array<int>
    const outbox: OutboundQueue
    const links: Liveness.UniverseTable

    ghost predicate Valid()
      reads this, lastLights, lastTimes, outbox, links
    {
      && IsPlan(layout)
      && lastLights.Length == Slots(layout)
      && lastTimes.Length == Slots(layout)
      && outbox.Valid()
      && links.Valid()
    }

    /** The per-light state and the queue, as the frame specification sees them. */
    ghost function State(): FrameState
      reads this, lastLights, lastTimes, outbox
    {
      FrameState(lastLights[..], lastTimes[..], outbox.items, false)
    }

    /** Every light starts with empty bytes and time 0. */
    constructor (layout: Layout, rebroadcast: int, outbox: OutboundQueue, links: Liveness.UniverseTable)
      requires IsPlan(layout) && outbox.Valid() && links.Valid()
      ensures Valid()
      ensures this.layout == layout && this.rebroadcast == rebroadcast
      ensures this.outbox == outbox && this.links == links
      ensures fresh(lastLights) && fresh(lastTimes)
      ensures lastLights[..] == Initial(Slots(layout)).values
      ensures lastTimes[..] == Initial(Slots(layout)).times
    {
      this.layout := layout;
      this.rebroadcast := rebroadcast;
      this.outbox := outbox;
      this.links := links;
      lastLights := new Payload[Slots(layout)](_ => []);
      lastTimes := new int[Slots(layout)](_ => 0);
    }

    /**
     * One received frame of universe `uni`, the `uniIndex`-th configured
     * universe, at time `t`: the universe is marked connected and seen at
     * `t`, and the lights of the universe are processed as `Process` says.
     */
    method Receive(uniIndex: nat, uni: int, data: seq<bv8>, t: int)
      requires Valid() && uni in links.connected
      modifies links, outbox, lastLights, lastTimes
      ensures Valid()
      ensures links.connected == old(links.connected)[uni := true]
      ensures links.lastSeen == old(links.lastSeen)[uni := t]
      ensures var f := FrameOf(layout, uniIndex, data, t, rebroadcast, outbox.capacity);
              && Fits(f, old(State()))
              && lastLights[..] == Process(f, old(State())).values
              && lastTimes[..] == Process(f, old(State())).times
              && outbox.items == Process(f, old(State())).queue
    {
      links.MarkReceived(uni, t);
      var f := FrameOf(layout, uniIndex, data, t, rebroadcast, outbox.capacity);
      FrameOfFits(layout, uniIndex, data, t, rebroadcast, outbox.capacity, State());
      ProcessFrame(f);
    }

    /** The loop over the lights of one frame, which stops at the first full queue. */
    method ProcessFrame(f: Frame)
      requires Fits(f, State()) && f.capacity == outbox.capacity && outbox.Valid()
      modifies outbox, lastLights, lastTimes
      ensures outbox.Valid()
      ensures lastLights[..] == Process(f, old(State())).values
      ensures lastTimes[..] == Process(f, old(State())).times
      ensures outbox.items == Process(f, old(State())).queue
    {
      ghost var s0 := State();
      var i := 0;
      while i < f.count
        invariant 0 <= i <= Lights(f)
        invariant outbox.Valid() && !Run(f, s0, i).halted
        invariant lastLights[..] == Run(f, s0, i).values && lastTimes[..] == Run(f, s0, i).times
        invariant outbox.items == Run(f, s0, i).queue
      {
        var ok := VisitLight(f, s0, i);
        if !ok {
          HaltedStays(f, s0, i + 1, Lights(f));
          return;
        }
        i := i + 1;
      }
    }

    /**
     * One iteration of the receive loop, for the `i`-th light of frame `f`:
     * `ok` is false when the light qualified but the queue was full.
     */
    method VisitLight(f: Frame, ghost s0: FrameState, i: nat) returns (ok: bool)
      requires Fits(f, s0) && i < Lights(f) && f.capacity == outbox.capacity
      requires outbox.Valid() && !Run(f, s0, i).halted
      requires lastLights[..] == Run(f, s0, i).values && lastTimes[..] == Run(f, s0, i).times
      requires outbox.items == Run(f, s0, i).queue
      modifies outbox, lastLights, lastTimes
      ensures outbox.Valid()
      ensures ok <==> !Run(f, s0, i + 1).halted
      ensures lastLights[..] == Run(f, s0, i + 1).values && lastTimes[..] == Run(f, s0, i + 1).times
      ensures outbox.items == Run(f, s0, i + 1).queue
    {
      assert Run(f, s0, i + 1) == Visit(f, Run(f, s0, i), i);
      var id := i + f.first;
      var j := i * f.channels;
      var d := Slice(f.data, j, f.channels);
      ok := true;
      if d != lastLights[id] || f.t - lastTimes[id] > f.rebroadcast {
        ok := outbox.Put(Message(id, d));
        if ok {
          lastLights[id] := d;
          lastTimes[id] := f.t;
        }
      }
    }
  }

  /** What one MQTT publish call is given. */
  datatype Publication = Publication(topic: string, payload: Payload, qos: int, retain: bool)

  /** The publishing worker's settings; the publish itself belongs to the MQTT client. */
  class PublishWorker {
    var topic: string
    var qos: int
    var retain: bool

    constructor ()
      ensures topic == "" && qos == 1 && !retain
    {
      topic := "";
      qos := 1;
      retain := false;
    }

    /** Takes the validated topic template, QoS and retain flag. */
    method Configure(topic: string, qos: int, retain: bool)
      modifies this
      ensures this.topic == topic && this.qos == qos && this.retain == retain
    {
      this.topic := topic;
      this.qos := qos;
      this.retain := retain;
    }

    /**
     * Takes the oldest queued message, if any, and names the publication
     * for it: the topic template with the light id filled in.
     */
    method Next(q: OutboundQueue) returns (p: Option<Publication>)
      requires q.Valid()
      modifies q
      ensures q.Valid()
      ensures old(q.items) == [] ==> p == None && q.items == []
      ensures old(q.items) != [] ==>
                && q.items == old(q.items)[1..]
                && p == Some(Publication(Topic.Render(topic, old(q.items)[0].light), old(q.items)[0].payload, qos, retain))
    {
      var m := q.Get();
      match m
      case None => p := None;
      case Some(msg) => p := Some(Publication(Topic.Render(topic, msg.light), msg.payload, qos, retain));
    }
  }

  /**
   * The bridge after a successful startup: the queue and the universe table
   * shared by the frame processor, the watchdog and the publishing worker.
   */
  class Pipeline {
    const settings: Startup.Settings
    const outbox: OutboundQueue
    const links: Liveness.UniverseTable
    const watchdog: Liveness.Watchdog
    const processor: FrameProcessor
    const worker: PublishWorker

    ghost predicate Valid()
      reads this, outbox, links, watchdog, processor, processor.lastLights, processor.lastTimes, worker
    {
      && processor.outbox == outbox && processor.links == links && watchdog.table == links
      && processor.Valid()
      && watchdog.Ready()
      && processor.layout == settings.layout && processor.rebroadcast == settings.rebroadcast
      && watchdog.universes == settings.layout.universes
      && outbox.capacity == QUEUE_SIZE
      && worker.topic == settings.topic && worker.qos == settings.qos && worker.retain == settings.retain
    }

    /**
     * Startup with the configuration `c`, once every check has passed: the
     * lights start empty at time 0, every universe starts disconnected with
     * time 0, the queue is empty and the worker has the topic, QoS and retain
     * flag of the configuration.
     */
    constructor (c: Startup.Config)
      requires Startup.Start(c).Success?
      ensures Valid() && settings == Startup.Start(c).value
      ensures outbox.items == []
      ensures processor.State() == Initial(Slots(settings.layout))
      ensures links.connected == Liveness.Reset(map[], settings.layout.universes, false)
      ensures links.lastSeen == Liveness.Reset(map[], settings.layout.universes, 0)
    {
      var s := Startup.Start(c).value;
      var q := new OutboundQueue(QUEUE_SIZE);
      var t := new Liveness.UniverseTable();
      var p := new FrameProcessor(s.layout, s.rebroadcast, q, t);
      var w := new Liveness.Watchdog(t);
      w.SetUniverses(s.layout.universes);
      var pw := new PublishWorker();
      pw.Configure(s.topic, s.qos, s.retain);
      settings, outbox, links, watchdog, processor, worker := s, q, t, w, p, pw;
    }

    /** The listener registered for the `uniIndex`-th universe received `data` at time `t`. */
    method OnArtnet(uniIndex: nat, data: seq<bv8>, t: int)
      requires Valid() && uniIndex < |settings.layout.universes|
      modifies links, outbox, processor.lastLights, processor.lastTimes
      ensures Valid()
      ensures var uni := settings.layout.universes[uniIndex];
              && links.connected == old(links.connected)[uni := true]
              && links.lastSeen == old(links.lastSeen)[uni := t]
      ensures var f := FrameOf(settings.layout, uniIndex, data, t, settings.rebroadcast, QUEUE_SIZE);
              && Fits(f, old(processor.State()))
              && processor.State() == Process(f, old(processor.State())).(halted := false)
    {
      processor.Receive(uniIndex, settings.layout.universes[uniIndex], data, t);
    }

    /** One wake-up of the watchdog at time `now`. */
    method OnWatchdogTick(now: int)
      requires Valid()
      modifies links
      ensures Valid()
      ensures links.lastSeen == old(links.lastSeen)
      ensures links.connected == Liveness.AfterTick(old(links.connected), links.lastSeen, settings.layout.universes, now)
    {
      watchdog.Tick(now);
    }

    /** One turn of the publishing worker: the oldest message, ready to publish. */
    method OnPublish() returns (p: Option<Publication>)
      requires Valid()
      modifies outbox
      ensures Valid()
      ensures old(outbox.items) == [] ==> p == None && outbox.items == []
      ensures old(outbox.items) != [] ==>
                && outbox.items == old(outbox.items)[1..]
                && p == Some(Publication(Topic.Render(settings.topic, old(outbox.items)[0].light),
                                         old(outbox.items)[0].payload, settings.qos, settings.retain))
    {
      p := worker.Next(outbox);
    }
  }
}
