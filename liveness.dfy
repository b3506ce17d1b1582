/**
 * Liveness of the subscribed universes: the table of last-frame times and
 * connected flags shared by the frame processor and the watchdog thread,
 * and one wake-up of that thread.
 */
module Liveness {

  /** Seconds without a frame after which a universe counts as lost. */
  const CONNECTION_TIMEOUT: int := 3

  /** One universe's entry: its last frame time and whether it is connected. */
  datatype Link = Link(lastSeen: int, connected: bool)

  /** A frame arrives at time `t`. */
  function OnFrame(l: Link, t: int): Link {
    Link(t, true)
  }

  /** The watchdog's timeout test: connected and silent for more than the timeout. */
  predicate TimedOut(l: Link, now: int) {
    l.connected && now - l.lastSeen > CONNECTION_TIMEOUT
  }

  /** The watchdog examines the universe at time `now`. */
  function OnTick(l: Link, now: int): Link {
    if TimedOut(l, now) then Link(l.lastSeen, false) else l
  }

  /** The watchdog never connects a universe and never changes its time. */
  lemma TickOnlyDisconnects(l: Link, now: int)
    ensures OnTick(l, now).lastSeen == l.lastSeen
    ensures OnTick(l, now).connected ==> l.connected
    ensures OnTick(l, now).connected != l.connected <==> TimedOut(l, now)
  {
  }

  /** A second examination at the same time changes nothing. */
  lemma TickIdempotent(l: Link, now: int)
    ensures OnTick(OnTick(l, now), now) == OnTick(l, now)
  {
  }

  /** Once lost, a universe stays lost at every later examination until a frame arrives. */
  lemma LostStaysLost(l: Link, now: int, later: int)
    requires now <= later && !OnTick(l, now).connected
    ensures !OnTick(OnTick(l, now), later).connected
  {
  }

  /** A frame reconnects a universe however long it was silent. */
  lemma FrameReconnects(l: Link, now: int, t: int)
    ensures OnFrame(OnTick(l, now), t).connected
  {
  }

  /**
   * After a frame at `t`, the watchdog disconnects the universe at `now`
   * exactly when more than the timeout has elapsed.
   */
  lemma FrameThenTick(l: Link, t: int, now: int)
    ensures OnTick(OnFrame(l, t), now).connected <==> now - t <= CONNECTION_TIMEOUT
  {
  }

  /** Does the table have an entry for every listed universe? */
  ghost predicate Covers(connected: map<int, bool>, lastSeen: map<int, int>, universes: seq<int>) {
    forall u :: u in universes ==> u in connected && u in lastSeen
  }

  /** The connected flags after the watchdog examines `universes` at `now`. */
  function AfterTick(connected: map<int, bool>, lastSeen: map<int, int>, universes: seq<int>, now: int)
    : (r: map<int, bool>)
    requires Covers(connected, lastSeen, universes)
    ensures r.Keys == connected.Keys
  {
    map u | u in connected ::
      if u in universes && TimedOut(Link(lastSeen[u], connected[u]), now) then false else connected[u]
  }

  /**
   * A tick disconnects exactly the listed universes that timed out and
   * leaves every other flag as it was.
   */
  lemma AfterTickExactly(connected: map<int, bool>, lastSeen: map<int, int>, universes: seq<int>, now: int, u: int)
    requires Covers(connected, lastSeen, universes) && u in connected
    ensures AfterTick(connected, lastSeen, universes, now)[u] ==
              if u in universes then OnTick(Link(lastSeen[u], connected[u]), now).connected else connected[u]
    ensures AfterTick(connected, lastSeen, universes, now)[u] ==> connected[u]
  {
  }

  /** `m` with every listed universe set to `v`. */
  function Reset<V>(m: map<int, V>, universes: seq<int>, v: V): (r: map<int, V>)
    ensures forall u :: u in universes ==> u in r && r[u] == v
    ensures forall u :: u !in universes ==> (u in r <==> u in m)
    ensures forall u :: u !in universes && u in m ==> r[u] == m[u]
  {
    m + map u | u in universes :: v
  }

  lemma ResetStep<V>(m: map<int, V>, universes: seq<int>, x: int, v: V)
    ensures Reset(m, universes + [x], v) == Reset(m, universes, v)[x := v]
  {
    var a, b := Reset(m, universes + [x], v), Reset(m, universes, v)[x := v];
    forall u ensures (u in a <==> u in b) && (u in a ==> a[u] == b[u]) {
      assert u in universes + [x] <==> u in universes || u == x;
    }
  }

  /** Python's `has_artnet` and `last_artnet` dictionaries. */
  class UniverseTable {
    var connected: map<int, bool>
    var lastSeen: map<int, int>

    ghost predicate Valid()
      reads this
    {
      connected.Keys == lastSeen.Keys
    }

    /** The entry of one universe. */
    ghost function LinkOf(u: int): Link
      reads this
      requires u in connected && u in lastSeen
    {
      Link(lastSeen[u], connected[u])
    }

    constructor ()
      ensures Valid() && connected == map[] && lastSeen == map[]
    {
      connected := map[];
      lastSeen := map[];
    }

    /** A frame of universe `uni` arrived at time `t`: it is connected and was last seen at `t`. */
    method MarkReceived(uni: int, t: int)
      requires Valid() && uni in connected
      modifies this
      ensures Valid()
      ensures connected == old(connected)[uni := true]
      ensures lastSeen == old(lastSeen)[uni := t]
      ensures LinkOf(uni) == OnFrame(old(LinkOf(uni)), t)
    {
      if !connected[uni] {
        connected := connected[uni := true];
      } else {
        assert connected == connected[uni := true];
      }
      lastSeen := lastSeen[uni := t];
    }
  }

  /** The watchdog thread's state: the universes it watches and the shared table. */
  class Watchdog {
    var universes: seq<int>
    const table: UniverseTable

    ghost predicate Ready()
      reads this, table
    {
      table.Valid() && Covers(table.connected, table.lastSeen, universes)
    }

    constructor (table: UniverseTable)
      ensures this.table == table && universes == []
    {
      this.table := table;
      universes := [];
    }

    /** Starts watching `universes`, each disconnected with a last frame time of 0. */
    method SetUniverses(universes: seq<int>)
      requires table.Valid()
      modifies this, table
      ensures Ready() && this.universes == universes
      ensures table.connected == Reset(old(table.connected), universes, false)
      ensures table.lastSeen == Reset(old(table.lastSeen), universes, 0)
      ensures forall u :: u in universes ==> table.LinkOf(u) == Link(0, false)
    {
      this.universes := universes;
      var k := 0;
      while k < |universes|
        invariant 0 <= k <= |universes| && table.Valid() && this.universes == universes
        invariant table.connected == Reset(old(table.connected), universes[..k], false)
        invariant table.lastSeen == Reset(old(table.lastSeen), universes[..k], 0)
      {
        var uni := universes[k];
        assert universes[..k + 1] == universes[..k] + [uni];
        ResetStep(old(table.connected), universes[..k], uni, false);
        ResetStep(old(table.lastSeen), universes[..k], uni, 0);
        table.lastSeen := table.lastSeen[uni := 0];
        table.connected := table.connected[uni := false];
        k := k + 1;
      }
      assert universes[..k] == universes;
    }

    /** One wake-up of the watchdog loop, at time `now`. */
    method Tick(now: int)
      requires Ready()
      modifies table
      ensures Ready()
      ensures table.lastSeen == old(table.lastSeen)
      ensures table.connected == AfterTick(old(table.connected), table.lastSeen, universes, now)
    {
      ghost var start := table.connected;
      var k := 0;
      while k < |universes|
        invariant 0 <= k <= |universes|
        invariant table.lastSeen == old(table.lastSeen) && table.Valid()
        invariant Covers(start, table.lastSeen, universes)
        invariant table.connected == AfterTick(start, table.lastSeen, universes[..k], now)
      {
        var uni := universes[k];
        assert universes[..k + 1] == universes[..k] + [uni];
        if table.connected[uni] && now - table.lastSeen[uni] > CONNECTION_TIMEOUT {
          table.connected := table.connected[uni := false];
        }
        k := k + 1;
      }
      assert universes[..k] == universes;
    }
  }
}
