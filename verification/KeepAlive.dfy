/**
 The keep-alive window of a CONNECTED connection: timed runs of the ping timer, the pong timer and
 arriving packets.  Timers fire exactly at their deadline and writes succeed.
 */
module KeepAlive {
  import opened Wrappers
  import opened ConnectionModel

  datatype Timed = Timed(
    conn: Conn,
    now: real,
    lastPacket: real,     // when the last valid packet was processed
    pings: nat,           // pings sent since then
    diedAt: Option<real>  // when the pong timer declared the peer dead
  )

  datatype Event =
    | PingFires
    | PongFires
    | PacketAt(time: real)

  /** The state right after `_do_finish_connect` has scheduled the first keep-alive. */
  predicate Fresh(t: Timed) {
    && t.conn.interval > 0.0
    && t.conn.handshakeDone && t.conn.helper && t.conn.phase == Connected
    && t.conn.sendPendingPing && t.conn.pongTimer == None
    && t.conn.pingTimer == Some(t.now + t.conn.interval)
    && t.lastPacket == t.now && t.pings == 0 && t.diedAt == None
  }

  /** No pending timer has a deadline before `time`. */
  predicate NothingDueBefore(c: Conn, time: real) {
    (c.pingTimer.Some? ==> time <= c.pingTimer.value) && (c.pongTimer.Some? ==> time <= c.pongTimer.value)
  }

  predicate CanHappen(t: Timed, e: Event) {
    t.diedAt == None &&
    match e
    case PingFires => t.conn.pingTimer.Some? && NothingDueBefore(t.conn, t.conn.pingTimer.value)
    case PongFires => t.conn.pongTimer.Some? && NothingDueBefore(t.conn, t.conn.pongTimer.value)
    case PacketAt(time) => t.now <= time && NothingDueBefore(t.conn, time)
  }

  function Happen(t: Timed, e: Event): Timed
    requires CanHappen(t, e)
  {
    match e
    case PingFires =>
      var now := t.conn.pingTimer.value;
      t.(conn := SendKeepAlive(t.conn, now, true), now := now,
         pings := if t.conn.sendPendingPing then t.pings + 1 else t.pings)
    case PongFires =>
      var now := t.conn.pongTimer.value;
      t.(conn := ReportFatal(t.conn, PING_FAILED), now := now, diedAt := Some(now))
    case PacketAt(time) =>
      t.(conn := ProcessPacket(t.conn, OtherMessage, true), now := time, lastPacket := time, pings := 0)
  }

  /** The step of the connection that an event is. */
  function StepOf(t: Timed, e: Event): Action
    requires CanHappen(t, e)
  {
    match e
    case PingFires => PingTimer(t.conn.pingTimer.value, true)
    case PongFires => PongTimer
    case PacketAt(_) => PacketArrives(OtherMessage, true)
  }

  /** Every event is a step that the connection can take at that moment, with the same effect. */
  lemma EventsAreSteps(t: Timed, e: Event)
    requires CanHappen(t, e)
    ensures Enabled(t.conn, StepOf(t, e)) && Happen(t, e).conn == Step(t.conn, StepOf(t, e))
  {
    hide SendKeepAlive, ReportFatal, ProcessPacket;
  }

  predicate IsRun(t: Timed, run: seq<Event>)
    decreases |run|
  {
    run == [] || (CanHappen(t, run[0]) && IsRun(Happen(t, run[0]), run[1..]))
  }

  function RunFrom(t: Timed, run: seq<Event>): Timed
    requires IsRun(t, run)
    decreases |run|
  {
    if run == [] then t else RunFrom(Happen(t, run[0]), run[1..])
  }

  /** When the first unanswered ping went out. */
  function FirstPing(t: Timed): real
    requires t.conn.pongTimer.Some?
  {
    t.conn.pongTimer.value - t.conn.interval * KEEP_ALIVE_TIMEOUT_RATIO
  }

  ghost predicate Alive(t: Timed) {
    var k := t.conn.interval;
    && t.diedAt == None && k > 0.0
    && t.conn.handshakeDone && t.conn.helper && t.conn.phase == Connected
    && t.conn.pingTimer.Some?
    && t.lastPacket <= t.now && NothingDueBefore(t.conn, t.now)
    && t.conn.pingTimer.value <= t.now + k
    && (!t.conn.sendPendingPing ==>
          // silent for less than one interval: the next timer only notes the silence
          t.conn.pongTimer == None && t.pings == 0 && t.lastPacket <= t.conn.pingTimer.value <= t.lastPacket + k)
    && (t.conn.sendPendingPing && t.conn.pongTimer == None ==>
          t.pings == 0 && t.lastPacket + k <= t.conn.pingTimer.value <= t.lastPacket + 2.0 * k)
    && (t.conn.pongTimer.Some? ==>
          && t.conn.sendPendingPing && 1 <= t.pings <= 5
          && t.lastPacket + k <= FirstPing(t) <= t.lastPacket + 2.0 * k
          && t.conn.pingTimer.value == FirstPing(t) + t.pings as real * k
          && FirstPing(t) <= t.now)
  }

  ghost predicate Dead(t: Timed) {
    var k := t.conn.interval;
    && t.diedAt.Some? && t.pings == 5
    && t.lastPacket + 5.5 * k <= t.diedAt.value <= t.lastPacket + 6.5 * k
    && t.conn.phase == Closed && t.conn.fatal.Some?
  }

  lemma PingKeepsAlive(t: Timed)
    requires Alive(t) && CanHappen(t, PingFires)
    ensures Alive(Happen(t, PingFires))
  {
    var k := t.conn.interval;
    var d := Happen(t, PingFires);
    if t.conn.pongTimer.Some? {
      assert t.pings == 5 ==> t.pings as real * k == 5.0 * k;
      assert d.pings as real * k == t.pings as real * k + k;
    }
  }

  lemma PongAtFifthPing(t: Timed)
    requires Alive(t) && CanHappen(t, PongFires)
    ensures Dead(Happen(t, PongFires))
  {
    var k := t.conn.interval;
    assert t.conn.pongTimer.value == FirstPing(t) + k * 4.5;
    assert t.conn.pingTimer.value == FirstPing(t) + t.pings as real * k;
    assert t.conn.pongTimer.value <= t.conn.pingTimer.value;
    assert 4.5 * k <= t.pings as real * k;
    assert t.pings <= 4 ==> t.pings as real * k <= 4.0 * k;
  }

  lemma EventKeepsAlive(t: Timed, e: Event)
    requires Alive(t) && CanHappen(t, e)
    ensures Alive(Happen(t, e)) || Dead(Happen(t, e))
  {
    match e
    case PingFires => PingKeepsAlive(t);
    case PacketAt(time) =>
    case PongFires => PongAtFifthPing(t);
  }

  lemma {:induction false} RunKeepsAlive(t: Timed, run: seq<Event>)
    requires Alive(t) && IsRun(t, run)
    ensures Alive(RunFrom(t, run)) || Dead(RunFrom(t, run))
    decreases |run|
  {
    if run != [] {
      EventKeepsAlive(t, run[0]);
      if Alive(Happen(t, run[0])) {
        RunKeepsAlive(Happen(t, run[0]), run[1..]);
      }
    }
  }

  /**
   The keep-alive window.  In every run from the first scheduled keep-alive, a peer that is declared
   dead was silent for at least 5.5 and at most 6.5 intervals and left exactly five pings unanswered;
   while it is not declared dead, at most 6.5 intervals have passed since its last valid packet.
   */
  lemma KeepAliveWindow(t: Timed, run: seq<Event>)
    requires Fresh(t) && IsRun(t, run)
    ensures var d := RunFrom(t, run);
            var k := d.conn.interval;
            && (d.diedAt.Some? ==>
                  && d.lastPacket + 5.5 * k <= d.diedAt.value <= d.lastPacket + 6.5 * k
                  && d.pings == 5)
            && (d.diedAt == None ==> d.now <= d.lastPacket + 6.5 * k)
            && (d.diedAt.Some? <==> d.conn.phase == Closed)
  {
    RunKeepsAlive(t, run);
  }

  /**
   The pong timer never fires within 5.5 intervals of a valid packet: one interval passes before the
   first unanswered ping, and 4.5 after it.
   */
  lemma PacketPostponesPong(t: Timed, run: seq<Event>)
    requires Fresh(t) && IsRun(t, run) && CanHappen(RunFrom(t, run), PongFires)
    ensures var d := RunFrom(t, run);
            d.conn.pongTimer.value >= d.lastPacket + 5.5 * d.conn.interval
  {
    RunKeepsAlive(t, run);
  }

  // A silent peer is declared dead

  predicate Silent(run: seq<Event>) {
    forall i | 0 <= i < |run| :: !run[i].PacketAt?
  }

  /** How many timers can still fire before a silent peer is declared dead. */
  function TimersLeft(t: Timed): int {
    if t.diedAt.Some? then 0
    else if !t.conn.sendPendingPing then 7
    else if t.conn.pongTimer == None then 6
    else 6 - t.pings
  }

  /** While the peer is not declared dead, time can pass: one of the timers can fire. */
  lemma TimeCanPass(t: Timed)
    requires Alive(t)
    ensures CanHappen(t, PingFires) || CanHappen(t, PongFires)
  {
  }

  lemma SilenceCounts(t: Timed, e: Event)
    requires Alive(t) && CanHappen(t, e) && !e.PacketAt?
    ensures 0 <= TimersLeft(Happen(t, e)) < TimersLeft(t)
  {
    EventKeepsAlive(t, e);
  }

  lemma {:induction false} SilentRunIsShort(t: Timed, run: seq<Event>)
    requires Alive(t) && IsRun(t, run) && Silent(run)
    ensures |run| <= TimersLeft(t)
    ensures RunFrom(t, run).diedAt == None ==> Alive(RunFrom(t, run))
    decreases |run|
  {
    if run != [] {
      var d := Happen(t, run[0]);
      EventKeepsAlive(t, run[0]);
      SilenceCounts(t, run[0]);
      if Alive(d) {
        SilentRunIsShort(d, run[1..]);
      }
    }
  }

  /**
   After any run, a peer that falls silent is declared dead: at most seven timers fire, and as long as
   the peer is not declared dead another one can.
   */
  lemma SilentPeerDies(t: Timed, run: seq<Event>, silence: seq<Event>)
    requires Fresh(t) && IsRun(t, run) && RunFrom(t, run).diedAt == None
    requires IsRun(RunFrom(t, run), silence) && Silent(silence)
    ensures |silence| <= 7
    ensures var d := RunFrom(RunFrom(t, run), silence);
            d.diedAt == None ==> CanHappen(d, PingFires) || CanHappen(d, PongFires)
  {
    RunKeepsAlive(t, run);
    SilentRunIsShort(RunFrom(t, run), silence);
    var d := RunFrom(RunFrom(t, run), silence);
    if d.diedAt == None {
      TimeCanPass(d);
    }
  }

  /** The declaration itself is reached. */
  lemma {:induction false} DeathIsReached(t: Timed) returns (silence: seq<Event>)
    requires Alive(t)
    ensures IsRun(t, silence) && Silent(silence) && Dead(RunFrom(t, silence))
    decreases TimersLeft(t)
  {
    TimeCanPass(t);
    var e := if CanHappen(t, PingFires) then PingFires else PongFires;
    var d := Happen(t, e);
    EventKeepsAlive(t, e);
    SilenceCounts(t, e);
    if Dead(d) {
      silence := [e];
      assert silence[1..] == [];
    } else {
      var rest := DeathIsReached(d);
      silence := [e] + rest;
      assert silence[1..] == rest;
    }
  }
}
