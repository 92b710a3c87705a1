/** The flatten controller's clock: which standing rule a wake evaluates and how long it then sleeps. */
module CloseWindow {
  import opened Domain

  // ── Sleeping toward a deadline ───────────────────────────────────

  const TICK_IN_WINDOW := 30.0
  const TICK_NEAR := 120.0
  const TICK_FAR := 900.0
  const NEAR_THRESHOLD := 1800.0

  /** The least configurable distance between the mandatory flatten and the close. */
  const MIN_BUFFER := 120.0

  function SleepToward(now: real, target: real): real {
    var remaining := target - now;
    if remaining <= 0.0 then TICK_IN_WINDOW
    else if remaining > NEAR_THRESHOLD then Min(TICK_FAR, remaining / 2.0)
    else Min(TICK_NEAR, Max(remaining / 2.0, 1.0))
  }

  /** Sleeps are at least a second, and one never carries a wake a second past its target. */
  lemma SleepIsSafe(now: real, target: real)
    ensures SleepToward(now, target) >= 1.0
    ensures now < target ==> now + SleepToward(now, target) < target + 1.0
    ensures now < target ==> SleepToward(now, target) <= TICK_FAR
  {
  }

  /** A sleep goes half the way to its target unless that is cut to fifteen minutes, in the last half hour to
      two minutes, or rounded up to the last second; behind the target it is half a minute. */
  lemma SleepHalvesTheWay(now: real, target: real)
    ensures var sleep, way := SleepToward(now, target), target - now;
            && (way <= 0.0 ==> sleep == 30.0)
            && (way > 0.0 && sleep > way / 2.0 ==> sleep == 1.0)
            && (way > 0.0 && sleep < way / 2.0 ==> sleep == if way > 1800.0 then 900.0 else 120.0)
            && (way > 1800.0 ==> sleep <= 900.0) && (0.0 < way <= 1800.0 ==> sleep <= 120.0)
  {
  }

  // ── One tick ─────────────────────────────────────────────────────

  /** The broker's clock as one tick read it. */
  datatype Clock = Clock(now: real, isOpen: bool, nextOpen: real, nextClose: Option<real>)

  datatype Session = Session(open: real, close: real)

  datatype Rule =
    | KillFlatten      // the durable flatten is being driven
    | NoSession
    | PreOpen
    | NextOpenFlatten  // leftovers of an earlier session are being driven
    | Waiting
    | CloseFlatten     // the mandatory close-window drive
    | PostClose
    | TickFailed

  /** What the drives of one tick answered, or that the tick raised. */
  datatype Drives = Drives(killDrove: bool, nextOpenDrove: bool, failed: bool)

  /** The live clock wins when it closes earlier than the cached calendar. */
  function CloseOf(session: Session, clock: Clock): real {
    if clock.isOpen && clock.nextClose.Some? then Min(session.close, clock.nextClose.value) else session.close
  }

  function RuleOf(clock: Clock, session: Option<Session>, buffer: real, drives: Drives): Rule {
    if drives.failed then TickFailed
    else if drives.killDrove then KillFlatten
    else if session.None? then NoSession
    else
      var close := CloseOf(session.value, clock);
      if clock.now < session.value.open then PreOpen
      else if clock.now < close - buffer then if drives.nextOpenDrove then NextOpenFlatten else Waiting
      else if clock.now < close && clock.isOpen then CloseFlatten
      else PostClose
  }

  function SleepAfter(clock: Clock, session: Option<Session>, buffer: real, drives: Drives): real {
    match RuleOf(clock, session, buffer, drives)
    case PreOpen => SleepToward(clock.now, session.value.open)
    case Waiting => SleepToward(clock.now, CloseOf(session.value, clock) - buffer)
    case NoSession => SleepToward(clock.now, clock.nextOpen)
    case PostClose => SleepToward(clock.now, clock.nextOpen)
    case _ => TICK_IN_WINDOW
  }

  /** The close that counts is the calendar's, or the live clock's while the market is open, whichever is
      earlier. */
  lemma EarlierCloseCounts(session: Session, clock: Clock)
    ensures var close := CloseOf(session, clock);
            && close <= session.close && (clock.isOpen && clock.nextClose.Some? ==> close <= clock.nextClose.value)
            && (close != session.close ==> clock.isOpen && clock.nextClose == Some(close))
  {
  }

  /** Which rule a wake evaluates, by what it is for. A tick that did not raise and does not drive a kill:
      is before the open, in the day, in the window before the close, or behind it. */
  lemma RulesByTheClock(clock: Clock, session: Session, buffer: real, drives: Drives)
    ensures var rule, close := RuleOf(clock, Some(session), buffer, drives), CloseOf(session, clock);
            && (rule == TickFailed <==> drives.failed)
            && (rule == KillFlatten <==> !drives.failed && drives.killDrove)
            && (!drives.failed && !drives.killDrove ==>
                  && (rule == PreOpen <==> clock.now < session.open)
                  && (rule in {NextOpenFlatten, Waiting} <==> session.open <= clock.now < close - buffer)
                  && (rule in {CloseFlatten, PostClose} <==> session.open <= clock.now && close - buffer <= clock.now)
                  && (rule == NextOpenFlatten ==> drives.nextOpenDrove) && (rule == Waiting ==> !drives.nextOpenDrove)
                  && (rule == CloseFlatten ==> clock.now < close && clock.isOpen)
                  && (rule == PostClose ==> clock.now >= close || !clock.isOpen))
    ensures RuleOf(clock, None, buffer, drives) in {TickFailed, KillFlatten, NoSession}
    ensures RuleOf(clock, None, buffer, drives) == NoSession <==> !drives.failed && !drives.killDrove
  {
  }

  /** The instant a wake that drives nothing waits for: the open, the flatten instant, or the next open. */
  function WaitsFor(clock: Clock, session: Option<Session>, buffer: real): real {
    if session.None? then clock.nextOpen
    else if clock.now < session.value.open then session.value.open
    else if clock.now < CloseOf(session.value, clock) - buffer then CloseOf(session.value, clock) - buffer
    else clock.nextOpen
  }

  /** While anything is driven, or a tick raised, wakes are half a minute apart; otherwise a wake sleeps toward
      the instant it waits for and is not carried a second past it. */
  lemma IdleWakesMeetTheirInstant(clock: Clock, session: Option<Session>, buffer: real, drives: Drives)
    ensures var rule, sleep := RuleOf(clock, session, buffer, drives), SleepAfter(clock, session, buffer, drives);
            var instant := WaitsFor(clock, session, buffer);
            && (rule in {KillFlatten, NextOpenFlatten, CloseFlatten, TickFailed} ==> sleep == 30.0)
            && (rule in {NoSession, PreOpen, Waiting, PostClose} ==>
                  && sleep == SleepToward(clock.now, instant)
                  && (clock.now < instant ==> clock.now + sleep < instant + 1.0))
  {
    SleepIsSafe(clock.now, WaitsFor(clock, session, buffer));
    SleepHalvesTheWay(clock.now, clock.now);
    hide SleepToward;
  }

  /** Before the flatten instant, no tick asks for a sleep of less than a second or one that ends more
      than half a minute after it. */
  lemma TickNeverPassesTheWindow(clock: Clock, session: Session, buffer: real, drives: Drives, flattenAt: real)
    requires clock.now < flattenAt && session.open <= flattenAt
    requires session.open <= clock.now ==> CloseOf(session, clock) - buffer == flattenAt
    ensures var sleep := SleepAfter(clock, Some(session), buffer, drives);
            1.0 <= sleep && clock.now + sleep < flattenAt + TICK_IN_WINDOW
  {
    SleepIsSafe(clock.now, session.open);
    SleepIsSafe(clock.now, flattenAt);
  }

  // ── Runs of wakes ────────────────────────────────────────────────

  /** What happens around one tick: how long its own I/O takes, what the drives answer, and whether a poke
      cuts the sleep short, after how long. */
  datatype Moment = Moment(latency: real, drives: Drives, poke: Option<real>)

  /** When the controller next wakes. */
  function NextWake(now: real, sleep: real, m: Moment): real {
    now + m.latency + (if m.poke.Some? then Min(m.poke.value, sleep) else sleep)
  }

  /** A poke only brings the next wake forward, and no wake comes before the tick's own latency. */
  lemma PokesBringForward(now: real, sleep: real, m: Moment)
    ensures m.poke.None? ==> NextWake(now, sleep, m) == now + m.latency + sleep
    ensures m.poke.Some? && m.poke.value <= sleep ==> NextWake(now, sleep, m) == now + m.latency + m.poke.value
    ensures NextWake(now, sleep, m) <= now + m.latency + sleep
  {
  }

  /** One trading day: the cached session, the close that holds, and the moments of the controller's ticks. */
  datatype Day = Day(session: Session, close: real, buffer: real, isOpen: real -> bool, world: nat -> Moment) {
    function FlattenAt(): real {
      close - buffer
    }
  }

  /** The buffer's floor, a calendar that does not change, a market open through the session, bounded tick
      latency, and pokes that stop. */
  ghost predicate Regular(d: Day, lastPoke: nat, maxLatency: real) {
    && d.buffer >= MIN_BUFFER && d.session.open <= d.FlattenAt() && d.close <= d.session.close
    && 0.0 <= maxLatency <= MIN_BUFFER - TICK_IN_WINDOW
    && (forall t: real :: d.session.open <= t < d.close ==> d.isOpen(t))
    && (forall k: nat :: 0.0 <= d.world(k).latency <= maxLatency && (d.world(k).poke.Some? ==> d.world(k).poke.value >= 0.0))
    && (forall k: nat :: k >= lastPoke ==> d.world(k).poke.None?)
  }

  function ClockAt(d: Day, now: real): Clock {
    Clock(now, d.isOpen(now), now, if d.isOpen(now) then Some(d.close) else None)
  }

  function SleepAt(d: Day, now: real, tick: nat): real {
    SleepAfter(ClockAt(d, now), Some(d.session), d.buffer, d.world(tick).drives)
  }

  function WakeAt(d: Day, start: real, n: nat): real {
    if n == 0 then start
    else NextWake(WakeAt(d, start, n - 1), SleepAt(d, WakeAt(d, start, n - 1), n - 1), d.world(n - 1))
  }

  /** The rule the `n`-th wake evaluates. */
  function RuleAt(d: Day, start: real, n: nat): Rule {
    RuleOf(ClockAt(d, WakeAt(d, start, n)), Some(d.session), d.buffer, d.world(n).drives)
  }

  /** One step of the loop, before the window and inside it. */
  lemma WakeSteps(d: Day, now: real, tick: nat, lastPoke: nat, maxLatency: real)
    requires Regular(d, lastPoke, maxLatency) && now < d.close
    ensures var next := NextWake(now, SleepAt(d, now, tick), d.world(tick));
            && now <= next
            && (tick >= lastPoke ==> now + 1.0 <= next)
            && (now < d.FlattenAt() ==> next < d.FlattenAt() + TICK_IN_WINDOW + maxLatency)
            && (d.FlattenAt() <= now ==> next <= now + TICK_IN_WINDOW + maxLatency)
  {
    if now < d.FlattenAt() {
      TickNeverPassesTheWindow(ClockAt(d, now), d.session, d.buffer, d.world(tick).drives, d.FlattenAt());
    }
  }

  /** The controller's loop from any instant of the session's day before the flatten instant: it ends,
      inside the window and before the close, and takes at most a tick a second besides the poked ones. */
  method SleepUntilWindow(d: Day, start: real, lastPoke: nat, maxLatency: real) returns (woke: real, ticks: nat)
    requires Regular(d, lastPoke, maxLatency) && start < d.FlattenAt()
    ensures woke == WakeAt(d, start, ticks)
    ensures d.FlattenAt() <= woke < d.FlattenAt() + TICK_IN_WINDOW + maxLatency <= d.close
    ensures (ticks - lastPoke - 1) as real < d.FlattenAt() - start
  {
    woke, ticks := start, 0;
    while woke < d.FlattenAt()
      invariant woke == WakeAt(d, start, ticks)
      invariant start <= woke < d.FlattenAt() + TICK_IN_WINDOW + maxLatency
      invariant ticks > lastPoke ==> woke >= start + (ticks - lastPoke) as real
      invariant ticks > lastPoke ==> start + (ticks - lastPoke - 1) as real < d.FlattenAt()
      decreases if ticks < lastPoke then lastPoke - ticks else 0, d.FlattenAt() - woke
    {
      var moment := d.world(ticks);
      var sleep := SleepAfter(ClockAt(d, woke), Some(d.session), d.buffer, moment.drives);
      WakeSteps(d, woke, ticks, lastPoke, maxLatency);
      woke := NextWake(woke, sleep, moment);
      ticks := ticks + 1;
    }
  }

  /** The first wake at or after an instant of the window comes within half a minute plus latency of it. */
  lemma FirstWakeFrom(d: Day, start: real, t: real, lastPoke: nat, maxLatency: real) returns (n: nat)
    requires Regular(d, lastPoke, maxLatency) && start < d.FlattenAt() <= t < d.close
    ensures t <= WakeAt(d, start, n) < t + TICK_IN_WINDOW + maxLatency
  {
    n := 0;
    while WakeAt(d, start, n) < t
      invariant WakeAt(d, start, n) < t + TICK_IN_WINDOW + maxLatency
      decreases if n < lastPoke then lastPoke - n else 0, t - WakeAt(d, start, n)
    {
      WakeSteps(d, WakeAt(d, start, n), n, lastPoke, maxLatency);
      n := n + 1;
    }
  }

  /** The close window is driven throughout: whatever happened before, every stretch of it as long as half a
      minute plus latency holds a wake, and that wake publishes the mandatory flatten unless the kill switch
      is already driving one or the tick raised. So two drives are never further apart, and a tick that
      raised is followed by another just as soon. */
  lemma WindowIsDrivenThroughout(d: Day, start: real, t: real, lastPoke: nat, maxLatency: real) returns (n: nat)
    requires Regular(d, lastPoke, maxLatency) && start < d.FlattenAt() <= t
    requires t + TICK_IN_WINDOW + maxLatency <= d.close
    ensures t <= WakeAt(d, start, n) < t + TICK_IN_WINDOW + maxLatency
    ensures RuleAt(d, start, n) == if d.world(n).drives.failed then TickFailed
                                   else if d.world(n).drives.killDrove then KillFlatten
                                   else CloseFlatten
    ensures WakeAt(d, start, n + 1) <= WakeAt(d, start, n) + TICK_IN_WINDOW + maxLatency
  {
    n := FirstWakeFrom(d, start, t, lastPoke, maxLatency);
    WakeSteps(d, WakeAt(d, start, n), n, lastPoke, maxLatency);
    assert d.isOpen(WakeAt(d, start, n));
  }
}
