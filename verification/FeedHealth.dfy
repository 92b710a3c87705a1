/** Market-data health as a level: the watchdog that stamps a Redis key, and the poller that reads it. */
module FeedHealth {
  import opened Domain

  // ── Windows ──────────────────────────────────────────────────────

  const MIN_STALENESS := 5.0
  const BAR_INTERVAL := 60.0
  const STALENESS_FLOOR_FACTOR := 2.0

  /** Seconds within which the key is not written again, except for a transition. */
  const HEALTH_REFRESH := 1.0

  /** Seconds of silence a healthy feed may show: five on quotes or trades, two minutes on minute bars alone. */
  ghost function SlowestChannel(quotes: bool, trades: bool): real {
    if quotes || trades then 5.0 else 120.0
  }

  /** `_staleness_floor`: a window the slowest subscribed channel can satisfy. */
  function StalenessFloor(requested: real, quotes: bool, trades: bool): (window: real)
    ensures window >= requested && window >= SlowestChannel(quotes, trades)
    ensures window == requested || window == SlowestChannel(quotes, trades)
  {
    if quotes || trades then Max(requested, MIN_STALENESS)
    else if requested >= BAR_INTERVAL * STALENESS_FLOOR_FACTOR then requested
    else BAR_INTERVAL * STALENESS_FLOOR_FACTOR
  }

  function WatchdogPoll(window: real): real {
    Min(Max(window / 5.0, 0.01), 5.0)
  }

  /** Whole seconds, truncated, and never zero. */
  function TimeToLive(window: real): int
    requires window >= 0.0
  {
    var seconds := (2.0 * window).Floor;
    if seconds < 1 then 1 else seconds
  }

  /** The watchdog looks five times a window, within ten milliseconds and five seconds, and the key lives two
      windows, in whole seconds and at least one. */
  lemma WatchdogPace(window: real)
    requires window >= 0.0
    ensures var poll, ttl := WatchdogPoll(window), TimeToLive(window) as real;
            && 0.01 <= poll <= 5.0 && (0.05 <= window <= 25.0 ==> 5.0 * poll == window)
            && (window > 25.0 ==> poll == 5.0)
            && ttl >= 1.0 && (2.0 * window >= 1.0 ==> ttl <= 2.0 * window < ttl + 1.0)
            && (2.0 * window < 1.0 ==> ttl == 1.0)
  {
  }

  // ── The key ──────────────────────────────────────────────────────

  /** What is stored under the key; the reader believes nothing about who wrote it. */
  datatype Payload = Health(status: string, at: Option<real>, window: Option<real>) | Unparseable

  datatype Key = Key(payload: Payload, expiresAt: real)

  function Get(key: Option<Key>, now: real): Option<Payload> {
    if key.Some? && now < key.value.expiresAt then Some(key.value.payload) else None
  }

  /** `_read_level`: absent, unparseable, not ok, without evidence of freshness, or too old. */
  predicate ReadsStale(raw: Option<Payload>, now: real) {
    || raw.None?
    || raw.value.Unparseable?
    || raw.value.status != "ok"
    || raw.value.at.None? || raw.value.window.None?
    || now - raw.value.at.value > raw.value.window.value
  }

  // ── The feed as a value ──────────────────────────────────────────

  datatype Feed = Feed(
    window: real,
    ttl: int,
    lastMsgAt: real,
    feedStale: bool,
    seenData: bool,
    lastHealthWrite: Option<real>,  // None before the first write that landed
    key: Option<Key>)

  /** `_write_feed_health`: throttled unless forced; only a write that lands moves the throttle. */
  function Written(f: Feed, status: string, force: bool, now: real, lands: bool): Feed {
    if !force && f.lastHealthWrite.Some? && now - f.lastHealthWrite.value < HEALTH_REFRESH then f
    else if !lands then f
    else f.(key := Some(Key(Health(status, Some(now), Some(f.window)), now + f.ttl as real)), lastHealthWrite := Some(now))
  }

  /** Within a second of a write that landed only a forced write is made. A write that is made and lands stamps
      its status and window with the instant; nothing else about the feed changes. */
  lemma WritesAreThrottled(f: Feed, status: string, force: bool, now: real, lands: bool)
    ensures var w := Written(f, status, force, now, lands);
            var throttled := !force && f.lastHealthWrite.Some? && now - f.lastHealthWrite.value < 1.0;
            && w == f.(key := w.key, lastHealthWrite := w.lastHealthWrite)
            && (throttled || !lands ==> w == f)
            && (!throttled && lands ==>
                  && w.lastHealthWrite == Some(now) && w.key.Some? && w.key.value.expiresAt == now + f.ttl as real
                  && w.key.value.payload == Health(status, Some(now), Some(f.window)))
  {
  }

  function MarkedAlive(f: Feed, now: real, lands: bool): Feed {
    Written(f.(lastMsgAt := now, seenData := true, feedStale := false), "ok", f.feedStale, now, lands)
  }

  function Watched(f: Feed, now: real, lands: bool): Feed {
    if now - f.lastMsgAt >= f.window then Written(f.(feedStale := true), "stale", !f.feedStale, now, lands)
    else if f.seenData then Written(f, "ok", false, now, lands)
    else f
  }

  ghost predicate SaysAt(f: Feed, status: string, now: real) {
    f.lastHealthWrite == Some(now) && f.key.Some? && f.key.value.payload == Health(status, Some(now), Some(f.window))
  }

  /** A message always counts as data and clears staleness. It stamps the key if that was a transition or a second
      has passed since the last stamp, and leaves the key alone otherwise. */
  lemma MessagesStampOncePerSecond(f: Feed, now: real, lands: bool)
    ensures var m := MarkedAlive(f, now, lands);
            var due := f.feedStale || f.lastHealthWrite.None? || now - f.lastHealthWrite.value >= 1.0;
            && m.lastMsgAt == now && m.seenData && !m.feedStale && m.window == f.window && m.ttl == f.ttl
            && (lands && due ==> SaysAt(m, "ok", now))
            && (!lands || !due ==> m.key == f.key && m.lastHealthWrite == f.lastHealthWrite)
  {
  }

  /** A look at the feed flags it exactly when a window has passed without a message, stamping the transition at
      once; it never clears the flag, and calls a feed that never had data neither healthy. */
  lemma LooksFlagSilence(f: Feed, now: real, lands: bool)
    ensures var w := Watched(f, now, lands);
            var silent := now - f.lastMsgAt >= f.window;
            var due := f.lastHealthWrite.None? || now - f.lastHealthWrite.value >= 1.0;
            && w.feedStale == (f.feedStale || silent) && w.lastMsgAt == f.lastMsgAt && w.seenData == f.seenData
            && (silent && lands && (!f.feedStale || due) ==> SaysAt(w, "stale", now))
            && (!silent && lands && f.seenData && due ==> SaysAt(w, "ok", now))
            && (!lands || (!silent && !f.seenData) || (!due && (f.feedStale || !silent)) ==>
                  w.key == f.key && w.lastHealthWrite == f.lastHealthWrite)
  {
  }

  // ── Writer and reader objects ────────────────────────────────────

  /** The Redis slot both processes share. */
  class HealthKey {
    var key: Option<Key>

    constructor ()
      ensures key == None
    {
      key := None;
    }

    method SetEx(payload: Payload, ttl: int, now: real, lands: bool) returns (written: bool)
      modifies this
      ensures written == lands
      ensures key == if lands then Some(Key(payload, now + ttl as real)) else old(key)
    {
      if lands {
        key := Some(Key(payload, now + ttl as real));
      }
      written := lands;
    }
  }

  class MarketDataConsumer {
    const redis: HealthKey
    const window: real
    const ttl: int
    var lastMsgAt: real
    var feedStale: bool
    var seenData: bool
    var lastHealthWrite: Option<real>

    ghost function View(): Feed
      reads this, redis
    {
      Feed(window, ttl, lastMsgAt, feedStale, seenData, lastHealthWrite, redis.key)
    }

    /** The clock is seeded at the start, but no health is advertised before a message lands. */
    constructor (redis: HealthKey, requested: real, quotes: bool, trades: bool, now: real)
      ensures this.redis == redis
      ensures View() == Booted(StalenessFloor(requested, quotes, trades), redis.key, now)
    {
      this.redis := redis;
      window := StalenessFloor(requested, quotes, trades);
      ttl := TimeToLive(StalenessFloor(requested, quotes, trades));
      lastMsgAt, feedStale, seenData, lastHealthWrite := now, false, false, None;
    }

    method WriteFeedHealth(status: string, force: bool, now: real, lands: bool)
      modifies this, redis
      ensures View() == Written(old(View()), status, force, now, lands)
    {
      if !force && lastHealthWrite.Some? && now - lastHealthWrite.value < HEALTH_REFRESH {
        return;
      }
      var written := redis.SetEx(Health(status, Some(now), Some(window)), ttl, now, lands);
      if written {
        lastHealthWrite := Some(now);
      }
    }

    method MarkAlive(now: real, lands: bool)
      modifies this, redis
      ensures View() == MarkedAlive(old(View()), now, lands)
    {
      lastMsgAt, seenData := now, true;
      if feedStale {
        feedStale := false;
        WriteFeedHealth("ok", true, now, lands);
      } else {
        WriteFeedHealth("ok", false, now, lands);
      }
    }

    method WatchdogTick(now: real, lands: bool)
      modifies this, redis
      ensures View() == Watched(old(View()), now, lands)
    {
      var stale := now - lastMsgAt >= window;
      if stale {
        var transition := !feedStale;
        if transition {
          feedStale := true;
        }
        WriteFeedHealth("stale", transition, now, lands);
      } else if seenData {
        WriteFeedHealth("ok", false, now, lands);
      }
    }
  }

  class Poller {
    const redis: HealthKey
    var stale: bool

    constructor (redis: HealthKey)
      ensures this.redis == redis && stale
    {
      this.redis := redis;
      stale := true;
    }

    method Poll(now: real, readable: bool)
      modifies this
      ensures stale == PollVerdict(redis.key, now, readable)
      ensures !stale <==>
                && readable && redis.key.Some? && now < redis.key.value.expiresAt
                && redis.key.value.payload.Health? && redis.key.value.payload.status == "ok"
                && redis.key.value.payload.at.Some? && redis.key.value.payload.window.Some?
                && now - redis.key.value.payload.at.value <= redis.key.value.payload.window.value
    {
      stale := !readable || ReadsStale(Get(redis.key, now), now);
    }
  }

  // ── Runs ─────────────────────────────────────────────────────────

  /** A timed event; `ok` says whether Redis served it. A flush may lose the key at any time. */
  datatype Beat =
    | Message(at: real, ok: bool)
    | Tick(at: real, ok: bool)
    | Poll(at: real, ok: bool)
    | Flush(at: real)

  datatype World = World(feed: Feed, stale: bool, polledAt: real, tickedAt: real, clock: real)

  function Booted(window: real, key: Option<Key>, now: real): Feed
    requires window >= 0.0
  {
    Feed(window, TimeToLive(window), now, false, false, None, key)
  }

  predicate PollVerdict(key: Option<Key>, now: real, readable: bool) {
    !readable || ReadsStale(Get(key, now), now)
  }

  function Start(window: real, now: real): World
    requires window >= 0.0
  {
    World(Booted(window, None, now), true, now, now, now)
  }

  function Next(w: World, beat: Beat): World {
    match beat
    case Message(at, ok) => w.(feed := MarkedAlive(w.feed, at, ok), clock := at)
    case Tick(at, ok) => w.(feed := Watched(w.feed, at, ok), tickedAt := at, clock := at)
    case Poll(at, ok) => w.(stale := PollVerdict(w.feed.key, at, ok), polledAt := at, clock := at)
    case Flush(at) => w.(feed := w.feed.(key := None), clock := at)
  }

  function Run(w: World, beats: seq<Beat>): World {
    if beats == [] then w else Next(Run(w, beats[..|beats| - 1]), beats[|beats| - 1])
  }

  ghost predicate Ordered(start: real, beats: seq<Beat>) {
    forall i :: 0 <= i < |beats| ==> start <= beats[i].at && forall j :: i < j < |beats| ==> beats[i].at <= beats[j].at
  }

  // ── "Not stale" means recent data ────────────────────────────────

  /** An "ok" in the key was backed by a message less than a window before it was stamped. */
  ghost predicate OkIsEarned(f: Feed) {
    f.key.Some? ==>
      var p := f.key.value.payload;
      p.Health? && p.at.Some? && p.window == Some(f.window)
      && (p.status == "ok" ==> f.seenData && p.at.value - f.lastMsgAt < f.window)
  }

  ghost predicate Earned(w: World) {
    && w.feed.lastMsgAt <= w.clock && w.feed.window > 0.0
    && OkIsEarned(w.feed)
    && (!w.stale ==> w.feed.seenData && w.polledAt - w.feed.lastMsgAt < 2.0 * w.feed.window)
  }

  lemma BeatKeepsEarned(w: World, beat: Beat)
    requires Earned(w) && w.clock <= beat.at
    ensures Earned(Next(w, beat)) && Next(w, beat).clock == beat.at && Next(w, beat).feed.window == w.feed.window
  {
    assert "ok" != "stale";
  }

  lemma {:induction false} RunKeepsEarned(w: World, beats: seq<Beat>)
    requires Earned(w) && Ordered(w.clock, beats)
    ensures var r := Run(w, beats);
            Earned(r) && r.feed.window == w.feed.window && r.clock == (if beats == [] then w.clock else beats[|beats| - 1].at)
  {
    hide Earned, Next;
    if beats != [] {
      RunKeepsEarned(w, beats[..|beats| - 1]);
      BeatKeepsEarned(Run(w, beats[..|beats| - 1]), beats[|beats| - 1]);
    }
  }

  /** Whatever writes fail and whenever Redis forgets: while the gate is open, and polls come at least
      every `poll` seconds, a real message arrived less than two windows and one poll ago. */
  lemma OpenGateMeansRecentData(window: real, boot: real, beats: seq<Beat>, poll: real, now: real)
    requires window > 0.0 && Ordered(boot, beats)
    requires var w := Run(Start(window, boot), beats); !w.stale && now <= w.polledAt + poll
    ensures var w := Run(Start(window, boot), beats);
            w.feed.seenData && now - w.feed.lastMsgAt < 2.0 * window + poll
  {
    RunKeepsEarned(Start(window, boot), beats);
  }

  /** A lost key reads stale, however fresh the feed was. */
  lemma LostKeyReadsStale(w: World, lost: real, polled: real, ok: bool)
    ensures Run(w, [Flush(lost), Poll(polled, ok)]).stale
  {
    var two := [Flush(lost), Poll(polled, ok)];
    assert two[..1][..0] == [];
    assert Run(w, two[..1]) == Next(w, Flush(lost));
    assert Run(w, two) == Next(Next(w, Flush(lost)), Poll(polled, ok));
  }

  /** And a message time the writer holds is a message's: the boot seed does not count. */
  lemma {:induction false} LastMessageIsReal(w: World, beats: seq<Beat>)
    requires !w.feed.seenData
    ensures var r := Run(w, beats);
            r.feed.seenData ==> exists i :: 0 <= i < |beats| && beats[i].Message? && beats[i].at == r.feed.lastMsgAt
  {
    if beats != [] {
      var before := beats[..|beats| - 1];
      LastMessageIsReal(w, before);
      var r := Run(w, beats);
      if beats[|beats| - 1].Message? {
        assert beats[|beats| - 1].at == r.feed.lastMsgAt;
      } else if r.feed.seenData {
        var i :| 0 <= i < |before| && before[i].Message? && before[i].at == Run(w, before).feed.lastMsgAt;
        assert beats[i].at == r.feed.lastMsgAt;
      }
    }
  }

  // ── A healthy feed is never called stale ─────────────────────────

  /** After the first message, with writes landing: the key is ok, and the watchdog stamped it, or found
      it stamped, less than a throttle before its last tick. */
  ghost predicate Fresh(w: World) {
    && w.feed.seenData && !w.feed.feedStale
    && w.feed.lastHealthWrite.Some?
    && w.feed.key == Some(Key(Health("ok", w.feed.lastHealthWrite, Some(w.feed.window)), w.feed.lastHealthWrite.value + w.feed.ttl as real))
    && w.feed.lastHealthWrite.value <= w.clock
    && w.tickedAt - w.feed.lastHealthWrite.value < HEALTH_REFRESH
  }

  /** Writes land, messages come less than a window apart, and the watchdog ticks on time. */
  ghost predicate Healthy(w: World, beat: Beat) {
    && !beat.Flush? && beat.ok
    && w.clock <= beat.at
    && beat.at - w.feed.lastMsgAt < w.feed.window
    && beat.at <= w.tickedAt + WatchdogPoll(w.feed.window)
  }

  lemma KeyOutlivesTheGap(window: real)
    requires window >= MIN_STALENESS
    ensures WatchdogPoll(window) + HEALTH_REFRESH < window
    ensures WatchdogPoll(window) + HEALTH_REFRESH < TimeToLive(window) as real
  {
  }

  lemma BeatKeepsFresh(w: World, beat: Beat)
    requires Fresh(w) && Healthy(w, beat) && w.feed.window >= MIN_STALENESS && w.feed.ttl == TimeToLive(w.feed.window)
    ensures Fresh(Next(w, beat)) && Next(w, beat).clock == beat.at
    ensures beat.Poll? ==> !Next(w, beat).stale
  {
    KeyOutlivesTheGap(w.feed.window);
  }

  /** The first message earns the key, from any earlier state: forced if the feed was flagged, unthrottled
      if nothing was ever written. */
  lemma FirstMessageEarns(w: World, at: real)
    requires !w.feed.seenData && w.clock <= at && w.tickedAt <= w.clock
    requires w.feed.lastHealthWrite.Some? ==> w.feed.feedStale
    ensures Fresh(Next(w, Message(at, true)))
  {
  }

  ghost predicate HealthyRun(w: World, beats: seq<Beat>) {
    forall i :: 0 <= i < |beats| ==> Healthy(Run(w, beats[..i]), beats[i])
  }

  /** With writes landing, message gaps under the window and the watchdog on time, no poll after the first
      message reads stale: the key is re-stamped within poll plus throttle, which both the window and the
      time to live outlast. */
  lemma {:induction false} HealthyFeedIsNeverStale(w: World, beats: seq<Beat>)
    requires Fresh(w) && HealthyRun(w, beats) && w.feed.window >= MIN_STALENESS && w.feed.ttl == TimeToLive(w.feed.window)
    ensures Fresh(Run(w, beats)) && Run(w, beats).feed.window == w.feed.window && Run(w, beats).feed.ttl == w.feed.ttl
    ensures forall i :: 0 <= i < |beats| && beats[i].Poll? ==> !Run(w, beats[..i + 1]).stale
  {
    hide Fresh, Healthy, TimeToLive;
    if beats != [] {
      var n := |beats| - 1;
      forall i | 0 <= i < n ensures Healthy(Run(w, beats[..n][..i]), beats[..n][i]) {
        assert beats[..n][..i] == beats[..i];
      }
      HealthyFeedIsNeverStale(w, beats[..n]);
      BeatKeepsFresh(Run(w, beats[..n]), beats[n]);
      forall i | 0 <= i < |beats| && beats[i].Poll? ensures !Run(w, beats[..i + 1]).stale {
        if i < n {
          assert beats[..n][..i + 1] == beats[..i + 1];
        } else {
          assert beats[..i + 1] == beats;
        }
      }
    }
  }

  /** Before any message, a write can only have said "stale", so the first message is never throttled. */
  lemma {:induction false} SilenceOnlySaysStale(w: World, beats: seq<Beat>)
    requires !w.feed.seenData && (w.feed.lastHealthWrite.Some? ==> w.feed.feedStale) && w.tickedAt <= w.clock
    requires Ordered(w.clock, beats) && forall i :: 0 <= i < |beats| ==> !beats[i].Message?
    ensures var r := Run(w, beats);
            && !r.feed.seenData && (r.feed.lastHealthWrite.Some? ==> r.feed.feedStale) && r.tickedAt <= r.clock
            && r.clock == (if beats == [] then w.clock else beats[|beats| - 1].at)
            && r.feed.window == w.feed.window && r.feed.ttl == w.feed.ttl
  {
    if beats != [] {
      SilenceOnlySaysStale(w, beats[..|beats| - 1]);
    }
  }

  /** From boot: any silence, a first message, then a healthy run: every later poll opens the gate. */
  lemma HealthyFeedOpensTheGate(requested: real, quotes: bool, trades: bool, boot: real, silence: seq<Beat>, first: real, beats: seq<Beat>)
    requires Ordered(boot, silence) && (forall i :: 0 <= i < |silence| ==> !silence[i].Message? && silence[i].at <= first) && boot <= first
    requires var window := StalenessFloor(requested, quotes, trades);
             HealthyRun(Next(Run(Start(window, boot), silence), Message(first, true)), beats)
    ensures var window := StalenessFloor(requested, quotes, trades);
            var w := Next(Run(Start(window, boot), silence), Message(first, true));
            forall i :: 0 <= i < |beats| && beats[i].Poll? ==> !Run(w, beats[..i + 1]).stale
  {
    hide Fresh, HealthyRun;
    var window := StalenessFloor(requested, quotes, trades);
    var before := Run(Start(window, boot), silence);
    SilenceOnlySaysStale(Start(window, boot), silence);
    FirstMessageEarns(before, first);
    HealthyFeedIsNeverStale(Next(before, Message(first, true)), beats);
  }
}
