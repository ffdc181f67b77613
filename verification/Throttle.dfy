// The push worker's throttle: one state per device, notifications merged for a minute, at most twenty
// sends in a clock hour.
module Throttle {
  import opened Wrappers
  import opened Chat

  type Time = nat  // milliseconds

  const MERGE_WINDOW: nat := 60_000
  const DEVICE_HOURLY: nat := 20
  const HOUR_MS: nat := 3_600_000

  function HourOf(t: Time): nat {
    t / HOUR_MS
  }

  datatype Device = Device(lastSentAt: Option<Time>, badge: nat, hourCount: nat, hour: nat)

  /** What the vendor is asked to show. */
  datatype Sent = Sent(at: Time, badge: nat)

  datatype Step = Step(device: Device, sent: Option<Sent>)

  /** `now` is the clock inside send, `works` whether the vendor takes the push. */
  function Send(d: Device, now: Time, works: bool): Step {
    var e := if HourOf(now) != d.hour then d.(hour := HourOf(now), hourCount := 0) else d;
    if e.hourCount >= DEVICE_HOURLY || !works then Step(e, None)
    else Step(Device(Some(now), 0, e.hourCount + 1, e.hour), Some(Sent(now, e.badge)))
  }

  predicate WindowOver(d: Device, now: Time) {
    d.lastSentAt == None || (now as int - d.lastSentAt.value as int >= MERGE_WINDOW as int)
  }

  /** A notification: `now` is the clock at the decision, `later` the clock inside send. */
  function Ingest(known: Option<Device>, now: Time, later: Time, works: bool): Step {
    var d := if known.Some? then known.value else Device(None, 0, 0, HourOf(now));
    if WindowOver(d, now) then Send(d.(badge := 1), later, works)
    else Step(d.(badge := d.badge + 1), None)
  }

  function Flush(d: Device, now: Time, later: Time, works: bool): Step {
    if d.badge > 1 && WindowOver(d, now) then Send(d, later, works) else Step(d, None)
  }

  // ---------------------------------------------------------------- the worker object

  class Worker {
    var devices: map<Uid, Device>
    var pushed: seq<(Uid, Sent)>  // what the vendor took

    constructor ()
      ensures devices == map[] && pushed == []
    {
      devices, pushed := map[], [];
    }

    method SendTo(uid: Uid, now: Time, works: bool)
      requires uid in devices
      modifies this
      ensures var r := Send(old(devices)[uid], now, works);
        devices == old(devices)[uid := r.device] &&
        pushed == old(pushed) + if r.sent.Some? then [(uid, r.sent.value)] else []
    {
      var st := devices[uid];
      if HourOf(now) != st.hour {
        st := st.(hour := HourOf(now), hourCount := 0);
      }
      devices := devices[uid := st];
      if st.hourCount >= DEVICE_HOURLY {
        return;
      }
      if !works {
        return;
      }
      pushed := pushed + [(uid, Sent(now, st.badge))];
      devices := devices[uid := Device(Some(now), 0, st.hourCount + 1, st.hour)];
    }

    method IngestOne(uid: Uid, now: Time, later: Time, works: bool)
      modifies this
      ensures var r := Ingest(if uid in old(devices) then Some(old(devices)[uid]) else None, now, later, works);
        devices == old(devices)[uid := r.device] &&
        pushed == old(pushed) + if r.sent.Some? then [(uid, r.sent.value)] else []
    {
      if uid !in devices {
        devices := devices[uid := Device(None, 0, 0, HourOf(now))];
      }
      var st := devices[uid];
      if WindowOver(st, now) {
        devices := devices[uid := st.(badge := 1)];
        SendTo(uid, later, works);
        return;
      }
      devices := devices[uid := st.(badge := st.badge + 1)];
    }

    /** One tick over all devices; the clock inside the sends and the vendor's answers per device. The
        vendor takes one push for each device whose send succeeds, and no other. */
    method FlushDue(now: Time, later: map<Uid, Time>, works: set<Uid>)
      requires forall u :: u in devices ==> u in later
      modifies this
      ensures devices.Keys == old(devices).Keys
      ensures forall u :: u in devices ==>
        devices[u] == Flush(old(devices)[u], now, later[u], u in works).device
      ensures old(pushed) <= pushed
      ensures OncePerSend(old(devices), {}, now, later, works, pushed[|old(pushed)|..])
    {
      hide Send, OncePerSend;
      ghost var was := devices;
      ghost var taken: seq<(Uid, Sent)> := [];
      var left := devices.Keys;
      NothingTaken(was, now, later, works);
      while left != {}
        invariant devices.Keys == was.Keys && left <= was.Keys && pushed == old(pushed) + taken
        invariant forall u :: u in left ==> devices[u] == was[u]
        invariant forall u :: u in was && u !in left ==>
          devices[u] == Flush(was[u], now, later[u], u in works).device
        invariant OncePerSend(was, left, now, later, works, taken)
        decreases |left|
      {
        var u :| u in left;
        TakeOne(was, left, now, later, works, taken, u);
        left := left - {u};
        ghost var sent := Flush(was[u], now, later[u], u in works).sent;
        if devices[u].badge > 1 && WindowOver(devices[u], now) {
          SendTo(u, later[u], u in works);
        }
        taken := taken + if sent.Some? then [(u, sent.value)] else [];
      }
    }
  }

  /** The pushes are those of the devices not left, one for each whose send succeeds. */
  ghost predicate OncePerSend(was: map<Uid, Device>, left: set<Uid>, now: Time, later: map<Uid, Time>, works: set<Uid>,
                              taken: seq<(Uid, Sent)>)
    requires forall u :: u in was ==> u in later
  {
    && (forall i :: 0 <= i < |taken| ==>
          taken[i].0 in was && taken[i].0 !in left
          && Flush(was[taken[i].0], now, later[taken[i].0], taken[i].0 in works).sent == Some(taken[i].1))
    && (forall i, j :: 0 <= i < j < |taken| ==> taken[i].0 != taken[j].0)
    && (forall u :: u in was && u !in left && Flush(was[u], now, later[u], u in works).sent.Some? ==>
          exists i :: 0 <= i < |taken| && taken[i].0 == u)
  }

  lemma NothingTaken(was: map<Uid, Device>, now: Time, later: map<Uid, Time>, works: set<Uid>)
    requires forall u :: u in was ==> u in later
    ensures OncePerSend(was, was.Keys, now, later, works, [])
  {
  }

  lemma TakeOne(was: map<Uid, Device>, left: set<Uid>, now: Time, later: map<Uid, Time>, works: set<Uid>,
                taken: seq<(Uid, Sent)>, u: Uid)
    requires forall v :: v in was ==> v in later
    requires OncePerSend(was, left, now, later, works, taken) && u in left && u in was
    ensures var sent := Flush(was[u], now, later[u], u in works).sent;
      OncePerSend(was, left - {u}, now, later, works, taken + if sent.Some? then [(u, sent.value)] else [])
  {
    hide Flush;
    var sent := Flush(was[u], now, later[u], u in works).sent;
    var all := taken + if sent.Some? then [(u, sent.value)] else [];
    forall v | v in was && v !in left - {u} && Flush(was[v], now, later[v], v in works).sent.Some?
      ensures exists i :: 0 <= i < |all| && all[i].0 == v
    {
      if v == u {
        assert all[|taken|].0 == u;
      } else {
        var i :| 0 <= i < |taken| && taken[i].0 == v;
        assert all[i].0 == v;
      }
    }
  }

  // ---------------------------------------------------------------- one device over time

  /** What happens to one device: a notification for it or a tick. */
  datatype Event = Notified(now: Time, later: Time, works: bool) | Tick(now: Time, later: Time, works: bool)

  datatype Life = Life(device: Option<Device>, sends: seq<Sent>, received: nat)

  function Live(l: Life, e: Event): Life {
    match e
    case Notified(now, later, works) =>
      var r := Ingest(l.device, now, later, works);
      Life(Some(r.device), l.sends + (if r.sent.Some? then [r.sent.value] else []), l.received + 1)
    case Tick(now, later, works) =>
      if l.device == None then l
      else
        var r := Flush(l.device.value, now, later, works);
        Life(Some(r.device), l.sends + (if r.sent.Some? then [r.sent.value] else []), l.received)
  }

  function LifeOf(events: seq<Event>): Life {
    if events == [] then Life(None, [], 0) else Live(LifeOf(events[..|events| - 1]), events[|events| - 1])
  }

  /** The clock never goes back, within an event or between two. */
  predicate Steady(events: seq<Event>) {
    && (forall i :: 0 <= i < |events| ==> events[i].now <= events[i].later)
    && (forall i, j :: 0 <= i < j < |events| ==> events[i].later <= events[j].now)
  }

  function InHour(sends: seq<Sent>, hour: nat): nat {
    if sends == [] then 0
    else InHour(sends[..|sends| - 1], hour) + if HourOf(sends[|sends| - 1].at) == hour then 1 else 0
  }

  function Badges(sends: seq<Sent>): nat {
    if sends == [] then 0 else Badges(sends[..|sends| - 1]) + sends[|sends| - 1].badge
  }

  /** Sends keep their distance and their hourly limit, and announce no more than was received. */
  ghost predicate Throttled(l: Life, now: Time) {
    && (forall i, j :: 0 <= i < j < |l.sends| ==> l.sends[i].at + MERGE_WINDOW <= l.sends[j].at)
    && (forall i :: 0 <= i < |l.sends| ==> l.sends[i].at <= now)
    && (forall h :: InHour(l.sends, h) <= DEVICE_HOURLY)
    && (l.device == None ==> l.sends == [])
    && (l.device.Some? ==>
          var d := l.device.value;
          && (d.lastSentAt == if l.sends == [] then None else Some(l.sends[|l.sends| - 1].at))
          && d.hour <= HourOf(now)
          && d.hourCount == InHour(l.sends, d.hour)
          && (forall h :: h > d.hour ==> InHour(l.sends, h) == 0))
    && Badges(l.sends) + (if l.device.Some? then l.device.value.badge else 0) <= l.received
  }

  lemma HourMonotone(a: Time, b: Time)
    requires a <= b
    ensures HourOf(a) <= HourOf(b)
  {
  }

  lemma {:induction false} SendSnoc(sends: seq<Sent>, s: Sent)
    ensures forall h :: InHour(sends + [s], h) == InHour(sends, h) + if HourOf(s.at) == h then 1 else 0
    ensures Badges(sends + [s]) == Badges(sends) + s.badge
  {
    assert (sends + [s])[..|sends|] == sends;
  }

  /** A send keeps the life throttled, provided the window is over. */
  lemma SendThrottled(l: Life, d: Device, received: nat, before: Time, now: Time, works: bool)
    requires Throttled(l, before) && before <= now
    requires d.lastSentAt == if l.sends == [] then None else Some(l.sends[|l.sends| - 1].at)
    requires d.hour <= HourOf(now) && d.hourCount == InHour(l.sends, d.hour)
    requires forall h :: h > d.hour ==> InHour(l.sends, h) == 0
    requires l.sends != [] ==> l.sends[|l.sends| - 1].at + MERGE_WINDOW <= now
    requires Badges(l.sends) + d.badge <= received
    ensures var r := Send(d, now, works);
      Throttled(Life(Some(r.device), l.sends + (if r.sent.Some? then [r.sent.value] else []), received), now)
  {
    hide InHour, Badges, HourOf;
    var r := Send(d, now, works);
    if r.sent.Some? {
      SendSnoc(l.sends, r.sent.value);
    } else {
      assert l.sends + [] == l.sends;
    }
  }

  /** So does letting time pass while only the badge grows. */
  lemma WaitThrottled(l: Life, badge: nat, received: nat, before: Time, now: Time)
    requires Throttled(l, before) && before <= now && HourOf(before) <= HourOf(now)
    requires l.device.Some? && Badges(l.sends) + badge <= received
    ensures Throttled(Life(Some(l.device.value.(badge := badge)), l.sends, received), now)
  {
    hide InHour, Badges, HourOf;
  }

  function DeviceAt(known: Option<Device>, now: Time): Device {
    if known.Some? then known.value else Device(None, 0, 0, HourOf(now))
  }

  lemma NotifiedInTime(l: Life, before: Time, now: Time, later: Time, works: bool)
    requires Throttled(l, before) && before <= now <= later && WindowOver(DeviceAt(l.device, now), now)
    ensures var r := Send(DeviceAt(l.device, now).(badge := 1), later, works);
      Throttled(Life(Some(r.device), l.sends + (if r.sent.Some? then [r.sent.value] else []), l.received + 1), later)
  {
    HourMonotone(before, now);
    HourMonotone(now, later);
    EmptyLife();
    hide InHour, Badges, HourOf, Send;
    SendThrottled(l, DeviceAt(l.device, now).(badge := 1), l.received + 1, before, later, works);
  }

  lemma NotifiedTooSoon(l: Life, before: Time, now: Time, later: Time)
    requires Throttled(l, before) && before <= now <= later && !WindowOver(DeviceAt(l.device, now), now)
    ensures var d := DeviceAt(l.device, now);
      Throttled(Life(Some(d.(badge := d.badge + 1)), l.sends, l.received + 1), later)
  {
    HourMonotone(before, later);
    hide InHour, Badges, HourOf;
    WaitThrottled(l, l.device.value.badge + 1, l.received + 1, before, later);
  }

  lemma NotifiedThrottled(l: Life, before: Time, now: Time, later: Time, works: bool)
    requires Throttled(l, before) && before <= now <= later
    ensures Throttled(Live(l, Notified(now, later, works)), later)
  {
    hide Throttled, Send, WindowOver, HourOf;
    assert l.sends + [] == l.sends;
    if WindowOver(DeviceAt(l.device, now), now) {
      NotifiedInTime(l, before, now, later, works);
    } else {
      NotifiedTooSoon(l, before, now, later);
    }
  }

  lemma TickThrottled(l: Life, before: Time, now: Time, later: Time, works: bool)
    requires Throttled(l, before) && before <= now <= later
    ensures Throttled(Live(l, Tick(now, later, works)), later)
  {
    HourMonotone(before, now);
    HourMonotone(now, later);
    hide InHour, Badges, HourOf, Send;
    if l.device.Some? {
      if l.device.value.badge > 1 && WindowOver(l.device.value, now) {
        SendThrottled(l, l.device.value, l.received, before, later, works);
      } else {
        WaitThrottled(l, l.device.value.badge, l.received, before, later);
        assert l.sends + [] == l.sends;
      }
    }
  }

  lemma EventThrottled(l: Life, before: Time, e: Event)
    requires Throttled(l, before) && before <= e.now <= e.later
    ensures Throttled(Live(l, e), e.later)
  {
    hide Throttled, Live;
    match e
    case Notified(now, later, works) => NotifiedThrottled(l, before, now, later, works);
    case Tick(now, later, works) => TickThrottled(l, before, now, later, works);
  }

  lemma EmptyLife()
    ensures forall h :: InHour([], h) == 0
    ensures Badges([]) == 0
  {
  }

  lemma {:induction false} LifeIsThrottled(events: seq<Event>)
    requires Steady(events)
    ensures Throttled(LifeOf(events), if events == [] then 0 else events[|events| - 1].later)
  {
    hide Throttled, Live;
    if events == [] {
      NewLife();
    } else {
      var k := |events| - 1;
      LifeIsThrottled(events[..k]);
      EventThrottled(LifeOf(events[..k]), if k == 0 then 0 else events[k - 1].later, events[k]);
    }
  }

  lemma NewLife()
    ensures Throttled(LifeOf([]), 0)
  {
  }

  /** Over every sequence of notifications and ticks with a clock that never goes back: two successful
      sends to a device are at least a minute apart, at most twenty fall into any clock hour, and the
      badges shown never total more than the notifications received. */
  lemma {:induction false} SendsAreThrottled(events: seq<Event>)
    requires Steady(events)
    ensures var l := LifeOf(events);
      && (forall i, j :: 0 <= i < j < |l.sends| ==> l.sends[j].at - l.sends[i].at >= 60_000)
      && (forall h :: InHour(l.sends, h) <= 20)
      && Badges(l.sends) <= l.received
  {
    LifeIsThrottled(events);
  }

  // ---------------------------------------------------------------- when a device is sent to

  /** The last send is a minute ago, or there has been none. */
  predicate Due(d: Device, now: Time) {
    d.lastSentAt == None || d.lastSentAt.value + 60_000 <= now
  }

  /** Fewer than twenty sends have been counted in the clock hour of the send. */
  predicate Quota(d: Device, later: Time) {
    d.hour != later / 3_600_000 || d.hourCount < 20
  }

  predicate SameWindow(a: Device, b: Device) {
    b.badge == a.badge && b.lastSentAt == a.lastSentAt
  }

  /** What a successful send leaves. */
  predicate Reset(a: Device, b: Device, later: Time) {
    && b.badge == 0 && b.lastSentAt == Some(later) && b.hour == later / 3_600_000
    && b.hourCount == (if a.hour == later / 3_600_000 then a.hourCount else 0) + 1
  }

  /** A tick announces what has waited exactly if that is more than one notification, the window is over,
      the quota of the hour is not used up and the vendor takes it; it shows the whole badge. Otherwise
      it leaves badge and window alone. */
  lemma TickSends(d: Device, now: Time, later: Time, works: bool)
    ensures var r := Flush(d, now, later, works);
      && (r.sent.Some? <==> d.badge > 1 && Due(d, now) && Quota(d, later) && works)
      && (r.sent.Some? ==> r.sent.value == Sent(later, d.badge) && Reset(d, r.device, later))
      && (r.sent.None? ==> SameWindow(d, r.device))
      && (r.sent.None? ==> r.device.hour == if d.badge > 1 && Due(d, now) then later / 3_600_000 else d.hour)
  {
  }

  /** A notification is announced at once, with a badge of one, exactly if the window is over, the quota
      is not used up and the vendor takes it. Within the window it adds to the badge; after it, when
      nothing can be sent, it is the only one that waits. */
  lemma NotificationSends(known: Option<Device>, now: Time, later: Time, works: bool)
    ensures var r, d := Ingest(known, now, later, works), DeviceAt(known, now);
      && (r.sent.Some? <==> Due(d, now) && Quota(d, later) && works)
      && (r.sent.Some? ==> r.sent.value == Sent(later, 1) && Reset(d, r.device, later))
      && (r.sent.None? ==> r.device.lastSentAt == d.lastSentAt)
      && (r.sent.None? ==> r.device.badge == if Due(d, now) then 1 else d.badge + 1)
      && (known == None ==> d == Device(None, 0, 0, now / 3_600_000))
  {
  }

  // ---------------------------------------------------------------- what is never announced

  /** The badge that a notification overwrites: what the device had waiting when the window is over. */
  function Overwrites(known: Option<Device>, e: Event): nat {
    if e.Notified? && known.Some? && WindowOver(known.value, e.now) then known.value.badge else 0
  }

  function Overwritten(events: seq<Event>): nat {
    if events == [] then 0
    else Overwritten(events[..|events| - 1]) + Overwrites(LifeOf(events[..|events| - 1]).device, events[|events| - 1])
  }

  function Waiting(l: Life): nat {
    if l.device == None then 0 else l.device.value.badge
  }

  lemma LiveCounts(l: Life, e: Event)
    ensures var m := Live(l, e);
      Badges(m.sends) + Waiting(m) + Overwrites(l.device, e) + l.received == Badges(l.sends) + Waiting(l) + m.received
  {
    hide HourOf, Badges;
    assert l.sends + [] == l.sends;
    forall s {
      SendSnoc(l.sends, s);
    }
  }

  lemma {:induction false} NothingElseIsLost(events: seq<Event>)
    ensures var l := LifeOf(events); Badges(l.sends) + Waiting(l) + Overwritten(events) == l.received
  {
    hide Live, Overwrites, Waiting;
    if events == [] {
      EmptyLife();
      assert Waiting(LifeOf([])) == 0 by { NobodyWaits(); }
    } else {
      NothingElseIsLost(events[..|events| - 1]);
      LiveCounts(LifeOf(events[..|events| - 1]), events[|events| - 1]);
    }
  }

  lemma NobodyWaits()
    ensures Waiting(LifeOf([])) == 0
  {
  }

  /** No notification finds the window over while others wait unannounced. */
  predicate NeverOverwrites(events: seq<Event>) {
    forall i :: 0 <= i < |events| ==> Overwrites(LifeOf(events[..i]).device, events[i]) == 0
  }

  lemma {:induction false} OverwrittenMeans(events: seq<Event>)
    ensures Overwritten(events) == 0 <==> NeverOverwrites(events)
  {
    hide Overwrites, LifeOf;
    if events != [] {
      var k := |events| - 1;
      OverwrittenMeans(events[..k]);
      assert forall i :: 0 <= i < k ==> events[..k][i] == events[i] && events[..k][..i] == events[..i];
    }
  }

  /** Exactly what goes unannounced, over any notifications, ticks, outages and clocks: every notification
      received has been shown in a badge, is still waiting, or was overwritten; and none is lost if and
      only if no notification ever finds the window over while earlier ones wait. */
  lemma {:induction false} UnannouncedExactly(events: seq<Event>)
    ensures var l := LifeOf(events);
      && Badges(l.sends) + Waiting(l) + Overwritten(events) == l.received
      && (Badges(l.sends) + Waiting(l) == l.received <==> NeverOverwrites(events))
  {
    NothingElseIsLost(events);
    OverwrittenMeans(events);
  }

  /** The badges can total less: a notification that waits alone in its window is not announced by any
      tick, and the next one after the window starts counting anew. */
  lemma LoneNotificationIsLost(a: Time, b: Time, c: Time, d: Time)
    requires a <= b <= c <= d && b < a + MERGE_WINDOW && a + MERGE_WINDOW <= c && HourOf(a) == HourOf(d)
    ensures LifeOf([Notified(a, a, true), Notified(b, b, true), Tick(c, c, true), Notified(d, d, true)]).sends ==
      [Sent(a, 1), Sent(d, 1)]
  {
    var es := [Notified(a, a, true), Notified(b, b, true), Tick(c, c, true), Notified(d, d, true)];
    assert es[..3] == [es[0], es[1], es[2]] && es[..3][..2] == [es[0], es[1]] && es[..3][..2][..1] == [es[0]];
    assert LifeOf(es[..3][..2][..1]) == Live(LifeOf([]), es[0]);
    assert LifeOf(es[..3][..2]) == Live(LifeOf([es[0]]), es[1]);
    assert LifeOf(es[..3]) == Live(LifeOf([es[0], es[1]]), es[2]);
    HourMonotone(a, b);
    HourMonotone(b, d);
  }
}
