/** The product-event table (`generate_events`): for each customer in turn, the
    drawn number of events, each stamped at a whole-second offset inside the
    trailing window and labelled from three fixed lists. */
module EventGenerator {
  import opened Common
  import opened CustomerGenerator

  const EventNames: seq<string> := ["login", "open_file", "create_file", "invite_member", "export", "comment"]
  const Pages: seq<string> := ["dashboard", "editor", "files", "billing", "team"]
  const Devices: seq<string> := ["web", "desktop", "mobile"]

  type NameIndex = i: nat | i < 6
  type PageIndex = i: nat | i < 5
  type DeviceIndex = i: nat | i < 3

  /** The random draws behind one event: the offset in seconds from the window
      start, the positions picked in the three lists and the id token. */
  datatype EventDraw = EventDraw(offsetSeconds: nat, name: NameIndex, page: PageIndex, device: DeviceIndex, token: IdToken)

  datatype Event = Event(
    eventId: string,
    customerId: string,
    eventTs: int,
    eventName: string,
    page: string,
    device: string)

  /** `randint(0, days * 24 * 3600)` excludes its upper bound. */
  predicate OffsetInWindow(d: EventDraw, days: nat) {
    d.offsetSeconds < days * SecondsPerDay
  }

  function EventRow(c: Customer, start: int, d: EventDraw): (ev: Event)
    ensures ev.customerId == c.customerId
    ensures ev.eventName in EventNames && ev.page in Pages && ev.device in Devices
  {
    Event(
      RandId("evt", d.token),
      c.customerId,
      start + d.offsetSeconds * MicrosPerSecond,
      EventNames[d.name],
      Pages[d.page],
      Devices[d.device])
  }

  /** The `count(i)` events of customer `i`, in draw order. */
  function CustomerEvents(c: Customer, i: nat, start: int, count: nat -> nat, draw: (nat, nat) -> EventDraw): (evs: seq<Event>)
    ensures |evs| == count(i)
  {
    seq(count(i), e requires 0 <= e < count(i) => EventRow(c, start, draw(i, e)))
  }

  /** Events of the first `n` customers, grouped in customer order. */
  function EventsTable(cs: seq<Customer>, start: int, count: nat -> nat, draw: (nat, nat) -> EventDraw, n: nat): seq<Event>
    requires n <= |cs|
  {
    if n == 0 then []
    else EventsTable(cs, start, count, draw, n - 1) + CustomerEvents(cs[n - 1], n - 1, start, count, draw)
  }

  /** The table `generate_events(customers, days)` returns at clock `now`. */
  function Events(cs: seq<Customer>, days: nat, now: int, count: nat -> nat, draw: (nat, nat) -> EventDraw): seq<Event> {
    EventsTable(cs, now - days * MicrosPerDay, count, draw, |cs|)
  }

  /** Number of events of the first `n` customers. */
  function TotalCount(count: nat -> nat, n: nat): nat {
    if n == 0 then 0 else TotalCount(count, n - 1) + count(n - 1)
  }

  /** `generate_events`: one pass over the customers, appending each one's
      events as they are drawn. */
  method GenerateEvents(customers: seq<Customer>, days: nat, now: int, count: nat -> nat, draw: (nat, nat) -> EventDraw)
    returns (rows: seq<Event>)
    requires forall i, e :: 0 <= i < |customers| && 0 <= e < count(i) ==> OffsetInWindow(draw(i, e), days)
    ensures rows == Events(customers, days, now, count, draw)
  {
    var eventNames := EventNames;
    var pages := Pages;
    var devices := Devices;
    rows := [];
    var start := now - days * MicrosPerDay;
    for i := 0 to |customers|
      invariant rows == EventsTable(customers, start, count, draw, i)
    {
      var c := customers[i];
      var nEvents := count(i);
      ghost var before := rows;
      ghost var drawn := CustomerEvents(c, i, start, count, draw);
      for e := 0 to nEvents
        invariant rows == before + drawn[..e]
      {
        var d := draw(i, e);
        var ts := start + d.offsetSeconds * MicrosPerSecond;
        var row := Event(RandId("evt", d.token), c.customerId, ts, eventNames[d.name], pages[d.page], devices[d.device]);
        assert drawn[..e + 1] == drawn[..e] + [row];
        rows := rows + [row];
      }
      assert drawn[..nEvents] == drawn;
    }
  }

  /** Every event lies in `[now - days, now)` and takes its name, page and
      device from the fixed lists. */
  lemma {:induction false} EventsInWindow(cs: seq<Customer>, days: nat, now: int, count: nat -> nat, draw: (nat, nat) -> EventDraw, n: nat)
    requires n <= |cs|
    requires forall i, e :: 0 <= i < |cs| && 0 <= e < count(i) ==> OffsetInWindow(draw(i, e), days)
    ensures forall ev :: ev in EventsTable(cs, now - days * MicrosPerDay, count, draw, n) ==>
      now - days * MicrosPerDay <= ev.eventTs < now &&
      ev.eventName in EventNames && ev.page in Pages && ev.device in Devices
  {
    if n > 0 {
      EventsInWindow(cs, days, now, count, draw, n - 1);
      var start := now - days * MicrosPerDay;
      var evs := CustomerEvents(cs[n - 1], n - 1, start, count, draw);
      forall e | 0 <= e < |evs|
        ensures start <= evs[e].eventTs < now
      {
        assert OffsetInWindow(draw(n - 1, e), days);
        assert (draw(n - 1, e).offsetSeconds + 1) * MicrosPerSecond <= days * MicrosPerDay;
      }
    }
  }

  /** Position in the table of customer `i`'s `e`-th event. */
  function Position(count: nat -> nat, i: nat, e: nat): nat {
    TotalCount(count, i) + e
  }

  /** Customer `i`'s events occupy the `count(i)` positions starting at the
      total count of the customers before it, in draw order. */
  lemma {:induction false} EventsLayout(cs: seq<Customer>, start: int, count: nat -> nat, draw: (nat, nat) -> EventDraw, n: nat)
    requires n <= |cs|
    ensures |EventsTable(cs, start, count, draw, n)| == TotalCount(count, n)
    ensures forall i: nat, e: nat :: i < n && e < count(i) ==>
      Position(count, i, e) < TotalCount(count, n) &&
      EventsTable(cs, start, count, draw, n)[Position(count, i, e)] == EventRow(cs[i], start, draw(i, e))
  {
    if n > 0 {
      EventsLayout(cs, start, count, draw, n - 1);
      var prev := EventsTable(cs, start, count, draw, n - 1);
      var last := CustomerEvents(cs[n - 1], n - 1, start, count, draw);
      forall i: nat, e: nat | i < n && e < count(i)
        ensures Position(count, i, e) < TotalCount(count, n) &&
          EventsTable(cs, start, count, draw, n)[Position(count, i, e)] == EventRow(cs[i], start, draw(i, e))
      {
        var p := Position(count, i, e);
        if i < n - 1 {
          assert p < |prev| && (prev + last)[p] == prev[p];
        } else {
          assert p == |prev| + e && (prev + last)[p] == last[e];
        }
      }
    }
  }
}
