/** The demonstration data and its two helpers: the upcoming events,
    ascending by start, and the recent messages, newest first, each cut to
    an optional limit. Instants are milliseconds since the epoch; the data
    is built relative to the instant the module is loaded. */
module MockData {
  import opened Common

  datatype EventType = Training | Match | Meeting

  datatype MockEvent = MockEvent(
    id: string, teamId: string, title: string, eventType: EventType,
    start: int, end: int, location: string, description: Option<string>)

  datatype Priority = Normal | Important

  datatype MockMessage = MockMessage(
    id: string, clubId: Option<string>, teamId: Option<string>, title: string,
    authorId: string, authorName: string, priority: Priority, createdAt: int)

  const HourMs: int := 3600000
  const DayMs: int := 86400000

  /** The four demonstration events, one to four days after `loaded`. */
  function MockEvents(loaded: int): (es: seq<MockEvent>)
    ensures |es| == 4
    ensures forall i :: 0 <= i < |es| ==> es[i].start == loaded + (i + 1) * DayMs
    ensures forall i :: 0 <= i < |es| ==> es[i].end > es[i].start
  {
    [ MockEvent("event-1", "team-1", "Weekly Training", Training,
                loaded + DayMs, loaded + DayMs + 5400000, "Main Field", None),
      MockEvent("event-2", "team-1", "League Match vs Real Madrid", Match,
                loaded + 2 * DayMs, loaded + 2 * DayMs + 7200000, "City Stadium", None),
      MockEvent("event-3", "team-2", "Morning Practice", Training,
                loaded + 3 * DayMs, loaded + 3 * DayMs + 5400000, "Training Ground B", None),
      MockEvent("event-4", "team-1", "Parent Meeting", Meeting,
                loaded + 4 * DayMs, loaded + 4 * DayMs + HourMs,
                "Club House", Some("End of season review and next season planning")) ]
  }

  /** The three demonstration messages, one to three days before `loaded`:
      two club-wide ones and one for a team. */
  function MockMessages(loaded: int): (ms: seq<MockMessage>)
    ensures |ms| == 3
    ensures forall i :: 0 <= i < |ms| ==> ms[i].createdAt == loaded - (i + 1) * DayMs
  {
    [ MockMessage("msg-1", Some("club-1"), None, "Season Update",
                  "admin-1", "Club Administration", Important, loaded - DayMs),
      MockMessage("msg-2", None, Some("team-1"), "Training Time Change",
                  "coach-1", "Coach Martinez", Normal, loaded - 2 * DayMs),
      MockMessage("msg-3", Some("club-1"), None, "Equipment Collection",
                  "admin-1", "Club Administration", Normal, loaded - 3 * DayMs) ]
  }

  function Start(e: MockEvent): int { e.start }

  /** The events that start strictly after `now`, in their order. */
  function StartingAfter(es: seq<MockEvent>, now: int): (r: seq<MockEvent>)
    ensures forall e :: e in r <==> e in es && e.start > now
    ensures |r| <= |es|
    decreases |es|
  {
    if |es| == 0 then []
    else
      var init := es[..|es| - 1];
      var last := es[|es| - 1];
      assert es == init + [last];
      StartingAfter(init, now) + (if last.start > now then [last] else [])
  }

  /** The filter keeps the order and the repetitions: filtering a
      concatenation concatenates the filtered parts. */
  lemma {:induction false} StartingAfterAppend(a: seq<MockEvent>, b: seq<MockEvent>, now: int)
    ensures StartingAfter(a + b, now) == StartingAfter(a, now) + StartingAfter(b, now)
    decreases |b|
  {
    if |b| > 0 {
      var init := b[..|b| - 1];
      assert a + b == (a + init) + [b[|b| - 1]];
      StartingAfterAppend(a, init, now);
    } else {
      assert a + b == a;
    }
  }

  /** `getUpcomingEvents`. */
  function UpcomingEvents(es: seq<MockEvent>, now: int, limit: Option<int>): seq<MockEvent> {
    SliceLimit(SortByKey(StartingAfter(es, now), Start), limit)
  }

  /** The upcoming events are exactly the events starting after `now`,
      ascending by start; a positive limit keeps the first ones of them and
      no limit (or zero) keeps them all. */
  lemma UpcomingEventsProps(es: seq<MockEvent>, now: int, limit: Option<int>)
    ensures var r := UpcomingEvents(es, now, limit);
            forall i, j :: 0 <= i < j < |r| ==> r[i].start <= r[j].start
    ensures forall e :: e in UpcomingEvents(es, now, limit) ==> e in es && e.start > now
    ensures limit.None? || limit == Some(0) ==>
              multiset(UpcomingEvents(es, now, limit)) == multiset(StartingAfter(es, now))
    ensures limit.Some? && limit.value > 0 ==>
              |UpcomingEvents(es, now, limit)| == Min(limit.value, |StartingAfter(es, now)|) &&
              UpcomingEvents(es, now, limit) <= UpcomingEvents(es, now, None)
  {
    var all := SortByKey(StartingAfter(es, now), Start);
    SortByKeyProps(StartingAfter(es, now), Start);
    var r := UpcomingEvents(es, now, limit);
    assert r == all[..|r|];
    forall i, j | 0 <= i < j < |r| ensures r[i].start <= r[j].start {
      assert Start(all[i]) <= Start(all[j]);
    }
    forall e | e in r ensures e in es && e.start > now {
      assert e in multiset(all);
    }
  }

  function Min(a: int, b: int): int { if a < b then a else b }

  /** The key that sorts newest first. */
  function Age(m: MockMessage): int { -m.createdAt }

  /** `getRecentMessages`: a sorted copy, the input itself unchanged. */
  function RecentMessages(ms: seq<MockMessage>, limit: Option<int>): seq<MockMessage> {
    SliceLimit(SortByKey(ms, Age), limit)
  }

  /** The recent messages are newest first; with no limit they are all the
      messages, and a positive limit keeps the newest ones. */
  lemma RecentMessagesProps(ms: seq<MockMessage>, limit: Option<int>)
    ensures var r := RecentMessages(ms, limit);
            forall i, j :: 0 <= i < j < |r| ==> r[i].createdAt >= r[j].createdAt
    ensures limit.None? || limit == Some(0) ==> multiset(RecentMessages(ms, limit)) == multiset(ms)
    ensures limit.Some? && limit.value > 0 ==>
              |RecentMessages(ms, limit)| == Min(limit.value, |ms|) &&
              RecentMessages(ms, limit) <= RecentMessages(ms, None)
    ensures forall m :: m in RecentMessages(ms, limit) ==> m in ms
  {
    var all := SortByKey(ms, Age);
    SortByKeyProps(ms, Age);
    var r := RecentMessages(ms, limit);
    assert r == all[..|r|];
    forall i, j | 0 <= i < j < |r| ensures r[i].createdAt >= r[j].createdAt {
      assert Age(all[i]) <= Age(all[j]);
    }
    forall m | m in r ensures m in ms {
      assert m in multiset(all);
    }
  }

  /** A list whose events all start after `now` is kept whole. */
  lemma {:induction false} StartingAfterAll(es: seq<MockEvent>, now: int)
    requires forall i :: 0 <= i < |es| ==> es[i].start > now
    ensures StartingAfter(es, now) == es
    decreases |es|
  {
    if |es| > 0 {
      var init := es[..|es| - 1];
      StartingAfterAll(init, now);
      assert es == init + [es[|es| - 1]];
    }
  }

  /** With the demonstration data, every event is upcoming until the first
      one starts, and they come in their written order. */
  lemma MockEventsAllUpcoming(loaded: int, now: int)
    requires now < loaded + DayMs
    ensures UpcomingEvents(MockEvents(loaded), now, None) == MockEvents(loaded)
  {
    var es := MockEvents(loaded);
    StartingAfterAll(es, now);
    assert SortedBy(es, Start);
    SortByKeySortedInput(es, Start);
  }

  /** The demonstration messages are already newest first: the recent
      messages are all three, in their written order. */
  lemma MockMessagesInOrder(loaded: int)
    ensures RecentMessages(MockMessages(loaded), None) == MockMessages(loaded)
  {
    var ms := MockMessages(loaded);
    assert SortedBy(ms, Age);
    SortByKeySortedInput(ms, Age);
  }
}
