/** The home screen of the administrative area: upcoming events, recent
    messages, a parent's children, and for the super admin the team and
    player counters and three alerts (players without a team, players
    without access, teams without a coach). */
module AdminHome {
  import opened Common

  /** An `events` row as selected with `*`, reduced to the fields read. */
  datatype EventRow = EventRow(id: string, title: string, startTime: string, endTime: string, eventType: string, location: Option<string>)

  /** An event as the card shows it: the row plus camel-case aliases. */
  datatype EventCard = EventCard(row: EventRow, startTime: string, endTime: string, kind: string)

  function EventCardOf(e: EventRow): (c: EventCard)
    ensures c.row == e && c.startTime == e.startTime && c.endTime == e.endTime && c.kind == e.eventType
  {
    EventCard(e, e.startTime, e.endTime, e.eventType)
  }

  function EventCards(rows: seq<EventRow>): (r: seq<EventCard>)
    ensures |r| == |rows|
    ensures forall i :: 0 <= i < |rows| ==> r[i] == EventCardOf(rows[i])
  {
    seq(|rows|, i requires 0 <= i < |rows| => EventCardOf(rows[i]))
  }

  /** A `messages` row with its author's profile name, if any. */
  datatype MessageRow = MessageRow(id: string, title: string, body: string, createdAt: string, authorName: Option<string>)

  /** A message as the home screen lists it. */
  datatype MessageCard = MessageCard(id: string, title: string, body: string, authorName: string, createdAt: string)

  /** `users_profile?.full_name ?? '—'`. */
  function MessageCardOf(m: MessageRow): (c: MessageCard)
    ensures c.id == m.id && c.title == m.title && c.body == m.body && c.createdAt == m.createdAt
    ensures m.authorName.Some? ==> c.authorName == m.authorName.value
    ensures m.authorName.None? ==> c.authorName == "—"
  {
    MessageCard(m.id, m.title, m.body, m.authorName.GetOr("—"), m.createdAt)
  }

  function MessageCards(rows: seq<MessageRow>): (r: seq<MessageCard>)
    ensures |r| == |rows|
    ensures forall i :: 0 <= i < |rows| ==> r[i] == MessageCardOf(rows[i])
  {
    seq(|rows|, i requires 0 <= i < |rows| => MessageCardOf(rows[i]))
  }

  /** The three greetings. */
  datatype Greeting = Morning | Afternoon | Evening

  /** `getGreeting` for the current hour. */
  function GreetingFor(hour: int): (g: Greeting)
    ensures g == Morning <==> hour < 12
    ensures g == Afternoon <==> 12 <= hour < 18
    ensures g == Evening <==> hour >= 18
  {
    if hour < 12 then Morning else if hour < 18 then Afternoon else Evening
  }

  /** Later hours never get an earlier greeting. */
  lemma GreetingMonotone(h1: int, h2: int)
    requires h1 <= h2
    ensures GreetingFor(h1) == Evening ==> GreetingFor(h2) == Evening
    ensures GreetingFor(h2) == Morning ==> GreetingFor(h1) == Morning
  {
  }

  /** The header: the user's first name, or the welcome text when there is
      none. */
  function HeaderName(firstName: Option<string>, welcome: string): (s: string)
    ensures Present(firstName) ==> s == firstName.value
    ensures !Present(firstName) ==> s == welcome
  {
    if Present(firstName) then firstName.value else welcome
  }

  // ---------------------------------------------------------------------
  // Players without a team
  // ---------------------------------------------------------------------

  /** `map(r => r.player_id).filter(Boolean)`. */
  function AssignedIds(rows: seq<Option<string>>): (ids: seq<string>)
    ensures forall i :: 0 <= i < |ids| ==> ids[i] != ""
    ensures forall k :: k in ids <==> k != "" && Some(k) in rows
    decreases |rows|
  {
    if |rows| == 0 then []
    else
      var init := rows[..|rows| - 1];
      var last := rows[|rows| - 1];
      assert forall k :: Some(k) in rows <==> Some(k) in init || Some(k) == last;
      AssignedIds(init) + (if Present(last) then [last.value] else [])
  }

  /** The argument of the `not in` filter: `(id1,id2,...)`. */
  function ExclusionList(ids: seq<string>): (s: string)
    ensures |s| >= 2 && s[0] == '(' && s[|s| - 1] == ')'
    ensures s[1..|s| - 1] == Join(ids, ',')
  {
    var s := "(" + Join(ids, ',') + ")";
    assert s[1..|s| - 1] == Join(ids, ',');
    s
  }

  /** The list round-trips: reading the text between the parentheses back
      as a comma-separated list gives the ids, as long as no id contains a
      comma. */
  lemma ExclusionListRoundTrip(ids: seq<string>)
    requires |ids| >= 1
    requires forall i :: 0 <= i < |ids| ==> ',' !in ids[i]
    ensures var s := ExclusionList(ids); Split(s[1..|s| - 1], ',') == ids
  {
    SplitJoin(ids, ',');
  }

  /** The counts the super admin's queries return; `None` is a null count. */
  datatype AdminCounts = AdminCounts(
    teams: Option<int>, players: Option<int>,
    assignedRows: seq<Option<string>>,
    notAssignedCount: Option<int>, allPlayersCount: Option<int>,
    inactive: Option<int>, withoutCoach: Option<int>)

  /** The players without a team: the count of the `not in` query when
      some player is assigned, otherwise the count of all players. */
  function UnassignedPlayers(c: AdminCounts): (n: int)
    ensures |AssignedIds(c.assignedRows)| > 0 ==> n == c.notAssignedCount.GetOr(0)
    ensures |AssignedIds(c.assignedRows)| == 0 ==> n == c.allPlayersCount.GetOr(0)
  {
    if |AssignedIds(c.assignedRows)| > 0 then c.notAssignedCount.GetOr(0) else c.allPlayersCount.GetOr(0)
  }

  datatype Alerts = Alerts(unassignedPlayers: int, inactivePlayers: int, teamsWithoutCoach: int)

  function AlertsOf(c: AdminCounts): (a: Alerts)
    ensures a.unassignedPlayers == UnassignedPlayers(c)
    ensures a.inactivePlayers == c.inactive.GetOr(0)
    ensures a.teamsWithoutCoach == c.withoutCoach.GetOr(0)
  {
    Alerts(UnassignedPlayers(c), c.inactive.GetOr(0), c.withoutCoach.GetOr(0))
  }

  /** An alert card and where it leads. */
  datatype AlertCard = UnassignedCard(n: int) | InactiveCard(n: int) | NoCoachCard(n: int)

  function AlertTarget(c: AlertCard): string {
    match c
    case UnassignedCard(_) => "/admin/players"
    case InactiveCard(_) => "/admin/players"
    case NoCoachCard(_) => "/teams"
  }

  /** The alert cards shown: only to the super admin, and only for
      positive counts, in a fixed order. */
  function AlertCards(role: Option<Role>, a: Alerts): (cards: seq<AlertCard>)
    ensures role != Some(SuperAdmin) ==> cards == []
    ensures UnassignedCard(a.unassignedPlayers) in cards <==> role == Some(SuperAdmin) && a.unassignedPlayers > 0
    ensures InactiveCard(a.inactivePlayers) in cards <==> role == Some(SuperAdmin) && a.inactivePlayers > 0
    ensures NoCoachCard(a.teamsWithoutCoach) in cards <==> role == Some(SuperAdmin) && a.teamsWithoutCoach > 0
    ensures forall i :: 0 <= i < |cards| ==> cards[i].n > 0
  {
    if role != Some(SuperAdmin) then []
    else
      (if a.unassignedPlayers > 0 then [UnassignedCard(a.unassignedPlayers)] else []) +
      (if a.inactivePlayers > 0 then [InactiveCard(a.inactivePlayers)] else []) +
      (if a.teamsWithoutCoach > 0 then [NoCoachCard(a.teamsWithoutCoach)] else [])
  }

  /** A child of a parent, as selected with `*`, reduced to its name. */
  datatype ChildRow = ChildRow(id: string, firstName: string, lastName: string)

  class AdminHomeScreen {
    var loading: bool
    var upcomingEvents: seq<EventCard>
    var recentMessages: seq<MessageCard>
    var players: seq<ChildRow>
    var teamsCount: int
    var playersCount: int
    var alerts: Alerts

    constructor ()
      ensures loading && upcomingEvents == [] && recentMessages == [] && players == []
      ensures teamsCount == 0 && playersCount == 0 && alerts == Alerts(0, 0, 0)
    {
      loading := true;
      upcomingEvents := [];
      recentMessages := [];
      players := [];
      teamsCount := 0;
      playersCount := 0;
      alerts := Alerts(0, 0, 0);
    }

    /** The loading effect. Each list is replaced only when its query
        returns data; the counters and alerts are loaded for the super
        admin only, a null count reading as zero. */
    method Load(role: Option<Role>, hasUser: bool, events: Reply<seq<EventRow>>, messages: Reply<seq<MessageRow>>,
                children: Reply<seq<ChildRow>>, counts: AdminCounts)
      modifies this
      ensures !loading
      ensures upcomingEvents == (if events.Rows? then EventCards(events.data) else old(upcomingEvents))
      ensures recentMessages == (if messages.Rows? then MessageCards(messages.data) else old(recentMessages))
      ensures players == (if role == Some(Parent) && hasUser && children.Rows? then children.data else old(players))
      ensures role == Some(SuperAdmin) ==>
                teamsCount == counts.teams.GetOr(0) && playersCount == counts.players.GetOr(0) && alerts == AlertsOf(counts)
      ensures role != Some(SuperAdmin) ==>
                teamsCount == old(teamsCount) && playersCount == old(playersCount) && alerts == old(alerts)
    {
      loading := true;
      if events.Rows? {
        upcomingEvents := EventCards(events.data);
      }
      if messages.Rows? {
        recentMessages := MessageCards(messages.data);
      }
      if role == Some(Parent) && hasUser {
        if children.Rows? {
          players := children.data;
        }
      }
      if role == Some(SuperAdmin) {
        teamsCount := counts.teams.GetOr(0);
        playersCount := counts.players.GetOr(0);
        var assignedIds := AssignedIds(counts.assignedRows);
        var unassigned := 0;
        if |assignedIds| > 0 {
          unassigned := counts.notAssignedCount.GetOr(0);
        } else {
          unassigned := counts.allPlayersCount.GetOr(0);
        }
        alerts := Alerts(unassigned, counts.inactive.GetOr(0), counts.withoutCoach.GetOr(0));
      }
      loading := false;
    }
  }
}
