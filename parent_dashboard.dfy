/** The parent's dashboard: counts of the parent's children, of their
    distinct teams and of the children without access, a preview of the
    children, and the upcoming events of their teams. */
module ParentDashboard {
  import opened Common

  /** A child as the counting query selects it. */
  datatype ChildStub = ChildStub(id: string, userId: Option<string>)

  /** The dashboard's counters. */
  datatype DashboardStats = DashboardStats(playersCount: nat, teamsCount: nat, pendingAccessCount: nat)

  function ChildId(c: ChildStub): string { c.id }

  /** `filter(p => p.user_id === null).length`. */
  function PendingCount(children: seq<ChildStub>): (n: nat)
    ensures n <= |children|
    ensures n == 0 <==> forall i :: 0 <= i < |children| ==> children[i].userId.Some?
    ensures n == |children| <==> forall i :: 0 <= i < |children| ==> children[i].userId.None?
    ensures |children| == 1 ==> n == (if children[0].userId.None? then 1 else 0)
    decreases |children|
  {
    if |children| == 0 then 0
    else
      var init := children[..|children| - 1];
      var n0 := PendingCount(init);
      assert forall i :: 0 <= i < |init| ==> init[i] == children[i];
      n0 + (if children[|children| - 1].userId.None? then 1 else 0)
  }

  /** The count adds up over two runs of children. */
  lemma {:induction false} PendingCountAppend(a: seq<ChildStub>, b: seq<ChildStub>)
    ensures PendingCount(a + b) == PendingCount(a) + PendingCount(b)
    decreases |b|
  {
    if |b| == 0 {
      assert a + b == a;
    } else {
      var init := b[..|b| - 1];
      assert a + b == (a + init) + [b[|b| - 1]];
      assert (a + b)[..|a + b| - 1] == a + init;
      PendingCountAppend(a, init);
    }
  }

  /** `Array.from(new Set(ids))`: each id once, in order of first
      appearance. */
  function DistinctIds(ids: seq<string>): (r: seq<string>)
    ensures |r| == |ToSet(ids)|
    ensures forall k :: k in r <==> k in ids
    ensures forall i, j :: 0 <= i < j < |r| ==> r[i] != r[j]
  {
    DistinctCount(ids);
    DedupByKeys(ids, Id);
    assert KeysOf(ids, Id) == ids;
    assert KeysOf(DedupBy(ids, Id), Id) == DedupBy(ids, Id);
    DedupBy(ids, Id)
  }

  /** The number of distinct teams of the children's memberships; no team
      query is made, and the count is zero, for a parent without children. */
  function TeamsCount(childIds: seq<string>, teamRows: Reply<seq<string>>): (n: nat)
    ensures |childIds| == 0 ==> n == 0
    ensures |childIds| > 0 ==> n == |ToSet(teamRows.DataOr([]))|
  {
    if |childIds| > 0 then |DistinctIds(teamRows.DataOr([]))| else 0
  }

  /** The counters of the dashboard. */
  function StatsOf(children: seq<ChildStub>, teamRows: Reply<seq<string>>): (s: DashboardStats)
    ensures s.playersCount == |children|
    ensures s.pendingAccessCount == PendingCount(children)
    ensures s.teamsCount == TeamsCount(KeysOf(children, ChildId), teamRows)
    ensures s.pendingAccessCount <= s.playersCount
  {
    DashboardStats(|children|, TeamsCount(KeysOf(children, ChildId), teamRows), PendingCount(children))
  }

  /** A child of the preview: its first membership's team name, if any. */
  datatype ChildPreview = ChildPreview(id: string, fullName: string, userId: Option<string>, teamNames: seq<Option<string>>)

  /** `team_players?.[0]?.teams?.name ?? 'Sin equipo'`. */
  function ChildTeamName(c: ChildPreview): (name: string)
    ensures |c.teamNames| > 0 && c.teamNames[0].Some? ==> name == c.teamNames[0].value
    ensures !(|c.teamNames| > 0 && c.teamNames[0].Some?) ==> name == "Sin equipo"
  {
    if |c.teamNames| > 0 && c.teamNames[0].Some? then c.teamNames[0].value else "Sin equipo"
  }

  /** The access label of a child. */
  function AccessLabel(userId: Option<string>): (text: string)
    ensures text == "Activo" <==> Present(userId)
    ensures text == "Acceso pendiente" <==> !Present(userId)
  {
    if Present(userId) then "Activo" else "Acceso pendiente"
  }

  /** An upcoming event of the children's teams. */
  datatype UpcomingEvent = UpcomingEvent(id: string, eventType: string, title: Option<string>, teamName: Option<string>)

  /** The icon of an event type; other types have none. */
  function TypeIcon(eventType: string): (icon: Option<string>)
    ensures icon.Some? <==> eventType in {"training", "match", "meeting"}
  {
    if eventType == "training" then Some("🏋️")
    else if eventType == "match" then Some("⚽")
    else if eventType == "meeting" then Some("📋")
    else None
  }

  /** Upper case of an ASCII letter; other characters are unchanged. */
  function UpperChar(c: char): (u: char)
    ensures 'a' <= c <= 'z' ==> 'A' <= u <= 'Z'
    ensures !('a' <= c <= 'z') ==> u == c
  {
    if 'a' <= c <= 'z' then (c as int - 32) as char else c
  }

  /** `s.charAt(0).toUpperCase() + s.slice(1)`. */
  function Capitalize(s: string): (r: string)
    ensures |r| == |s|
    ensures |s| > 0 ==> r[0] == UpperChar(s[0]) && r[1..] == s[1..]
  {
    if |s| == 0 then "" else [UpperChar(s[0])] + s[1..]
  }

  /** Capitalising twice is capitalising once. */
  lemma CapitalizeIdempotent(s: string)
    ensures Capitalize(Capitalize(s)) == Capitalize(s)
  {
    if |s| > 0 {
      assert Capitalize(Capitalize(s)) == [UpperChar(UpperChar(s[0]))] + s[1..];
    }
  }

  /** The title of an event, or its capitalised type when it has none. */
  function EventTitle(e: UpcomingEvent): (t: string)
    ensures Present(e.title) ==> t == e.title.value
    ensures !Present(e.title) ==> t == Capitalize(e.eventType)
  {
    if Present(e.title) then e.title.value else Capitalize(e.eventType)
  }

  /** `event.teams?.name || 'Sin equipo'`. */
  function EventTeamName(e: UpcomingEvent): (n: string)
    ensures Present(e.teamName) ==> n == e.teamName.value
    ensures !Present(e.teamName) ==> n == "Sin equipo"
  {
    if Present(e.teamName) then e.teamName.value else "Sin equipo"
  }

  class ParentDashboardScreen {
    var stats: Option<DashboardStats>
    var children: seq<ChildPreview>
    var events: seq<UpcomingEvent>
    var loading: bool
    var error: Option<string>

    constructor ()
      ensures stats.None? && children == [] && events == [] && loading && error.None?
    {
      stats := None;
      children := [];
      events := [];
      loading := true;
      error := None;
    }

    /** The loading effect, run only for a user with an id. The team ids
        are fetched twice; the events query runs only when the second fetch
        yields team ids. The preview and events replies are already limited
        to three rows by the backend. */
    method LoadStats(userId: Option<string>, childrenReply: Reply<seq<ChildStub>>, teamRows: Reply<seq<string>>,
                     previewReply: Reply<seq<ChildPreview>>, teamRowsAgain: Reply<seq<string>>,
                     eventsReply: Reply<seq<UpcomingEvent>>)
      modifies this
      ensures !Present(userId) ==> stats == old(stats) && children == old(children) && events == old(events) &&
                                   loading == old(loading) && error == old(error)
      ensures Present(userId) ==> !loading
      ensures Present(userId) && childrenReply.Failed? ==>
                error == Some("No se pudieron cargar los datos") && stats == old(stats) && children == old(children) && events == old(events)
      ensures Present(userId) && !childrenReply.Failed? ==>
                error.None? && stats == Some(StatsOf(childrenReply.DataOr([]), teamRows)) &&
                children == previewReply.DataOr([])
      ensures Present(userId) && !childrenReply.Failed? ==>
                var ids := KeysOf(childrenReply.DataOr([]), ChildId);
                var teamIds := if |ids| > 0 then DistinctIds(teamRowsAgain.DataOr([])) else DistinctIds(teamRows.DataOr([]));
                events == (if |ids| > 0 && |teamIds| > 0 then eventsReply.DataOr([]) else [])
    {
      if !Present(userId) {
        return;
      }
      loading := true;
      error := None;
      if childrenReply.Failed? {
        error := Some("No se pudieron cargar los datos");
        loading := false;
        return;
      }
      var players := childrenReply.DataOr([]);
      var playerIds := KeysOf(players, ChildId);
      var pending := PendingCount(players);
      var teamIds: seq<string> := [];
      var teamsCount := 0;
      if |playerIds| > 0 {
        teamIds := DistinctIds(teamRows.DataOr([]));
        teamsCount := |teamIds|;
      }
      stats := Some(DashboardStats(|players|, teamsCount, pending));
      children := previewReply.DataOr([]);
      if |playerIds| > 0 {
        teamIds := DistinctIds(teamRowsAgain.DataOr([]));
      }
      var eventsData: seq<UpcomingEvent> := [];
      if |teamIds| > 0 {
        eventsData := eventsReply.DataOr([]);
      }
      events := eventsData;
      loading := false;
    }
  }
}
