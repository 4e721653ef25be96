/** The second parent dashboard: the same three counters, with the children
    without access counted by a separate query instead of on the client. */
module DashboardParent {
  import opened Common
  import ParentDashboard

  /** The counters: the children, the distinct teams of their memberships
      (no query, and zero, without children), and the rows of the pending
      query (zero when it yields no data). */
  function StatsOf(childIds: seq<string>, teamRows: Reply<seq<string>>, pendingRows: Reply<seq<string>>): (s: ParentDashboard.DashboardStats)
    ensures s.playersCount == |childIds|
    ensures |childIds| == 0 ==> s.teamsCount == 0
    ensures |childIds| > 0 ==> s.teamsCount == |ToSet(teamRows.DataOr([]))|
    ensures s.pendingAccessCount == |pendingRows.DataOr([])|
  {
    ParentDashboard.DashboardStats(|childIds|, ParentDashboard.TeamsCount(childIds, teamRows), |pendingRows.DataOr([])|)
  }

  /** The ids of the children without access, in order. */
  function PendingIds(children: seq<ParentDashboard.ChildStub>): (r: seq<string>)
    ensures |r| == ParentDashboard.PendingCount(children)
    ensures forall k :: k in r <==> exists i :: 0 <= i < |children| && children[i].id == k && children[i].userId.None?
    ensures |children| == 1 ==> r == (if children[0].userId.None? then [children[0].id] else [])
    decreases |children|
  {
    if |children| == 0 then []
    else
      var init := children[..|children| - 1];
      var last := children[|children| - 1];
      assert forall i :: 0 <= i < |init| ==> init[i] == children[i];
      PendingIds(init) + (if last.userId.None? then [last.id] else [])
  }

  /** The ids keep the children's order: those of two runs of children are
      the first run's followed by the second's. */
  lemma {:induction false} PendingIdsAppend(a: seq<ParentDashboard.ChildStub>, b: seq<ParentDashboard.ChildStub>)
    ensures PendingIds(a + b) == PendingIds(a) + PendingIds(b)
    decreases |b|
  {
    if |b| == 0 {
      assert a + b == a;
    } else {
      var init := b[..|b| - 1];
      assert a + b == (a + init) + [b[|b| - 1]];
      assert (a + b)[..|a + b| - 1] == a + init;
      PendingIdsAppend(a, init);
    }
  }

  /** When the pending query yields exactly the children without access,
      both dashboards show the same counters. */
  lemma DashboardsAgree(children: seq<ParentDashboard.ChildStub>, teamRows: Reply<seq<string>>)
    ensures StatsOf(KeysOf(children, ParentDashboard.ChildId), teamRows, Rows(PendingIds(children)))
            == ParentDashboard.StatsOf(children, teamRows)
  {
  }

  class DashboardScreen {
    var stats: Option<ParentDashboard.DashboardStats>
    var loading: bool
    var error: Option<string>

    constructor ()
      ensures stats.None? && loading && error.None?
    {
      stats := None;
      loading := true;
      error := None;
    }

    /** The loading effect, run only for a user with an id. */
    method LoadStats(userId: Option<string>, childrenReply: Reply<seq<string>>, teamRows: Reply<seq<string>>,
                     pendingRows: Reply<seq<string>>)
      modifies this
      ensures !Present(userId) ==> stats == old(stats) && loading == old(loading) && error == old(error)
      ensures Present(userId) ==> !loading
      ensures Present(userId) && childrenReply.Failed? ==> error == Some("No se pudieron cargar los datos") && stats == old(stats)
      ensures Present(userId) && !childrenReply.Failed? ==>
                error.None? && stats == Some(StatsOf(childrenReply.DataOr([]), teamRows, pendingRows))
    {
      if !Present(userId) {
        return;
      }
      loading := true;
      error := None;
      if childrenReply.Failed? {
        error := Some("No se pudieron cargar los datos");
        loading := false;
        return;
      }
      var playerIds := childrenReply.DataOr([]);
      var teamsCount := 0;
      if |playerIds| > 0 {
        teamsCount := |ParentDashboard.DistinctIds(teamRows.DataOr([]))|;
      }
      stats := Some(ParentDashboard.DashboardStats(|playerIds|, teamsCount, |pendingRows.DataOr([])|));
      loading := false;
    }
  }
}
