/** The messages screen: the demonstration messages newest first, each card
    with its priority icon and its badges. */
module Messages {
  import opened Common
  import opened MockData

  /** The list shown: a sorted copy of the messages, newest first. */
  function Shown(ms: seq<MockMessage>): (r: seq<MockMessage>)
    ensures |r| == |ms| && multiset(r) == multiset(ms)
    ensures forall i, j :: 0 <= i < j < |r| ==> r[i].createdAt >= r[j].createdAt
  {
    SortByKeyProps(ms, Age);
    var r := SortByKey(ms, Age);
    assert forall i, j :: 0 <= i < j < |r| ==> Age(r[i]) <= Age(r[j]);
    r
  }

  /** The screen lists the same messages, in the same order, as the recent
      messages helper without a limit. */
  lemma ShownIsRecent(ms: seq<MockMessage>)
    ensures Shown(ms) == RecentMessages(ms, None)
  {
  }

  datatype Icon = AlertIcon | BellIcon

  /** What a card shows beside the title. */
  datatype Badges = Badges(icon: Icon, important: bool, team: bool, clubWide: bool)

  function BadgesOf(m: MockMessage): (b: Badges)
    ensures b.important <==> m.priority == Important
    ensures b.icon == AlertIcon <==> m.priority == Important
    ensures b.team <==> Present(m.teamId)
    ensures b.clubWide <==> Present(m.clubId) && !Present(m.teamId)
  {
    Badges(if m.priority == Important then AlertIcon else BellIcon,
           m.priority == Important, Present(m.teamId), Present(m.clubId) && !Present(m.teamId))
  }

  /** A card never shows both the team and the club-wide badge, and a
      message with a club or a team shows exactly one of them. */
  lemma ScopeBadgesExclusive(m: MockMessage)
    ensures !(BadgesOf(m).team && BadgesOf(m).clubWide)
    ensures Present(m.clubId) || Present(m.teamId) <==> BadgesOf(m).team || BadgesOf(m).clubWide
  {
  }
}
