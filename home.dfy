/** The general home screen: the same events, messages and children as the
    administrative home, but each query's error is checked, and the club of
    the signed-in user is fetched for the role line. */
module Home {
  import opened Common
  import opened AdminHome

  /** A `clubs` row, reduced to its name. */
  datatype ClubInfo = ClubInfo(id: string, name: Option<string>)

  /** The upcoming events after the events query: replaced only when the
      query succeeds with data. */
  function EventsAfter(prev: seq<EventCard>, reply: Reply<seq<EventRow>>): (r: seq<EventCard>)
    ensures reply.Rows? ==> |r| == |reply.data| && forall i :: 0 <= i < |r| ==> r[i].row == reply.data[i]
    ensures !reply.Rows? ==> r == prev
  {
    if reply.Rows? then EventCards(reply.data) else prev
  }

  /** The recent messages after the messages query: any reply without an
      error replaces them, an empty one with the empty list. */
  function MessagesAfter(prev: seq<MessageCard>, reply: Reply<seq<MessageRow>>): (r: seq<MessageCard>)
    ensures reply.Failed? ==> r == prev
    ensures reply.NoData? ==> r == []
    ensures reply.Rows? ==> |r| == |reply.data| && forall i :: 0 <= i < |r| ==> r[i] == MessageCardOf(reply.data[i])
  {
    match reply
    case Rows(data) => MessageCards(data)
    case NoData => []
    case Failed(_) => prev
  }

  /** The administrative home replaces the messages only on data; the two
      screens end with the same list exactly when the reply is not an empty
      success or there was nothing to clear. */
  lemma MessagesAgreeWithAdmin(prev: seq<MessageCard>, reply: Reply<seq<MessageRow>>)
    ensures MessagesAfter(prev, reply) == (if reply.Rows? then MessageCards(reply.data) else prev)
            <==> !reply.NoData? || prev == []
  {
  }

  /** A parent's children after the children query, with the same rule as
      the messages. */
  function ChildrenAfter(prev: seq<ChildRow>, reply: Reply<seq<ChildRow>>): (r: seq<ChildRow>)
    ensures reply.Failed? ==> r == prev
    ensures !reply.Failed? ==> r == reply.DataOr([])
  {
    match reply
    case Failed(_) => prev
    case _ => reply.DataOr([])
  }

  /** The club after the club query: fetched only for a non-empty club id,
      and replaced (by null when no row matches) unless the query fails. */
  function ClubAfter(prev: Option<ClubInfo>, clubId: Option<string>, reply: Reply<ClubInfo>): (r: Option<ClubInfo>)
    ensures !Present(clubId) || reply.Failed? ==> r == prev
    ensures Present(clubId) && reply.Rows? ==> r == Some(reply.data)
    ensures Present(clubId) && reply.NoData? ==> r.None?
  {
    if !Present(clubId) || reply.Failed? then prev else reply.Data()
  }

  /** `club?.name || ''`. */
  function ClubName(club: Option<ClubInfo>): (s: string)
    ensures s != "" <==> club.Some? && Present(club.value.name)
    ensures s != "" ==> s == club.value.name.value
  {
    if club.Some? && Present(club.value.name) then club.value.name.value else ""
  }

  class HomeScreen {
    var loading: bool
    var upcomingEvents: seq<EventCard>
    var recentMessages: seq<MessageCard>
    var players: seq<ChildRow>
    var club: Option<ClubInfo>

    constructor ()
      ensures loading && upcomingEvents == [] && recentMessages == [] && players == [] && club.None?
    {
      loading := true;
      upcomingEvents := [];
      recentMessages := [];
      players := [];
      club := None;
    }

    /** The loading effect. */
    method Load(role: Option<Role>, hasUser: bool, clubId: Option<string>, events: Reply<seq<EventRow>>,
                messages: Reply<seq<MessageRow>>, children: Reply<seq<ChildRow>>, clubReply: Reply<ClubInfo>)
      modifies this
      ensures !loading
      ensures upcomingEvents == EventsAfter(old(upcomingEvents), events)
      ensures recentMessages == MessagesAfter(old(recentMessages), messages)
      ensures players == (if role == Some(Parent) && hasUser then ChildrenAfter(old(players), children) else old(players))
      ensures club == ClubAfter(old(club), clubId, clubReply)
    {
      loading := true;
      upcomingEvents := EventsAfter(upcomingEvents, events);
      recentMessages := MessagesAfter(recentMessages, messages);
      if role == Some(Parent) && hasUser {
        players := ChildrenAfter(players, children);
      }
      club := ClubAfter(club, clubId, clubReply);
      loading := false;
    }
  }
}
