/** The club context: the club of the signed-in user, fetched whenever the
    user's club id changes and on demand through `refreshClub`. */
module ClubContext {
  import opened Common

  /** A `clubs` row as selected. */
  datatype ClubRow = ClubRow(id: string, name: string, logoUrl: Option<string>, primaryColor: Option<string>, createdAt: string)

  /** The `Club` entity exposed to the screens. */
  datatype Club = Club(id: string, name: string, logoUrl: Option<string>, primaryColor: Option<string>, createdAt: string)

  /** The club a fetch settles on: none without a club id, none on an error
      or a missing row, otherwise the row renamed field by field. */
  function ClubFor(clubId: Option<string>, reply: Reply<ClubRow>): (c: Option<Club>)
    ensures c.Some? <==> Present(clubId) && reply.Rows?
    ensures c.Some? ==> c.value.id == reply.data.id && c.value.name == reply.data.name &&
                        c.value.logoUrl == reply.data.logoUrl && c.value.primaryColor == reply.data.primaryColor &&
                        c.value.createdAt == reply.data.createdAt
  {
    if !Present(clubId) then None
    else match reply
      case Rows(row) => Some(Club(row.id, row.name, row.logoUrl, row.primaryColor, row.createdAt))
      case _ => None
  }

  class ClubProvider {
    var club: Option<Club>

    constructor ()
      ensures club.None?
    {
      club := None;
    }

    /** `fetchClub` (also exposed as `refreshClub`): the new club depends
        only on the club id and the reply, never on the previous club. */
    method FetchClub(clubId: Option<string>, reply: Reply<ClubRow>)
      modifies this
      ensures club == ClubFor(clubId, reply)
    {
      if !Present(clubId) {
        club := None;
        return;
      }
      if reply.Rows? {
        var row := reply.data;
        club := Some(Club(row.id, row.name, row.logoUrl, row.primaryColor, row.createdAt));
      } else {
        club := None;
      }
    }
  }
}
