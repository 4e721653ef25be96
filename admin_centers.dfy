/** The super admin's centers screen: every center with the name of its
    club, and a form that inserts a center in a chosen club. */
module AdminCenters {
  import opened Common
  import AdminPlayers

  datatype Center = Center(id: string, clubId: string, name: string, address: Option<string>)

  /** The row inserted. */
  datatype NewCenter = NewCenter(clubId: string, name: string, address: Option<string>)

  /** The club a center shows: the first club with the center's club id,
      if any. */
  function ClubOf(clubs: seq<AdminPlayers.ClubRef>, clubId: string): (c: Option<AdminPlayers.ClubRef>)
    ensures c.None? <==> forall i :: 0 <= i < |clubs| ==> clubs[i].id != clubId
    ensures c.Some? ==> c.value in clubs && c.value.id == clubId
    ensures c.Some? ==> exists i :: 0 <= i < |clubs| && clubs[i] == c.value &&
                                    forall j :: 0 <= j < i ==> clubs[j].id != clubId
    decreases |clubs|
  {
    if |clubs| == 0 then None
    else if clubs[0].id == clubId then Some(clubs[0])
    else
      var r := ClubOf(clubs[1..], clubId);
      assert forall i :: 1 <= i < |clubs| ==> clubs[i] == clubs[1..][i - 1];
      if r.Some? then
        assert exists i :: 0 <= i < |clubs| && clubs[i] == r.value && forall j :: 0 <= j < i ==> clubs[j].id != clubId by {
          var k :| 0 <= k < |clubs[1..]| && clubs[1..][k] == r.value && forall j :: 0 <= j < k ==> clubs[1..][j].id != clubId;
          assert clubs[k + 1] == r.value;
          assert forall j :: 1 <= j < k + 1 ==> clubs[j] == clubs[1..][j - 1];
        }
        r
      else r
  }

  /** The club line: the club's name, or nothing. */
  function ClubLine(clubs: seq<AdminPlayers.ClubRef>, c: Center): (t: string)
    ensures ClubOf(clubs, c.clubId).Some? ==> t == ClubOf(clubs, c.clubId).value.name
    ensures ClubOf(clubs, c.clubId).None? ==> t == ""
  {
    var club := ClubOf(clubs, c.clubId);
    if club.Some? then club.value.name else ""
  }

  /** The address line shows only for a non-empty address. */
  function AddressLine(c: Center): (line: Option<string>)
    ensures line.Some? <==> Present(c.address)
    ensures line.Some? ==> line == c.address
  {
    if Present(c.address) then c.address else None
  }

  /** A created center read back from the list shows the club it was
      created in and the address it was given. */
  lemma CreatedCenterShows(clubs: seq<AdminPlayers.ClubRef>, id: string, n: NewCenter, k: int)
    requires 0 <= k < |clubs| && clubs[k].id == n.clubId
    requires forall j :: 0 <= j < |clubs| && clubs[j].id == n.clubId ==> j == k
    ensures var c := Center(id, n.clubId, n.name, n.address);
            ClubLine(clubs, c) == clubs[k].name && (AddressLine(c).Some? <==> Present(n.address))
  {
    var c := Center(id, n.clubId, n.name, n.address);
    var r := ClubOf(clubs, c.clubId);
    assert r.Some?;
    var i :| 0 <= i < |clubs| && clubs[i] == r.value && forall j :: 0 <= j < i ==> clubs[j].id != n.clubId;
    assert i == k;
  }

  class CentersScreen {
    var role: Option<Role>
    var clubs: seq<AdminPlayers.ClubRef>
    var centers: seq<Center>
    var loading: bool
    var openCreate: bool
    var clubId: string
    var name: string
    var address: string
    var creating: bool

    constructor (role: Option<Role>)
      ensures this.role == role && clubs == [] && centers == [] && loading
      ensures !openCreate && clubId == "" && name == "" && address == "" && !creating
    {
      this.role := role;
      clubs := [];
      centers := [];
      loading := true;
      openCreate := false;
      clubId := "";
      name := "";
      address := "";
      creating := false;
    }

    /** The guard: the same rule as the players screen of the admin area. */
    function Guard(): (r: Option<Redirect>)
      reads this
      ensures r.Some? <==> role.Some? && role != Some(SuperAdmin)
    {
      AdminPlayers.Guard(role)
    }

    /** The load effect, for the super admin only: both lists default to
        empty. For any other role nothing loads and the loading text stays. */
    method Load(clubsReply: Reply<seq<AdminPlayers.ClubRef>>, centersReply: Reply<seq<Center>>)
      modifies this`clubs, this`centers, this`loading
      ensures role != Some(SuperAdmin) ==> clubs == old(clubs) && centers == old(centers) && loading == old(loading)
      ensures role == Some(SuperAdmin) ==>
                clubs == clubsReply.DataOr([]) && centers == centersReply.DataOr([]) && !loading
    {
      if role != Some(SuperAdmin) {
        return;
      }
      loading := true;
      clubs := clubsReply.DataOr([]);
      centers := centersReply.DataOr([]);
      loading := false;
    }

    method OpenForm()
      modifies this`openCreate
      ensures openCreate
    {
      openCreate := true;
    }

    /** "Cancelar" closes the form and keeps what was typed. */
    method CancelForm()
      modifies this`openCreate
      ensures !openCreate
    {
      openCreate := false;
    }

    /** `createCenter`: nothing without a club and a name; a refused insert
        is only logged and keeps the form; a stored one resets the three
        fields, closes the form and replaces the list with the reloaded
        one, an empty list when the reload fails. */
    method CreateCenter(insert: Ack, reload: Reply<seq<Center>>) returns (sent: Option<NewCenter>)
      modifies this`creating, this`clubId, this`name, this`address, this`openCreate, this`centers
      ensures sent.Some? <==> old(clubId) != "" && old(name) != ""
      ensures sent.Some? ==> sent.value == NewCenter(old(clubId), old(name), OrNull(old(address))) && !creating
      ensures sent.None? || insert.Rejected? ==>
                clubId == old(clubId) && name == old(name) && address == old(address) &&
                openCreate == old(openCreate) && centers == old(centers)
      ensures sent.None? ==> creating == old(creating)
      ensures sent.Some? && insert.Done? ==>
                clubId == "" && name == "" && address == "" && !openCreate && centers == reload.DataOr([])
    {
      if clubId == "" || name == "" {
        return None;
      }
      creating := true;
      sent := Some(NewCenter(clubId, name, OrNull(address)));
      creating := false;
      if insert.Rejected? {
        return;
      }
      clubId := "";
      name := "";
      address := "";
      openCreate := false;
      centers := reload.DataOr([]);
    }
  }
}
