/** A parent's list of children: loaded for parents only, with a form that
    inserts a child in the club whose id is typed in. */
module Players {
  import opened Common

  /** A `players` row as both children screens select it. */
  datatype PlayerRow = PlayerRow(
    id: string, fullName: string, birthDate: Option<string>,
    clubId: Option<string>, userId: Option<string>)

  const LoadFailed: string := "Failed to load players"
  const CreateFailed: string := "Failed to create player"

  /** The children screens show anything only to parents. */
  predicate ForParents(role: Option<Role>) { role == Some(Parent) }

  /** What both children screens render: nothing for other roles, the
      spinner while loading, the list otherwise. */
  function ChildrenView(role: Option<Role>, loading: bool): (v: Option<View>)
    ensures v.None? <==> !ForParents(role)
    ensures v == Some(Spinner) <==> ForParents(role) && loading
    ensures v == Some(Content) <==> ForParents(role) && !loading
  {
    if !ForParents(role) then None
    else if loading then Some(Spinner)
    else Some(Content)
  }

  /** The list after the load: on a failure there are no rows, so the
      list is empty. */
  function LoadedPlayers(reply: Reply<seq<PlayerRow>>): (ps: seq<PlayerRow>)
    ensures reply.Rows? ==> ps == reply.data
    ensures !reply.Rows? ==> ps == []
  {
    reply.DataOr([])
  }

  /** The message after the load. */
  function LoadError(reply: Reply<seq<PlayerRow>>): (e: Option<string>)
    ensures e.Some? <==> reply.Failed?
    ensures e.Some? ==> e.value == LoadFailed
  {
    if reply.Failed? then Some(LoadFailed) else None
  }

  /** The status line of a card. */
  function AccessLabel(p: PlayerRow): (text: string)
    ensures text == "Access active" <==> Present(p.userId)
    ensures text != "Access active" ==> text == "No access"
  {
    if Present(p.userId) then "Access active" else "No access"
  }

  /** The row inserted; the parent is filled in by the database policy. */
  datatype NewChild = NewChild(fullName: string, birthDate: Option<string>, clubId: string)

  /** The submit button is enabled only with a name and a club, and not
      while a creation runs. */
  predicate CanSubmit(creating: bool, name: string, club: string) {
    !creating && name != "" && club != ""
  }

  /** The message after an insert, as written: a success leaves whatever
      message was there, so an earlier failure stays on screen. */
  function ErrorAfterInsertAsWritten(prev: Option<string>, insert: Ack): (e: Option<string>)
    ensures insert.Rejected? ==> e == Some(CreateFailed)
    ensures insert.Done? ==> e == prev
  {
    if insert.Rejected? then Some(CreateFailed) else prev
  }

  /** A failed attempt followed by a successful one still shows the
      failure. */
  lemma StaleFailureAfterRetry()
    ensures ErrorAfterInsertAsWritten(ErrorAfterInsertAsWritten(None, Rejected("insert refused")), Done) == Some(CreateFailed)
  {
  }

  /** The message after an insert, as evidently intended (and as the other
      children screen does): the message is cleared when a creation
      starts. */
  function ErrorAfterInsert(insert: Ack): (e: Option<string>)
    ensures e.Some? <==> insert.Rejected?
    ensures e.Some? ==> e.value == CreateFailed
  {
    if insert.Rejected? then Some(CreateFailed) else None
  }

  /** With the correction the message shown depends only on the last
      attempt; as written it also depends on the attempts before. */
  lemma ErrorReflectsLastAttempt(prev: Option<string>, insert: Ack)
    ensures ErrorAfterInsert(insert) == ErrorAfterInsertAsWritten(None, insert)
    ensures insert.Rejected? ==> ErrorAfterInsert(insert) == ErrorAfterInsertAsWritten(prev, insert)
  {
  }

  class PlayersScreen {
    var role: Option<Role>
    var players: seq<PlayerRow>
    var loading: bool
    var error: Option<string>
    var showAdd: bool
    var newName: string
    var newBirth: string
    var newClub: string
    var creating: bool

    constructor (role: Option<Role>)
      ensures this.role == role && players == [] && loading && error.None?
      ensures !showAdd && newName == "" && newBirth == "" && newClub == "" && !creating
    {
      this.role := role;
      players := [];
      loading := true;
      error := None;
      showAdd := false;
      newName := "";
      newBirth := "";
      newClub := "";
      creating := false;
    }

    /** The load effect, for parents only. */
    method Load(reply: Reply<seq<PlayerRow>>)
      modifies this`players, this`loading, this`error
      ensures !ForParents(role) ==> players == old(players) && loading == old(loading) && error == old(error)
      ensures ForParents(role) ==> players == LoadedPlayers(reply) && error == LoadError(reply) && !loading
    {
      if !ForParents(role) {
        return;
      }
      loading := true;
      error := None;
      if reply.Failed? {
        error := Some(LoadFailed);
      }
      players := reply.DataOr([]);
      loading := false;
    }

    method ToggleAdd()
      modifies this`showAdd
      ensures showAdd == !old(showAdd)
    {
      showAdd := !showAdd;
    }

    /** `createPlayer`, as written: the message is never cleared, so a
        success leaves the previous one on screen. A success clears the name
        and the birth date and closes the form but keeps the club; a failure
        keeps the form. The list is reloaded, and a failed reload empties
        it. */
    method CreatePlayer(insert: Ack, reload: Reply<seq<PlayerRow>>) returns (sent: Option<NewChild>)
      modifies this`error, this`creating, this`newName, this`newBirth, this`showAdd, this`players
      ensures sent.Some? <==> old(newName) != "" && old(newClub) != ""
      ensures sent.None? ==>
                error == old(error) && creating == old(creating) && newName == old(newName) &&
                newBirth == old(newBirth) && showAdd == old(showAdd) && players == old(players)
      ensures sent.Some? ==> sent.value == NewChild(old(newName), OrNull(old(newBirth)), old(newClub))
      ensures sent.Some? ==> !creating && error == ErrorAfterInsertAsWritten(old(error), insert)
      ensures sent.Some? && insert.Rejected? ==>
                newName == old(newName) && newBirth == old(newBirth) && showAdd == old(showAdd) && players == old(players)
      ensures sent.Some? && insert.Done? ==>
                newName == "" && newBirth == "" && !showAdd && players == LoadedPlayers(reload)
      ensures newClub == old(newClub) && role == old(role)
    {
      if newName == "" || newClub == "" {
        return None;
      }
      creating := true;
      sent := Some(NewChild(newName, OrNull(newBirth), newClub));
      if insert.Rejected? {
        error := Some(CreateFailed);
        creating := false;
        return;
      }
      newName := "";
      newBirth := "";
      showAdd := false;
      creating := false;
      players := reload.DataOr([]);
    }
  }
}
