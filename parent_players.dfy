/** The parent's children screen of the parent area: loaded for parents
    only, with a form that inserts a child under the signed-in parent in
    the club of the context. The one message line carries the errors and
    also the success text. */
module ParentPlayers {
  import opened Common
  import opened Players

  const MissingData: string := "Faltan datos requeridos."
  const CreatedText: string := "Jugador creado correctamente."

  /** The insert's outcome: stored, refused with an optional message, or
      an exception with its text. */
  datatype InsertReply = InsertOk | InsertError(message: Option<string>) | InsertThrew(text: string)

  /** The row inserted. */
  datatype ParentChild = ParentChild(fullName: string, birthDate: Option<string>, parentUserId: string, clubId: string)

  /** What a refused insert shows: the database's message or 'Desconocido'. */
  function InsertErrorText(message: Option<string>): (t: string)
    ensures Present(message) ==> t == "Error al crear jugador: " + message.value
    ensures !Present(message) ==> t == "Error al crear jugador: Desconocido"
  {
    "Error al crear jugador: " + (if Present(message) then message.value else "Desconocido")
  }

  /** The club line of a card: `club?.name ?? '—'`, so a club with an
      empty name shows an empty line rather than the dash. */
  function ClubLine(clubName: Option<string>): (t: string)
    ensures clubName.Some? ==> t == clubName.value
    ensures clubName.None? ==> t == "—"
  {
    if clubName.Some? then clubName.value else "—"
  }

  /** The message after `createPlayer` passed its checks: the success text
      exactly when the row was stored. */
  function MessageAfter(reply: InsertReply): (m: string)
    ensures m == CreatedText <==> reply.InsertOk?
    ensures reply.InsertError? ==> m == InsertErrorText(reply.message)
    ensures reply.InsertThrew? ==> m == "Error inesperado: " + reply.text
  {
    match reply
    case InsertOk => CreatedText
    case InsertError(message) =>
      var t := InsertErrorText(message);
      assert t[0] != CreatedText[0];
      t
    case InsertThrew(text) =>
      var t := "Error inesperado: " + text;
      assert t[1] != CreatedText[1];
      t
  }

  class ParentPlayersScreen {
    var role: Option<Role>
    var players: seq<PlayerRow>
    var loading: bool
    var error: Option<string>
    var showAdd: bool
    var newName: string
    var newBirth: string
    var creating: bool

    constructor (role: Option<Role>)
      ensures this.role == role && players == [] && loading && error.None?
      ensures !showAdd && newName == "" && newBirth == "" && !creating
    {
      this.role := role;
      players := [];
      loading := true;
      error := None;
      showAdd := false;
      newName := "";
      newBirth := "";
      creating := false;
    }

    /** The load effect, for parents only; the same as on the other
        children screen. */
    method Load(reply: Reply<seq<PlayerRow>>)
      modifies this`players, this`loading, this`error
      ensures !ForParents(role) ==> players == old(players) && loading == old(loading) && error == old(error)
      ensures ForParents(role) ==> players == LoadedPlayers(reply) && error == LoadError(reply) && !loading
    {
      if !ForParents(role) {
        return;
      }
      loading := true;
      error := None;
      if reply.Failed? {
        error := Some(LoadFailed);
      }
      players := reply.DataOr([]);
      loading := false;
    }

    /** `createPlayer`. Without a name, a signed-in user or a club it only
        shows the missing-data message (and an alert). Otherwise it inserts
        the row; a refusal or an exception keeps the form and shows why; a
        success clears and closes the form, shows the success text and
        reloads the list, a failed reload leaving it empty. `creating` is
        false at the end of every path that set it. */
    method CreatePlayer(userId: Option<string>, clubId: Option<string>, reply: InsertReply, reload: Reply<seq<PlayerRow>>)
      returns (sent: Option<ParentChild>)
      modifies this`error, this`creating, this`newName, this`newBirth, this`showAdd, this`players
      ensures sent.Some? <==> old(newName) != "" && Present(userId) && Present(clubId)
      ensures sent.None? ==>
                error == Some(MissingData) && creating == old(creating) && newName == old(newName) &&
                newBirth == old(newBirth) && showAdd == old(showAdd) && players == old(players)
      ensures sent.Some? ==> sent.value == ParentChild(old(newName), OrNull(old(newBirth)), userId.value, clubId.value)
      ensures sent.Some? ==> !creating && error == Some(MessageAfter(reply))
      ensures sent.Some? && !reply.InsertOk? ==>
                newName == old(newName) && newBirth == old(newBirth) && showAdd == old(showAdd) && players == old(players)
      ensures sent.Some? && reply.InsertOk? ==>
                newName == "" && newBirth == "" && !showAdd && players == LoadedPlayers(reload)
      ensures role == old(role)
    {
      if newName == "" || !Present(userId) || !Present(clubId) {
        error := Some(MissingData);
        return None;
      }
      creating := true;
      error := None;
      sent := Some(ParentChild(newName, OrNull(newBirth), userId.value, clubId.value));
      match reply {
        case InsertError(message) =>
          error := Some(InsertErrorText(message));
          creating := false;
          return;
        case InsertThrew(text) =>
          error := Some("Error inesperado: " + text);
        case InsertOk =>
          newName := "";
          newBirth := "";
          showAdd := false;
          error := Some(CreatedText);
          players := reload.DataOr([]);
      }
      creating := false;
    }
  }
}
