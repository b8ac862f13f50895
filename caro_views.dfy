/**
  The request guards of caro_game/views.py around the room-game operations:
  room-name validation and the error-to-status mapping of
  `create_room_caro_game`, the checks of `join_room_caro_game`, the
  participant check of the two abandon views, and the access rules of the
  `caro_game_room` page.
*/
module CaroViews {
  import opened Common
  import opened Caro
  import RoomFlows

  /** The outcome of validating a room name. */
  datatype NameCheck = NameOk(name: string) | NameRejected(message: string)

  /**
    The room-name checks of `create_room_caro_game`
    (caro_game/views.py:198-221): a missing or empty name is required; the
    stripped name must have 3 to 50 characters.
  */
  function ValidateRoomName(raw: Option<string>): (r: NameCheck)
  {
    if raw.None? || raw.value == "" then NameRejected("Room name is required!")
    else
      var name := Strip(raw.value);
      if |name| < 3 then NameRejected("Room name must be at least 3 characters long!")
      else if |name| > 50 then NameRejected("Room name must be less than 50 characters!")
      else NameOk(name)
  }

  /**
    A name is accepted exactly when it is present, non-empty and 3 to 50
    characters long once stripped; it is accepted as its stripped form, and
    whitespace alone is never a name.
  */
  lemma ValidateRoomNameAccepts(raw: Option<string>)
    ensures ValidateRoomName(raw).NameOk? <==> raw.Some? && raw.value != "" && 3 <= |Strip(raw.value)| <= 50
    ensures ValidateRoomName(raw).NameOk? ==> ValidateRoomName(raw).name == Strip(raw.value)
    ensures raw.Some? && raw.value != "" && (forall k :: 0 <= k < |raw.value| ==> IsSpace(raw.value[k])) ==>
      ValidateRoomName(raw) == NameRejected("Room name must be at least 3 characters long!")
  {
  }

  /** An accepted name is accepted again unchanged: validation is a normal form. */
  lemma ValidatedNameIsStable(raw: Option<string>)
    requires ValidateRoomName(raw).NameOk?
    ensures ValidateRoomName(Some(ValidateRoomName(raw).name)) == ValidateRoomName(raw)
  {
    var n := Strip(raw.value);
    assert ValidateRoomName(raw) == NameOk(n);
    StripIdempotent(raw.value);
    assert Strip(n) == n && 3 <= |n| <= 50;
  }

  /** What a view answers: success, or an error with its HTTP status. */
  datatype ViewResult = Success | Failure(status: int, message: string)

  /**
    The status `create_room_caro_game` gives an error from `create_game`
    (caro_game/views.py:248-253): 400 for a busy room, 402 for a payment
    problem, 500 for anything else.
  */
  function StatusFor(error: string): (code: int)
    ensures code == 400 <==> error == "game_in_progress" || error == "game_waiting"
    ensures code == 402 <==> error == "insufficient_balance" || error == "no_wallet"
    ensures code == 400 || code == 402 || code == 500
  {
    if error in {"game_in_progress", "game_waiting"} then 400
    else if error in {"insufficient_balance", "no_wallet"} then 402
    else 500
  }

  /**
    The answer of `create_room_caro_game` for a raw name, given what
    `create_game` replied for the validated name. The creator's own recent
    waiting game comes back without an `error` key and counts as success.
  */
  function CreateView(raw: Option<string>, reply: RoomFlows.Reply): ViewResult
  {
    match ValidateRoomName(raw)
    case NameRejected(message) => Failure(400, message)
    case NameOk(_) =>
      if reply.Refused? then Failure(StatusFor(RoomFlows.ErrorName(reply.error)), RoomFlows.ErrorName(reply.error))
      else Success
  }

  /** The refusals `create_game` can give map to 400 (busy room), 402 (payment) and 500 (unknown user). */
  lemma CreateViewStatuses(raw: Option<string>, e: RoomFlows.Error)
    requires ValidateRoomName(raw).NameOk?
    ensures e == RoomFlows.GameInProgress || e == RoomFlows.GameWaiting ==> CreateView(raw, RoomFlows.Refused(e)).status == 400
    ensures e == RoomFlows.InsufficientBalance || e == RoomFlows.NoWallet ==> CreateView(raw, RoomFlows.Refused(e)).status == 402
    ensures e == RoomFlows.UserNotFound ==> CreateView(raw, RoomFlows.Refused(e)).status == 500
    ensures CreateView(raw, RoomFlows.Refused(e)).Failure?
  {
  }

  /** What the views read from the dictionary `get_active_game` returns. */
  datatype Summary = Summary(id: nat, status: Status, player1: Username, player2: Option<Username>)

  /** The dictionary of a room's active game, as `get_active_game` shows it. */
  function SummaryOf(g: RoomFlows.Lobby, room: string): (s: Option<Summary>)
    reads g, g.rooms.Values
    ensures s.Some? <==> room in g.rooms
  {
    if room in g.rooms then
      var game := g.rooms[room];
      Some(Summary(game.id, game.status, game.player1, game.player2))
    else None
  }

  /**
    The checks `join_room_caro_game` makes before calling `join_game`
    (caro_game/views.py:314-322). `None` means the call goes ahead. The two
    refusals after the 404 carry no status, so they go out as HTTP 200.
  */
  function JoinGuard(active: Option<Summary>, user: Username): Option<ViewResult>
  {
    if active.None? then Some(Failure(404, "No active game found"))
    else if active.value.status != Waiting then Some(Failure(200, "Game is not waiting for players"))
    else if active.value.player1 == user then Some(Failure(200, "You cannot join your own game"))
    else None
  }

  /** The guard lets a join through exactly to a waiting game of someone else. */
  lemma JoinGuardPasses(active: Option<Summary>, user: Username)
    ensures JoinGuard(active, user).None? <==> active.Some? && active.value.status == Waiting && active.value.player1 != user
    ensures JoinGuard(active, user).Some? ==> JoinGuard(active, user).value.Failure?
  {
  }

  /**
    `join_room_caro_game` as written: once past its guard it tests the
    dictionary `join_game` returned for truth, and every dictionary it can
    return is non-empty, so a refused join is reported as a success.
  */
  function JoinViewAsWritten(active: Option<Summary>, user: Username, result: RoomFlows.Reply): ViewResult
  {
    if JoinGuard(active, user).Some? then JoinGuard(active, user).value else Success
  }

  /** A waiting game and a joiner who cannot pay: `join_game` refuses, the view says success. */
  lemma JoinViewAsWrittenHidesRefusal()
    ensures JoinViewAsWritten(Some(Summary(1, Waiting, "ann", None)), "bob", RoomFlows.Refused(RoomFlows.InsufficientBalance)) == Success
  {
  }

  /** `join_room_caro_game` as evidently intended: a refusal from `join_game` is a failure. */
  function JoinView(active: Option<Summary>, user: Username, result: RoomFlows.Reply): ViewResult
  {
    if JoinGuard(active, user).Some? then JoinGuard(active, user).value
    else if result.Refused? then Failure(500, "Failed to join game")
    else Success
  }

  /** The corrected view reports success exactly when the guard passes and `join_game` did not refuse. */
  lemma JoinViewSucceeds(active: Option<Summary>, user: Username, result: RoomFlows.Reply)
    ensures JoinView(active, user, result) == Success <==> JoinGuard(active, user).None? && !result.Refused?
  {
  }

  /**
    The participant test of `abandon_room_caro_game` and
    `abandon_private_caro_game`: the caller is player 1, or player 2 when
    there is one.
  */
  predicate Participant<U(==)>(player1: U, player2: Option<U>, user: U)
  {
    player1 == user || (player2.Some? && player2.value == user)
  }

  /** The checks of the abandon views (caro_game/views.py:416-425 and 159-166); `None` lets the call through. */
  function AbandonGuard<U(==)>(active: Option<(U, Option<U>)>, user: U): (r: Option<ViewResult>)
  {
    if active.None? then Some(Failure(404, "No active game found"))
    else if !Participant(active.value.0, active.value.1, user) then Some(Failure(403, "You are not part of this game"))
    else None
  }

  /**
    Only players get past the abandon guard; on a waiting game (no player 2)
    that is the creator alone, so a stranger never reaches the refund-less
    abandon of `abandon_game` through these views.
  */
  lemma AbandonGuardOnlyPlayers(g: Summary, user: Username)
    ensures AbandonGuard(Some((g.player1, g.player2)), user).None? <==> user == g.player1 || g.player2 == Some(user)
    ensures g.status == Waiting && g.player2.None? && AbandonGuard(Some((g.player1, g.player2)), user).None? ==> user == g.player1
  {
  }

  /** The answer of the abandon views once the guard passes: `abandon_game`'s flag decides. */
  function AbandonView<U(==)>(active: Option<(U, Option<U>)>, user: U, result: bool): (r: ViewResult)
    ensures r == Success <==> AbandonGuard(active, user).None? && result
  {
    if AbandonGuard(active, user).Some? then AbandonGuard(active, user).value
    else if result then Success
    else Failure(500, "Failed to abandon game")
  }

  /**
    The game dictionary `caro_game_room` works with (caro_game/views.py:
    476-488): the active game, or else whatever `create_game` returned. A
    new game is the caller's waiting game; an error dictionary has no
    players and no status, shown here as `None`.
  */
  function PageGame(active: Option<Summary>, created: RoomFlows.Reply, user: Username): Option<Summary>
  {
    if active.Some? then active
    else match created
      case Created(id) => Some(Summary(id, Waiting, user, None))
      case Existing(id) => Some(Summary(id, Waiting, user, None))
      case Joined(id) => None
      case Refused(_) => None
  }

  /** `can_access` (caro_game/views.py:496-500): a player, or anyone while the game waits. */
  predicate CanAccess(game: Option<Summary>, user: Username)
  {
    game.Some? && (user == game.value.player1 || game.value.player2 == Some(user) || game.value.status == Waiting)
  }

  /** `can_play` (caro_game/views.py:518): one of the two players, or player 1 while there is no player 2. */
  predicate CanPlay(game: Option<Summary>, user: Username)
  {
    game.Some? &&
    if game.value.player2.Some? then user in [game.value.player1, game.value.player2.value]
    else user == game.value.player1
  }

  /**
    Playing is exactly being a participant, and a player can always enter
    the page; a failed creation leaves the caller outside the room.
  */
  lemma PageRules(active: Option<Summary>, created: RoomFlows.Reply, user: Username)
    ensures var g := PageGame(active, created, user);
      CanPlay(g, user) <==> g.Some? && Participant(g.value.player1, g.value.player2, user)
    ensures CanPlay(PageGame(active, created, user), user) ==> CanAccess(PageGame(active, created, user), user)
    ensures active.None? && created.Refused? ==> !CanAccess(PageGame(active, created, user), user)
    ensures active.None? && created.Created? ==> CanPlay(PageGame(active, created, user), user)
  {
  }
}
