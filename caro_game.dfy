/**
  The two Caro game records of caro_game/models.py: `CaroGame`, played
  between the two members of a private chat on a fixed board, and
  `RoomCaroGame`, played in a chat room on a board that grows whenever a move
  lands on its outer ring, with a 90/10 split of the players' stakes.
*/
module Caro {
  import opened Common
  import opened Board

  /** The `status` choices of both game records. */
  datatype Status = Waiting | Playing | Finished | Abandoned

  const X: Cell := "X"
  const O: Cell := "O"

  const DefaultBoardSize: nat := 15
  const DefaultWinCondition := 5

  /** The symbol that moves after `s`. */
  function Other(s: Cell): Cell
  {
    if s == X then O else X
  }

  /**
    `get_board`: the stored board when it decodes and has `board_size` rows;
    otherwise (missing, undecodable or of another length) a fresh empty board.
  */
  function StoredOrEmpty(stored: Option<Grid>, size: nat): (b: Grid)
    requires stored.Some? && |stored.value| == size ==> IsSquare(stored.value, size)
    ensures IsSquare(b, size)
    ensures stored.Some? && |stored.value| == size ==> b == stored.value
    ensures !(stored.Some? && |stored.value| == size) ==> b == EmptyBoard(size)
  {
    if stored.None? || |stored.value| != size then EmptyBoard(size) else stored.value
  }

  /** The `game_id` that `CaroGame.save` issues: the chat and the creation time, formatted. */
  function GameIdFor(chatId: string, stamp: string): string
  {
    "caro_" + chatId + "_" + stamp
  }

  /**
    The identifier step of `CaroGame.save` (caro_game/models.py:60-63) as
    written. An unset `game_id` is built from `created_at`, but
    `created_at` is filled in only by the save that follows, so a record
    that is not stored yet has none and the step raises. `stamp` is the
    formatted `created_at` when it is set; `None` as the result stands for
    the AttributeError.
  */
  function SaveIdAsWritten(gameId: string, chatId: string, stamp: Option<string>): (r: Option<string>)
    ensures gameId != [] ==> r == Some(gameId)
    ensures gameId == [] ==> (r.Some? <==> stamp.Some?)
  {
    if gameId != [] then Some(gameId)
    else if stamp.None? then None
    else Some(GameIdFor(chatId, stamp.value))
  }

  /**
    Creating a private game never gets past its first save: a new record has
    neither a `game_id` nor a `created_at`.
  */
  lemma NewGameCannotBeSaved(chatId: string)
    ensures SaveIdAsWritten([], chatId, None).None?
  {
  }

  /**
    The identifier step as intended: an unset `game_id` is stamped with the
    time of the save that creates the record; an issued one is kept.
  */
  function SaveId(gameId: string, chatId: string, now: string): (r: string)
    ensures gameId != [] ==> r == gameId
    ensures gameId == [] ==> StartsWith(r, "caro_" + chatId + "_") && |r| > |chatId|
  {
    if gameId != [] then gameId else GameIdFor(chatId, now)
  }

  /** Saving again keeps the issued id, and the corrected step agrees with the written one once `created_at` is set. */
  lemma SaveIdStable(gameId: string, chatId: string, now: string, later: string)
    ensures SaveId(SaveId(gameId, chatId, now), chatId, later) == SaveId(gameId, chatId, now)
    ensures SaveIdAsWritten(gameId, chatId, Some(now)) == Some(SaveId(gameId, chatId, now))
  {
    if gameId == [] {
      assert |GameIdFor(chatId, now)| > 0;
    }
  }

  /** The private-chat game, a record updated in place by its methods. */
  class CaroGame {
    const chatId: string
    /** `game_id`, issued by the first save. */
    const gameId: string
    const player1: UserId
    var player2: Option<UserId>
    /** `board_state` decoded from JSON; `None` when it does not decode. */
    var boardState: Option<Grid>
    var currentTurn: Cell
    var status: Status
    var winner: Option<UserId>
    var boardSize: nat
    var winCondition: int
    var totalMoves: nat
    var startedAt: Option<int>
    var finishedAt: Option<int>

    ghost predicate Valid()
      reads this
    {
      && (boardState.Some? && |boardState.value| == boardSize ==> IsSquare(boardState.value, boardSize))
      && (currentTurn == X || currentTurn == O)
      && (status == Playing ==> player2.Some?)
      && (winner.Some? ==> status == Finished && (winner == Some(player1) || winner == player2))
    }

    /** The board the game is played on (`get_board`). */
    function GetBoard(): (b: Grid)
      requires Valid()
      reads this
      ensures IsSquare(b, boardSize)
    {
      StoredOrEmpty(boardState, boardSize)
    }

    /** No symbol has a winning run on the current board. */
    ghost predicate Undecided()
      requires Valid()
      reads this
    {
      forall s :: !Wins(GetBoard(), s, winCondition)
    }

    /** The symbol `make_game_move` gives a caller: "X" to player 1, "O" to anyone else. */
    function SymbolOf(player: UserId): Cell
    {
      if player == player1 then X else O
    }

    /**
      `objects.create` (`create_game` passes no second player): a waiting
      game on an empty 15-by-15 board, five in a row to win, X to move, with
      the id the corrected save issues at `now`.
    */
    constructor (chatId: string, player1: UserId, player2: Option<UserId>, now: string)
      ensures Valid() && Undecided()
      ensures this.chatId == chatId && this.player1 == player1 && this.player2 == player2
      ensures gameId == SaveId([], chatId, now)
      ensures status == Waiting && winner.None?
      ensures boardSize == DefaultBoardSize && winCondition == DefaultWinCondition
      ensures GetBoard() == EmptyBoard(DefaultBoardSize)
      ensures currentTurn == X && totalMoves == 0
      ensures startedAt.None? && finishedAt.None?
    {
      this.chatId := chatId;
      this.player1 := player1;
      this.player2 := player2;
      gameId := SaveId([], chatId, now);
      boardState := Some([]);
      currentTurn := X;
      status := Waiting;
      winner := None;
      boardSize := DefaultBoardSize;
      winCondition := DefaultWinCondition;
      totalMoves := 0;
      startedAt := None;
      finishedAt := None;
      new;
      forall s ensures !Wins(GetBoard(), s, winCondition) {
        EmptyBoardHasNoWinner(DefaultBoardSize, s, DefaultWinCondition);
      }
    }

    /**
      `make_move`: accepted exactly when (row, col) is on the board and empty;
      then that one cell holds `symbol` and the move count rises by one.
    */
    method MakeMove(row: int, col: int, symbol: Cell) returns (ok: bool)
      requires Valid()
      modifies this`boardState, this`totalMoves
      ensures Valid()
      ensures ok <==> InBounds(boardSize, row, col) && old(GetBoard())[row][col] == Empty
      ensures ok ==> GetBoard() == Place(old(GetBoard()), row, col, symbol) && totalMoves == old(totalMoves) + 1
      ensures !ok ==> boardState == old(boardState) && totalMoves == old(totalMoves)
    {
      var board := GetBoard();
      if InBounds(boardSize, row, col) && board[row][col] == Empty {
        boardState := Some(Place(board, row, col, symbol));
        totalMoves := totalMoves + 1;
        return true;
      }
      return false;
    }

    /**
      `join_game`: succeeds only on a waiting game with no second player; it
      then seats `player`, starts play and stamps the start time.
    */
    method JoinGame(player: UserId, now: int) returns (ok: bool)
      requires Valid()
      modifies this`player2, this`status, this`startedAt
      ensures Valid()
      ensures ok <==> old(status) == Waiting && old(player2).None?
      ensures ok ==> player2 == Some(player) && status == Playing && startedAt == Some(now)
      ensures !ok ==> player2 == old(player2) && status == old(status) && startedAt == old(startedAt)
    {
      if status != Waiting || player2.Some? {
        return false;
      }
      player2 := Some(player);
      status := Playing;
      startedAt := Some(now);
      return true;
    }

    /**
      `make_game_move`. Refused when the game is not being played, when it is
      not the caller's symbol's turn, or when the cell is off the board or
      taken; each refusal changes nothing. An accepted move places the
      caller's symbol; a winning run then finishes the game, else a full board
      finishes it as a draw, else the turn passes to the other symbol.
    */
    method MakeGameMove(row: int, col: int, player: UserId, now: int) returns (ok: bool, message: string)
      requires Valid()
      modifies this
      ensures Valid()
      ensures player2 == old(player2) && boardSize == old(boardSize) && winCondition == old(winCondition)
      ensures startedAt == old(startedAt)
      ensures old(status) != Playing ==> !ok && message == "Game is not in playing status"
      ensures old(status) == Playing && SymbolOf(player) != old(currentTurn) ==> !ok && message == "Not your turn"
      ensures old(status) == Playing && SymbolOf(player) == old(currentTurn) && !ok ==> message == "Invalid move"
      ensures ok <==>
        && old(status) == Playing && SymbolOf(player) == old(currentTurn)
        && InBounds(boardSize, row, col) && old(GetBoard())[row][col] == Empty
      ensures !ok ==> unchanged(this)
      ensures ok ==> message == "Move successful" && totalMoves == old(totalMoves) + 1
      ensures ok ==> GetBoard() == Place(old(GetBoard()), row, col, SymbolOf(player))
      ensures ok ==> (status == Finished <==> (exists s :: Wins(GetBoard(), s, winCondition)) || IsFull(GetBoard()))
      ensures ok && status == Playing ==> currentTurn == Other(old(currentTurn)) && winner.None? && finishedAt == old(finishedAt)
      ensures ok && status == Finished ==> currentTurn == old(currentTurn) && finishedAt == Some(now)
      ensures ok && old(Undecided()) ==>
        (winner.Some? <==> Wins(GetBoard(), SymbolOf(player), winCondition))
      ensures ok && old(Undecided()) && winner.Some? ==>
        winner == if SymbolOf(player) == X then Some(player1) else player2
      ensures ok && old(Undecided()) && status == Playing ==> Undecided()
    {
      if status != Playing {
        return false, "Game is not in playing status";
      }
      var symbol := SymbolOf(player);
      if symbol != currentTurn {
        return false, "Not your turn";
      }
      ghost var before := GetBoard();
      ghost var wasUndecided := Undecided();
      var moved := MakeMove(row, col, symbol);
      if !moved {
        return false, "Invalid move";
      }
      var board := GetBoard();
      var winnerSymbol := Board.CheckWinner(board, winCondition);
      if wasUndecided && winnerSymbol.Some? && winnerSymbol.value != symbol {
        PlaceOnlyMoverWins(before, row, col, symbol, winnerSymbol.value, winCondition);
        assert false;
      }
      if winnerSymbol.Some? {
        status := Finished;
        winner := if winnerSymbol.value == X then Some(player1) else player2;
        finishedAt := Some(now);
      } else {
        var full := Board.IsBoardFull(board);
        if full {
          status := Finished;
          finishedAt := Some(now);
        } else {
          currentTurn := Other(symbol);
        }
      }
      return true, "Move successful";
    }

    /**
      `abandon_game`: only a waiting or playing game can be abandoned; it then
      becomes abandoned with its finish time stamped. The "other player wins"
      branch tests the status after overwriting it with "abandoned", so it
      never runs: no winner is ever recorded.
    */
    method AbandonGame(player: UserId, now: int) returns (ok: bool)
      requires Valid()
      modifies this`status, this`finishedAt, this`winner
      ensures Valid()
      ensures ok <==> old(status) == Waiting || old(status) == Playing
      ensures ok ==> status == Abandoned && finishedAt == Some(now)
      ensures !ok ==> status == old(status) && finishedAt == old(finishedAt)
      ensures winner == old(winner)
    {
      if status != Waiting && status != Playing {
        return false;
      }
      status := Abandoned;
      finishedAt := Some(now);
      // The source's "other player wins" test reads the status just overwritten.
      ghost var otherPlayerWins := status == Playing && player2.Some?;
      assert !otherPlayerWins;
      return true;
    }
  }

  // ---------------------------------------------------------------------
  // The room game and its stakes
  // ---------------------------------------------------------------------

  /** A user of a chat room, known there by username. */
  type Username = string

  const DefaultBet := 10000

  /** `int(x * 0.9)`: ninety per cent of `x`, truncated toward zero. */
  function NinetyPercent(x: int): int
  {
    if x >= 0 then x * 9 / 10 else -((-x) * 9 / 10)
  }

  /** The betting fields of a room game. */
  datatype Stakes = Stakes(bet: int, pot: int, prize: int, fee: int)

  /**
    The betting step of `RoomCaroGame.save`: once there is a bet and no pot
    yet, the pot is both stakes, the winner's prize ninety per cent of it and
    the house fee the rest; otherwise the fields are left as they are.
  */
  function SettleStakes(s: Stakes): Stakes
  {
    if s.bet != 0 && s.pot == 0 then
      var pot := s.bet * 2;
      var prize := NinetyPercent(pot);
      Stakes(s.bet, pot, prize, pot - prize)
    else s
  }

  /** The split is exact (prize plus fee is the pot) and the prize is ninety per cent of it, rounded down. */
  lemma SettleStakesSplit(s: Stakes)
    requires s.bet > 0 && s.pot == 0
    ensures SettleStakes(s).pot == 2 * s.bet
    ensures SettleStakes(s).prize + SettleStakes(s).fee == SettleStakes(s).pot
    ensures 10 * SettleStakes(s).prize <= 9 * SettleStakes(s).pot < 10 * SettleStakes(s).prize + 10
    ensures 0 < SettleStakes(s).fee <= SettleStakes(s).prize
  {
  }

  /** Saving again never recomputes the split: it is fixed when the game is first stored. */
  lemma SettleStakesIdempotent(s: Stakes)
    ensures SettleStakes(SettleStakes(s)) == SettleStakes(s)
  {
  }

  /**
    A bet that is a multiple of 5 splits with no rounding: the winner gets
    nine fifths of the bet and the house one fifth. The default stake of
    10000 each is one: a pot of 20000, 18000 to the winner, 2000 to the
    house.
  */
  lemma DefaultStakes(bet: int)
    requires bet > 0 && bet % 5 == 0
    ensures SettleStakes(Stakes(bet, 0, 0, 0)) == Stakes(bet, 2 * bet, 9 * (bet / 5), bet / 5)
    ensures SettleStakes(Stakes(DefaultBet, 0, 0, 0)) == Stakes(10000, 20000, 18000, 2000)
  {
    var k := bet / 5;
    assert bet == 5 * k;
    assert (2 * bet) * 9 == 10 * (9 * k);
    assert NinetyPercent(2 * bet) == 9 * k;
  }

  /**
    The placement step of `RoomCaroGame.make_move`: a move on the outer ring
    first grows the board by `_expand_board` and shifts the move by (+1, +1).
  */
  method PlaceGrowing(board: Grid, row: nat, col: nat, symbol: Cell) returns (b: Grid)
    requires IsSquare(board, |board|) && InBounds(|board|, row, col)
    ensures b == RoomPlace(board, row, col, symbol)
  {
    if OnEdge(|board|, row, col) {
      var expanded := ExpandBoard(board);
      b := Place(expanded, row + 1, col + 1, symbol);
    } else {
      b := Place(board, row, col, symbol);
    }
  }

  /** What a room game shows of itself: its board, counters, players, stakes, rule and turn. */
  datatype GameView = GameView(
    board: Grid, totalMoves: nat, player2: Option<Username>, stake: Stakes,
    winCondition: int, status: Status, winner: Option<Username>, currentTurn: Cell)

  /**
    A move for `symbol` at (row, col) went onto the board: the board is the
    `RoomPlace` of the old one, one more move is counted, and the players,
    stakes and rule are as they were.
  */
  predicate Placed(before: GameView, after: GameView, row: int, col: int, symbol: Cell)
  {
    && IsSquare(before.board, |before.board|) && InBounds(|before.board|, row, col)
    && after.board == RoomPlace(before.board, row, col, symbol)
    && after.totalMoves == before.totalMoves + 1
    && after.player2 == before.player2 && after.stake == before.stake && after.winCondition == before.winCondition
  }

  /** A placed move that wins nothing: the game stays in play and the other symbol moves next. */
  predicate Continued(before: GameView, after: GameView, row: int, col: int, symbol: Cell)
  {
    && Placed(before, after, row, col, symbol)
    && after.status == Playing && after.winner == before.winner && after.currentTurn == Other(symbol)
  }

  /** A placed winning move: the game is finished with `winner` named, and the turn stays. */
  predicate Won(before: GameView, after: GameView, row: int, col: int, symbol: Cell, winner: Username)
  {
    && Placed(before, after, row, col, symbol)
    && after.status == Finished && after.winner == Some(winner) && after.currentTurn == before.currentTurn
  }

  /** The room game, a record updated in place by its methods. */
  class RoomCaroGame {
    /** The primary key. */
    const id: nat
    const roomName: string
    const player1: Username
    const createdAt: int
    var player2: Option<Username>
    /** `board_state` decoded from JSON; `None` when it does not decode. */
    var boardState: Option<Grid>
    var currentTurn: Cell
    var status: Status
    var winner: Option<Username>
    const betAmount: int
    var totalPot: int
    var winnerPrize: int
    var houseFee: int
    var boardSize: nat
    var winCondition: int
    var totalMoves: nat
    var finishedAt: Option<int>

    function Stake(): Stakes
      reads this
    {
      Stakes(betAmount, totalPot, winnerPrize, houseFee)
    }

    /** The stored board, when it has the stored size, is square, and the board played on has an empty outer ring. */
    ghost predicate BoardValid()
      reads this`boardState, this`boardSize
    {
      && (boardState.Some? && |boardState.value| == boardSize ==> IsSquare(boardState.value, boardSize))
      && RingEmpty(StoredOrEmpty(boardState, boardSize))
    }

    ghost predicate Valid()
      reads this
    {
      && BoardValid()
      && (currentTurn == X || currentTurn == O)
      && (status == Waiting ==> player2.None?)
      && (status == Playing ==> player2.Some?)
      && (winner.Some? ==> status == Finished)
      && Stake() == SettleStakes(Stake())
    }

    /** The board the game is played on (`get_board`); its outer ring is always empty. */
    function GetBoard(): (b: Grid)
      requires BoardValid()
      reads this`boardState, this`boardSize
      ensures IsSquare(b, boardSize) && RingEmpty(b)
    {
      StoredOrEmpty(boardState, boardSize)
    }

    /** The game as a value. */
    function View(): (v: GameView)
      requires BoardValid()
      reads this
      ensures v.board == GetBoard() && IsSquare(v.board, boardSize)
    {
      GameView(GetBoard(), totalMoves, player2, Stake(), winCondition, status, winner, currentTurn)
    }

    /** No symbol has a winning run on the current board. */
    ghost predicate Undecided()
      requires BoardValid()
      reads this`boardState, this`boardSize, this`winCondition
    {
      forall s :: !Wins(GetBoard(), s, winCondition)
    }

    /** The symbol the module-level `make_move` gives a caller: "X" to player 1, "O" to anyone else. */
    function SymbolOf(player: Username): Cell
    {
      if player == player1 then X else O
    }

    /**
      Who the module-level `make_move` names winner for a winning symbol:
      player 1 for "X", player 2 (if any) for "O".
    */
    function WinnerFor(symbol: Cell): Option<Username>
      reads this
    {
      if symbol == X then Some(player1) else player2
    }

    /**
      A new room game as `create_game` stores it: waiting, board "[]" (so an
      empty 15-by-15 board), five in a row, X to move, the default stake, and
      the pot split that `save` computes.
    */
    constructor (id: nat, roomName: string, player1: Username, now: int)
      ensures Valid()
      ensures this.id == id && this.roomName == roomName && this.player1 == player1 && createdAt == now
      ensures status == Waiting && player2.None? && winner.None? && finishedAt.None?
      ensures boardSize == DefaultBoardSize && winCondition == DefaultWinCondition
      ensures GetBoard() == EmptyBoard(DefaultBoardSize) && Undecided()
      ensures currentTurn == X && totalMoves == 0
      ensures Stake() == SettleStakes(Stakes(DefaultBet, 0, 0, 0))
    {
      this.id := id;
      this.roomName := roomName;
      this.player1 := player1;
      createdAt := now;
      player2 := None;
      boardState := Some([]);
      currentTurn := X;
      status := Waiting;
      winner := None;
      betAmount := DefaultBet;
      totalPot := 0;
      winnerPrize := 0;
      houseFee := 0;
      boardSize := DefaultBoardSize;
      winCondition := DefaultWinCondition;
      totalMoves := 0;
      finishedAt := None;
      new;
      Save();
      forall s ensures !Wins(GetBoard(), s, winCondition) {
        EmptyBoardHasNoWinner(DefaultBoardSize, s, DefaultWinCondition);
      }
    }

    /** The betting step of `save`. */
    method Save()
      modifies this`totalPot, this`winnerPrize, this`houseFee
      ensures Stake() == SettleStakes(old(Stake()))
    {
      if betAmount != 0 && totalPot == 0 {
        totalPot := betAmount * 2;
        winnerPrize := NinetyPercent(totalPot);
        houseFee := totalPot - winnerPrize;
      }
    }

    /**
      The seating step of the module-level `join_game`: the game gets its
      second player and is in play; `save` leaves the settled pot alone.
    */
    method Seat(player: Username)
      requires Valid() && status == Waiting
      modifies this`player2, this`status, this`totalPot, this`winnerPrize, this`houseFee
      ensures Valid() && View() == old(View()).(player2 := Some(player), status := Playing)
      ensures old(Undecided()) ==> Undecided()
    {
      player2 := Some(player);
      status := Playing;
      Save();
    }

    /**
      `make_move` with auto-expansion: accepted exactly when (row, col) is on
      the current board and empty; the board then becomes `RoomPlace` of the
      old one (grown by a ring when the move is on the edge), `board_size`
      follows the new board and the move count rises by one.
    */
    method MakeMove(row: int, col: int, symbol: Cell) returns (ok: bool)
      requires Valid()
      modifies this`boardState, this`boardSize, this`totalMoves
      ensures Valid()
      ensures ok <==> InBounds(old(boardSize), row, col) && old(GetBoard())[row][col] == Empty
      ensures ok ==> GetBoard() == RoomPlace(old(GetBoard()), row, col, symbol) && totalMoves == old(totalMoves) + 1
      ensures !ok ==> boardState == old(boardState) && boardSize == old(boardSize) && totalMoves == old(totalMoves)
    {
      var board := GetBoard();
      var currentSize := |board|;
      if row < 0 || row >= currentSize || col < 0 || col >= currentSize {
        return false;
      }
      if board[row][col] != Empty {
        return false;
      }
      var grown := PlaceGrowing(board, row, col, symbol);
      RoomPlaceKeepsRingEmpty(board, row, col, symbol);
      boardState := Some(grown);
      boardSize := |grown|;
      totalMoves := totalMoves + 1;
      return true;
    }

    /** A move accepted by `make_move` that wins nothing: the turn passes to the other symbol. */
    method Advance(row: int, col: int, symbol: Cell)
      requires Valid() && status == Playing && InBounds(boardSize, row, col) && GetBoard()[row][col] == Empty
      requires forall s :: !Wins(RoomPlace(GetBoard(), row, col, symbol), s, winCondition)
      modifies this`boardState, this`boardSize, this`totalMoves, this`currentTurn, this`totalPot, this`winnerPrize, this`houseFee
      ensures Valid() && Undecided() && Stake() == old(Stake())
      ensures Continued(old(View()), View(), row, col, symbol)
    {
      ghost var before := GetBoard();
      var ok := MakeMove(row, col, symbol);
      ghost var after := GetBoard();
      assert after == RoomPlace(before, row, col, symbol);
      currentTurn := Other(symbol);
      Save();
      assert GetBoard() == after;
      forall s
        ensures !Wins(GetBoard(), s, winCondition)
      {
        assert !Wins(RoomPlace(before, row, col, symbol), s, winCondition);
      }
    }

    /** A winning move accepted by `make_move`: the game is finished with `winner` named; the turn stays. */
    method Conclude(row: int, col: int, symbol: Cell, winner: Username)
      requires Valid() && InBounds(boardSize, row, col) && GetBoard()[row][col] == Empty
      modifies this`boardState, this`boardSize, this`totalMoves, this`status, this`winner, this`totalPot, this`winnerPrize, this`houseFee
      ensures Valid() && Stake() == old(Stake())
      ensures Won(old(View()), View(), row, col, symbol, winner)
    {
      ghost var before := GetBoard();
      var ok := MakeMove(row, col, symbol);
      ghost var after := GetBoard();
      assert after == RoomPlace(before, row, col, symbol);
      status := Finished;
      this.winner := Some(winner);
      Save();
      assert GetBoard() == after;
    }

    /** The last step of `abandon_game`: the status becomes abandoned and `save` keeps the settled pot. */
    method Abandon()
      requires Valid() && status != Finished
      modifies this`status, this`totalPot, this`winnerPrize, this`houseFee
      ensures Valid() && View() == old(View()).(status := Abandoned)
    {
      status := Abandoned;
      Save();
    }
  }
}
