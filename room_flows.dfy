/**
  The room-game operations of caro_game/models.py (`create_game`,
  `join_game`, `make_move`, `abandon_game`): each player stakes 10000 from
  their wallet, the winner is paid the prize of the pot, and an abandoned
  game refunds the stakes.

  The database is a `Lobby`: the registered usernames, a `Bank` of wallets,
  and the active (waiting or playing) room game of each room. A game that
  finishes or is abandoned leaves that index, which is what the
  `status__in=['waiting', 'playing']` filter of the source sees.
*/
module RoomFlows {
  import opened Common
  import opened Board
  import opened Ledger
  import opened Caro

  /** The fixed stake of `create_game` and `join_game`, and the refund of `abandon_game`. */
  const Stake := 10000

  /** A waiting game older than this many seconds is cleared by the next `create_game` in its room. */
  const ExpiryAge := 600

  /** The `error` codes the operations return. */
  datatype Error =
    | UserNotFound | GameInProgress | GameWaiting | InsufficientBalance | NoWallet
    | NoGame | OwnGame

  /** The `error` string of each code. */
  function ErrorName(e: Error): string
  {
    match e
    case UserNotFound => "user_not_found"
    case GameInProgress => "game_in_progress"
    case GameWaiting => "game_waiting"
    case InsufficientBalance => "insufficient_balance"
    case NoWallet => "no_wallet"
    case NoGame => "no_game"
    case OwnGame => "own_game"
  }

  /** What `create_game` and `join_game` hand back. */
  datatype Reply = Created(id: nat) | Existing(id: nat) | Joined(id: nat) | Refused(error: Error)

  /** The active game a room holds, as `create_game` sorts it (caro_game/models.py:484-520). */
  datatype Pending = NoActive | InProgress(id: nat) | Recent(id: nat, owner: Username) | Expired(id: nat, owner: Username)

  function BetNote(room: string): string { "Bet for Caro game in room " + room }
  function ExpiredNote(room: string): string { "Refund for expired game in room " + room }
  function AbandonNote(room: string): string { "Refund for abandoned Caro game in room " + room }
  function WinNote(room: string): string { "Won Caro game in room " + room }

  /** `add_balance` on the wallet of `u`, when `u` has one. */
  function CreditIn(m: map<Username, Account>, u: Username, amount: int, kind: string, note: string, game: Option<nat>): map<Username, Account>
  {
    if u in m then m[u := Credit(m[u], amount, kind, note, game)] else m
  }

  /**
    The refunds of `abandon_game` (caro_game/models.py:713-745) for a game in
    `status` with players `p1` and `p2`, abandoned by `player`: a waiting
    game refunds its creator only when the creator abandons it, a game in
    play refunds both players; each refund is a `caro_refund` record against
    the game.
  */
  function AbandonRefunds(m: map<Username, Account>, status: Status, p1: Username, p2: Option<Username>, player: Username, room: string, id: nat): map<Username, Account>
  {
    if status == Waiting && player == p1 then CreditIn(m, p1, Stake, "caro_refund", AbandonNote(room), Some(id))
    else if status == Playing && p2.Some? then
      CreditIn(CreditIn(m, p1, Stake, "caro_refund", AbandonNote(room), Some(id)), p2.value, Stake, "caro_refund", AbandonNote(room), Some(id))
    else m
  }

  /** Whether `abandon_game` gives `u` a stake back. */
  predicate RefundedBy(status: Status, p1: Username, p2: Option<Username>, player: Username, u: Username)
  {
    || (status == Waiting && player == p1 && u == p1)
    || (status == Playing && p2.Some? && (u == p1 || u == p2.value))
  }

  /**
    User by user, the refunds add one stake to exactly the users
    `RefundedBy` names and leave every other account as it was: a waiting
    game abandoned by anyone but its creator refunds nobody.
  */
  lemma AbandonRefundsPerUser(m: map<Username, Account>, status: Status, p1: Username, p2: Option<Username>, player: Username, room: string, id: nat, u: Username)
    requires p1 in m && (p2.Some? ==> p2.value in m && p2.value != p1)
    ensures AbandonRefunds(m, status, p1, p2, player, room, id).Keys == m.Keys
    ensures u in m ==> AbandonRefunds(m, status, p1, p2, player, room, id)[u].balance == m[u].balance + (if RefundedBy(status, p1, p2, player, u) then Stake else 0)
    ensures u in m && !RefundedBy(status, p1, p2, player, u) ==> AbandonRefunds(m, status, p1, p2, player, room, id)[u] == m[u]
  {
  }

  /**
    Both bets of a game, then its abandonment while in play: every balance
    is what it was before the game was created.
  */
  lemma BetsThenAbandonRestore(m: map<Username, Account>, p1: Username, p2: Username, room: string, id: nat, leaver: Username, u: Username)
    requires p1 != p2 && p1 in m && p2 in m && m[p1].balance >= Stake && m[p2].balance >= Stake
    requires u in m
    ensures var created := m[p1 := Debit(m[p1], Stake, "caro_bet", BetNote(room), None).value];
      var joined := created[p2 := Debit(created[p2], Stake, "caro_bet", BetNote(room), Some(id)).value];
      var after := AbandonRefunds(joined, Playing, p1, Some(p2), leaver, room, id);
      u in after && after[u].balance == m[u].balance
  {
    var created := m[p1 := Debit(m[p1], Stake, "caro_bet", BetNote(room), None).value];
    var joined := created[p2 := Debit(created[p2], Stake, "caro_bet", BetNote(room), Some(id)).value];
    AbandonRefundsPerUser(joined, Playing, p1, Some(p2), leaver, room, id, u);
  }

  /**
    A game played out with the default stakes: the winner ends 8000 up, the
    loser 10000 down, and the two together have lost the house fee.
  */
  lemma SettledGameNet(w: Account, l: Account, room: string, id: nat)
    requires w.balance >= Stake && l.balance >= Stake
    ensures var s := SettleStakes(Stakes(DefaultBet, 0, 0, 0));
      var w' := Credit(Debit(w, Stake, "caro_bet", BetNote(room), None).value, s.prize, "caro_win", WinNote(room), Some(id));
      var l' := Debit(l, Stake, "caro_bet", BetNote(room), Some(id)).value;
      && w'.balance == w.balance + 8000
      && l'.balance == l.balance - Stake
      && w'.balance + l'.balance == w.balance + l.balance - s.fee
  {
    DefaultStakes(DefaultBet);
  }

  /** An active room game: consistent, waiting or playing, two distinct players, the default stakes, no winning run yet. */
  ghost predicate Active(g: RoomCaroGame)
    reads g
  {
    && g.Valid()
    && (g.status == Waiting || g.status == Playing)
    && g.player2 != Some(g.player1)
    && g.Stake() == SettleStakes(Stakes(DefaultBet, 0, 0, 0))
    && g.Undecided()
  }

  /** The users' wallets (`Wallet.objects`), one per user. */
  class Bank {
    var wallets: map<Username, Wallet>
    /** The value of every wallet, kept beside the objects. */
    ghost var accounts: map<Username, Account>

    /** Every wallet keeps its ledger consistent, no two users share one, and `accounts` mirrors them. */
    ghost predicate Valid()
      reads this, wallets.Values
    {
      && accounts.Keys == wallets.Keys
      && (forall u :: u in wallets ==> wallets[u].State() == accounts[u])
      && (forall u {:trigger Consistent(accounts[u])} :: u in accounts ==> Consistent(accounts[u]))
      && (forall u, v :: u in wallets && v in wallets && u != v ==> wallets[u] != wallets[v])
    }

    /** The wallet of `u`, when there is one, as a frame. */
    function WalletOf(u: Username): set<Wallet>
      reads this
    {
      if u in wallets then {wallets[u]} else {}
    }

    /** The wallet of the second player `p`, when there is one, as a frame. */
    function Partner(p: Option<Username>): set<Wallet>
      reads this
    {
      if p.Some? then WalletOf(p.value) else {}
    }

    /** `add_balance` on the wallet of `u` when there is one; no other wallet changes. */
    method Pay(u: Username, amount: int, kind: string, note: string, game: Option<nat>)
      requires Valid()
      modifies this`accounts, WalletOf(u)`balance, WalletOf(u)`transactions
      ensures Valid() && wallets == old(wallets)
      ensures accounts == CreditIn(old(accounts), u, amount, kind, note, game)
    {
      if u in wallets {
        var w := wallets[u];
        var _ := w.AddBalance(amount, kind, note, game);
        accounts := accounts[u := w.State()];
        forall v | v in wallets && v != u
          ensures wallets[v].State() == old(wallets[v].State())
        {
          assert wallets[v] != w;
        }
      }
    }

    /** `add_balance` on the wallets of `u` and then `v`. */
    method PayBoth(u: Username, v: Username, amount: int, kind: string, note: string, game: Option<nat>)
      requires Valid()
      modifies this`accounts, WalletOf(u)`balance, WalletOf(u)`transactions, WalletOf(v)`balance, WalletOf(v)`transactions
      ensures Valid() && wallets == old(wallets)
      ensures accounts == CreditIn(CreditIn(old(accounts), u, amount, kind, note, game), v, amount, kind, note, game)
    {
      Pay(u, amount, kind, note, game);
      Pay(v, amount, kind, note, game);
    }

    /** The refunds of `abandon_game` for a game in `status` between `p1` and `p2`, abandoned by `player`. */
    method Refund(status: Status, p1: Username, p2: Option<Username>, player: Username, room: string, id: nat)
      requires Valid()
      modifies this`accounts, WalletOf(p1)`balance, WalletOf(p1)`transactions, Partner(p2)`balance, Partner(p2)`transactions
      ensures Valid() && wallets == old(wallets)
      ensures accounts == AbandonRefunds(old(accounts), status, p1, p2, player, room, id)
    {
      if status == Waiting && player == p1 {
        Pay(p1, Stake, "caro_refund", AbandonNote(room), Some(id));
      } else if status == Playing && p2.Some? {
        PayBoth(p1, p2.value, Stake, "caro_refund", AbandonNote(room), Some(id));
      }
    }

    /**
      `deduct_balance` on the wallet of `u` right after `has_sufficient_balance`
      said yes: it cannot raise, so the `payment_failed` replies of
      `create_game` and `join_game` are unreachable.
    */
    method Charge(u: Username, amount: int, kind: string, note: string, game: Option<nat>)
      requires Valid() && u in wallets && accounts[u].balance >= amount
      modifies this`accounts, WalletOf(u)`balance, WalletOf(u)`transactions
      ensures Valid() && wallets == old(wallets)
      ensures accounts == old(accounts)[u := Debit(old(accounts)[u], amount, kind, note, game).value]
    {
      var w := wallets[u];
      var raised := w.DeductBalance(amount, kind, note, game);
      assert !raised;
      accounts := accounts[u := w.State()];
      forall v | v in wallets && v != u
        ensures wallets[v].State() == old(wallets[v].State())
      {
        assert wallets[v] != w;
      }
    }
  }

  class Lobby {
    /** The registered usernames (`User.objects`). */
    const users: set<Username>
    const bank: Bank
    /** The active game of each room. */
    var rooms: map<string, RoomCaroGame>
    /** The next primary key. */
    var nextId: nat

    ghost predicate Valid()
      reads this, bank, bank.wallets.Values, rooms.Values
    {
      bank.Valid() && GamesValid()
    }

    /** Every indexed game is active, sits under its own room name, and has its own id below `nextId`. */
    ghost predicate GamesValid()
      reads this, rooms.Values
    {
      && (forall r :: r in rooms ==> rooms[r].roomName == r && rooms[r].id < nextId && Active(rooms[r]))
      && (forall r, q :: r in rooms && q in rooms && r != q ==> rooms[r].id != rooms[q].id)
    }

    /** A database of the given users and wallets with no room game yet. */
    constructor (users: set<Username>, bank: Bank)
      requires bank.Valid()
      ensures Valid() && this.users == users && this.bank == bank && rooms == map[]
    {
      this.users := users;
      this.bank := bank;
      rooms := map[];
      nextId := 0;
    }

    /** The room's active game, as a set for frames. */
    function GameOf(room: string): set<RoomCaroGame>
      reads this
    {
      if room in rooms then {rooms[room]} else {}
    }

    /** The room's active game, classified as `create_game` does. */
    function Classify(room: string, now: int): Pending
      reads this, rooms.Values
    {
      if room !in rooms then NoActive
      else
        var g := rooms[room];
        if g.status == Playing then InProgress(g.id)
        else if g.status == Waiting then
          if now - g.createdAt > ExpiryAge then Expired(g.id, g.player1) else Recent(g.id, g.player1)
        else NoActive
    }

    /** Distinct rooms hold distinct game objects, since their ids differ. */
    lemma DistinctGames(room: string)
      requires GamesValid() && room in rooms
      ensures forall q :: q in rooms && q != room ==> rooms[q] != rooms[room]
    {
    }

    /** Nothing observable changed: accounts, the active games and the id counter. */
    twostate predicate Untouched()
      reads this, bank, rooms.Values
    {
      bank.accounts == old(bank.accounts) && rooms == old(rooms) && nextId == old(nextId)
    }

    /** `Bank.Pay` on behalf of a game flow; no game and no index changes. */
    method Pay(u: Username, amount: int, kind: string, note: string, game: Option<nat>)
      requires Valid()
      modifies bank`accounts, bank.WalletOf(u)`balance, bank.WalletOf(u)`transactions
      ensures Valid()
      ensures bank.accounts == CreditIn(old(bank.accounts), u, amount, kind, note, game)
    {
      bank.Pay(u, amount, kind, note, game);
    }

    /** The stake debited from `u` with a `caro_bet` record, through `Bank.Charge`. */
    method Charge(u: Username, note: string, game: Option<nat>)
      requires Valid() && u in bank.accounts && bank.accounts[u].balance >= Stake
      modifies bank`accounts, bank.WalletOf(u)`balance, bank.WalletOf(u)`transactions
      ensures Valid()
      ensures bank.accounts == old(bank.accounts)[u := Debit(old(bank.accounts)[u], Stake, "caro_bet", note, game).value]
    {
      bank.Charge(u, Stake, "caro_bet", note, game);
    }

    /** `Bank.Refund` on behalf of `abandon_game`. */
    method Refund(status: Status, p1: Username, p2: Option<Username>, player: Username, room: string, id: nat)
      requires Valid()
      modifies bank`accounts, bank.WalletOf(p1)`balance, bank.WalletOf(p1)`transactions, bank.Partner(p2)`balance, bank.Partner(p2)`transactions
      ensures Valid()
      ensures bank.accounts == AbandonRefunds(old(bank.accounts), status, p1, p2, player, room, id)
    {
      bank.Refund(status, p1, p2, player, room, id);
    }

    /** The active game of `room` leaves the index (it is deleted, finished or abandoned). */
    method Retire(room: string)
      requires Valid() && room in rooms
      modifies this
      ensures Valid()
      ensures rooms == old(rooms) - {room} && nextId == old(nextId)
      ensures old(rooms[room]) !in rooms.Values
    {
      DistinctGames(room);
      rooms := rooms - {room};
    }

    /** Store a fresh waiting game for `room` under a new id. */
    method Store(room: string, player: Username, now: int) returns (id: nat)
      requires Valid() && room !in rooms
      modifies this
      ensures Valid()
      ensures room in rooms && rooms == old(rooms)[room := rooms[room]] && fresh(rooms[room])
      ensures id == rooms[room].id && forall r :: r in old(rooms) ==> old(rooms)[r].id != id
      ensures rooms[room].player1 == player && rooms[room].status == Waiting && rooms[room].createdAt == now
    {
      var game := new RoomCaroGame(nextId, room, player, now);
      id := nextId;
      nextId := nextId + 1;
      rooms := rooms[room := game];
    }

    /**
      The expiry cleanup of `create_game` (caro_game/models.py:498-517): the
      creator of the stale waiting game is refunded when they have a wallet,
      and the game is deleted.
    */
    method ClearExpired(room: string, owner: Username)
      requires Valid() && room in rooms && rooms[room].player1 == owner
      modifies this, bank, bank.wallets.Values
      ensures Valid() && bank.wallets == old(bank.wallets) && nextId == old(nextId)
      ensures bank.accounts == CreditIn(old(bank.accounts), owner, Stake, "caro_refund", ExpiredNote(room), None)
      ensures rooms == old(rooms) - {room}
    {
      Pay(owner, Stake, "caro_refund", ExpiredNote(room), None);
      Retire(room);
    }

    /**
      The outcome of the wallet check and creation of `create_game`
      (caro_game/models.py:522-541), starting from the accounts `before` and
      the active games `was`: no wallet or too small a balance refuses and
      leaves both as they were; otherwise the stake is debited with a
      `caro_bet` record and a fresh waiting game of `player` is stored.
    */
    twostate predicate Opened(before: map<Username, Account>, was: map<string, RoomCaroGame>, room: string, player: Username, now: int, reply: Reply)
      reads this, bank, rooms.Values
    {
      && (player !in before ==> reply == Refused(NoWallet) && bank.accounts == before && rooms == was)
      && (player in before && before[player].balance < Stake ==>
            reply == Refused(InsufficientBalance) && bank.accounts == before && rooms == was)
      && (player in before && before[player].balance >= Stake ==>
            && reply.Created?
            && bank.accounts == before[player := Debit(before[player], Stake, "caro_bet", BetNote(room), None).value]
            && room in rooms && rooms == was[room := rooms[room]] && fresh(rooms[room])
            && rooms[room].id == reply.id && rooms[room].player1 == player
            && rooms[room].status == Waiting && rooms[room].createdAt == now)
    }

    /** The second half of `create_game`, once the room has no active game. */
    method Open(room: string, player: Username, now: int) returns (reply: Reply)
      requires Valid() && room !in rooms
      modifies this, bank, bank.wallets.Values
      ensures Valid() && bank.wallets == old(bank.wallets)
      ensures Opened(old(bank.accounts), old(rooms), room, player, now, reply)
    {
      if player !in bank.wallets {
        return Refused(NoWallet);
      }
      if !bank.wallets[player].HasSufficientBalance(Stake) {
        return Refused(InsufficientBalance);
      }
      Charge(player, BetNote(room), None);
      var id := Store(room, player, now);
      return Created(id);
    }

    /** A stale waiting game is cleared and creation goes on from there. */
    method Replace(room: string, owner: Username, player: Username, now: int) returns (reply: Reply)
      requires Valid() && room in rooms && rooms[room].player1 == owner
      modifies this, bank, bank.wallets.Values
      ensures Valid() && bank.wallets == old(bank.wallets)
      ensures Opened(CreditIn(old(bank.accounts), owner, Stake, "caro_refund", ExpiredNote(room), None), old(rooms) - {room}, room, player, now, reply)
    {
      ClearExpired(room, owner);
      reply := Open(room, player, now);
    }

    /**
      `create_game(room, player)`. An unknown user is refused first. A room
      with a game in play refuses; a recent waiting game is handed back to its
      creator and refused to anyone else; a waiting game older than ten
      minutes is deleted and its creator refunded (when they have a wallet),
      and creation goes on: that cleanup stays even when creation is then
      refused for want of a wallet or of funds.
    */
    method CreateGame(room: string, player: Username, now: int) returns (reply: Reply)
      requires Valid()
      modifies this, bank, bank.wallets.Values
      ensures Valid() && bank.wallets == old(bank.wallets)
      ensures player !in users ==> reply == Refused(UserNotFound) && Untouched()
      ensures player in users && old(Classify(room, now)).InProgress? ==> reply == Refused(GameInProgress) && Untouched()
      ensures player in users && old(Classify(room, now)).Recent? && old(Classify(room, now)).owner == player ==>
        reply == Existing(old(Classify(room, now)).id) && Untouched()
      ensures player in users && old(Classify(room, now)).Recent? && old(Classify(room, now)).owner != player ==>
        reply == Refused(GameWaiting) && Untouched()
      ensures player in users && old(Classify(room, now)).NoActive? ==>
        Opened(old(bank.accounts), old(rooms), room, player, now, reply)
      ensures player in users && old(Classify(room, now)).Expired? ==>
        Opened(CreditIn(old(bank.accounts), old(rooms[room].player1), Stake, "caro_refund", ExpiredNote(room), None), old(rooms) - {room}, room, player, now, reply)
    {
      if player !in users {
        return Refused(UserNotFound);
      }
      var pre := Classify(room, now);
      match pre {
        case InProgress(_) =>
          return Refused(GameInProgress);
        case Recent(id, owner) =>
          if owner == player {
            return Existing(id);
          }
          return Refused(GameWaiting);
        case Expired(_, owner) =>
          reply := Replace(room, owner, player, now);
        case NoActive =>
          reply := Open(room, player, now);
      }
    }

    /** The stake is debited from `player` against the waiting game of `room`, which then seats them. */
    method Enter(room: string, player: Username)
      requires Valid() && room in rooms && rooms[room].status == Waiting && player != rooms[room].player1
      requires player in bank.accounts && bank.accounts[player].balance >= Stake
      modifies bank`accounts, bank.WalletOf(player)`balance, bank.WalletOf(player)`transactions, GameOf(room)
      ensures Valid() && bank.wallets == old(bank.wallets) && rooms == old(rooms)
      ensures var g := rooms[room];
        && bank.accounts == old(bank.accounts)[player := Debit(old(bank.accounts[player]), Stake, "caro_bet", BetNote(room), Some(g.id)).value]
        && g.View() == old(g.View()).(player2 := Some(player), status := Playing)
    {
      var g := rooms[room];
      Charge(player, BetNote(room), Some(g.id));
      Seat(room, player);
    }

    /** The waiting game of `room` gets `player` as its second player. */
    method Seat(room: string, player: Username)
      requires GamesValid() && room in rooms && rooms[room].status == Waiting && player != rooms[room].player1
      modifies GameOf(room)
      ensures GamesValid() && rooms[room].View() == old(rooms[room].View()).(player2 := Some(player), status := Playing)
    {
      var g := rooms[room];
      g.Seat(player);
      assert Active(g);
    }

    /**
      `join_game(room, player)` (caro_game/models.py:630-696). Only a waiting
      game is found; then, in this order, an unknown user, the creator
      themselves, a missing wallet and a balance under the stake are refused
      with nothing changed. Otherwise the stake is debited against the game,
      `player` becomes player 2 and the game is in play; the pot, already
      settled when the game was created, stays as it was.
    */
    method JoinGame(room: string, player: Username) returns (reply: Reply)
      requires Valid()
      modifies bank, bank.wallets.Values, GameOf(room)
      ensures Valid() && bank.wallets == old(bank.wallets) && rooms == old(rooms)
      ensures room !in rooms || old(rooms[room].status) != Waiting ==>
        reply == Refused(NoGame) && Untouched() && unchanged(GameOf(room))
      ensures room in rooms && old(rooms[room].status) == Waiting ==>
        var g := rooms[room];
        && (player !in users ==> reply == Refused(UserNotFound))
        && (player in users && player == g.player1 ==> reply == Refused(OwnGame))
        && (player in users && player != g.player1 && player !in old(bank.accounts) ==> reply == Refused(NoWallet))
        && (player in users && player != g.player1 && player in old(bank.accounts) && old(bank.accounts[player].balance) < Stake ==>
              reply == Refused(InsufficientBalance))
        && (reply.Refused? ==> Untouched() && unchanged(g))
        && (player in users && player != g.player1 && player in old(bank.accounts) && old(bank.accounts[player].balance) >= Stake ==>
              && reply == Joined(g.id)
              && bank.accounts == old(bank.accounts)[player := Debit(old(bank.accounts[player]), Stake, "caro_bet", BetNote(room), Some(g.id)).value]
              && g.View() == old(g.View()).(player2 := Some(player), status := Playing))
    {
      if room !in rooms || rooms[room].status != Waiting {
        return Refused(NoGame);
      }
      var g := rooms[room];
      if player !in users {
        return Refused(UserNotFound);
      }
      if player == g.player1 {
        return Refused(OwnGame);
      }
      if player !in bank.wallets {
        return Refused(NoWallet);
      }
      if !bank.wallets[player].HasSufficientBalance(Stake) {
        return Refused(InsufficientBalance);
      }
      Enter(room, player);
      reply := Joined(g.id);
    }

    /**
      The checks of the module-level `make_move` (caro_game/models.py:566-606)
      on the active game of `room`: it is in play, the caller is a user, the
      symbol they are given ("X" for player 1, "O" for anyone else) is the
      one to move, the cell is on the board and empty, and, when the move
      wins, the player named winner has a wallet to be paid into.
    */
    ghost predicate CanPlay(room: string, row: int, col: int, player: Username)
      requires room in rooms && rooms[room].Valid()
      reads this, bank, rooms.Values
    {
      var g := rooms[room];
      var symbol := g.SymbolOf(player);
      && g.status == Playing && player in users && symbol == g.currentTurn
      && InBounds(g.boardSize, row, col) && g.GetBoard()[row][col] == Empty
      && (Wins(RoomPlace(g.GetBoard(), row, col, symbol), symbol, g.winCondition) ==>
            g.WinnerFor(symbol).Some? && g.WinnerFor(symbol).value in bank.accounts)
    }

    /**
      What an accepted move does to game `g` of `room`: the board becomes
      `RoomPlace` of the old one and one more move is counted. A winning
      move finishes the game, names the winner, pays them the prize with a
      `caro_win` record and takes the game out of the active index (the turn
      stays, and no finishing time is set); any other move hands the turn
      over and changes no wallet.
    */
    twostate predicate Played(g: RoomCaroGame, room: string, row: int, col: int, player: Username)
      requires old(g.Valid()) && old(InBounds(g.boardSize, row, col))
      reads this, bank, g
    {
      var symbol := g.SymbolOf(player);
      var before := old(g.View());
      && g.Valid()
      && if Wins(RoomPlace(before.board, row, col, symbol), symbol, before.winCondition) then
           && old(g.WinnerFor(symbol)).Some?
           && Won(before, g.View(), row, col, symbol, old(g.WinnerFor(symbol)).value)
           && bank.accounts == CreditIn(old(bank.accounts), old(g.WinnerFor(symbol)).value, g.winnerPrize, "caro_win", WinNote(room), Some(g.id))
           && rooms == old(rooms) - {room}
         else
           && Continued(before, g.View(), row, col, symbol)
           && bank.accounts == old(bank.accounts) && rooms == old(rooms)
    }

    /** A move that does not win: placed, and the turn goes to the other symbol. */
    method Advance(room: string, row: int, col: int, symbol: Cell)
      requires Valid() && room in rooms && rooms[room].status == Playing && rooms[room].currentTurn == symbol
      requires InBounds(rooms[room].boardSize, row, col) && rooms[room].GetBoard()[row][col] == Empty
      requires forall s :: !Wins(RoomPlace(rooms[room].GetBoard(), row, col, symbol), s, rooms[room].winCondition)
      modifies GameOf(room)
      ensures Valid() && Continued(old(rooms[room].View()), rooms[room].View(), row, col, symbol)
    {
      var g := rooms[room];
      DistinctGames(room);
      g.Advance(row, col, symbol);
      assert Active(g);
    }


    /**
      A winning move: placed, the game finished with `winner` named, the prize
      paid into the winner's wallet, and the game out of the active index.
    */
    method Finish(room: string, row: int, col: int, symbol: Cell, winner: Username)
      requires Valid() && room in rooms && rooms[room].status == Playing
      requires InBounds(rooms[room].boardSize, row, col) && rooms[room].GetBoard()[row][col] == Empty
      modifies this, bank`accounts, bank.WalletOf(winner)`balance, bank.WalletOf(winner)`transactions, GameOf(room)
      ensures Valid() && bank.wallets == old(bank.wallets) && nextId == old(nextId)
      ensures rooms == old(rooms) - {room}
      ensures var g := old(rooms[room]);
        && g.Valid() && Won(old(g.View()), g.View(), row, col, symbol, winner)
        && bank.accounts == CreditIn(old(bank.accounts), winner, g.winnerPrize, "caro_win", WinNote(room), Some(g.id))
    {
      var g := rooms[room];
      Settle(room, row, col, symbol, winner);
      Pay(winner, g.winnerPrize, "caro_win", WinNote(room), Some(g.id));
    }

    /** The game half of `Finish`: out of the active index, then placed and finished. */
    method Settle(room: string, row: int, col: int, symbol: Cell, winner: Username)
      requires Valid() && room in rooms && rooms[room].status == Playing
      requires InBounds(rooms[room].boardSize, row, col) && rooms[room].GetBoard()[row][col] == Empty
      modifies this, GameOf(room)
      ensures Valid() && nextId == old(nextId) && rooms == old(rooms) - {room}
      ensures var g := old(rooms[room]); g.Valid() && Won(old(g.View()), g.View(), row, col, symbol, winner)
    {
      var g := rooms[room];
      Retire(room);
      g.Conclude(row, col, symbol, winner);
    }

    /** The checks and the effect of `make_move` on the active game of `room`. */
    method Play(room: string, row: int, col: int, player: Username) returns (ok: bool)
      requires Valid() && room in rooms
      modifies this, bank, bank.wallets.Values, GameOf(room)
      ensures Valid() && bank.wallets == old(bank.wallets) && nextId == old(nextId)
      ensures ok == old(CanPlay(room, row, col, player))
      ensures !ok ==> Untouched() && unchanged(old(rooms[room]))
      ensures ok ==> Played(old(rooms[room]), room, row, col, player)
      ensures forall q :: q in old(rooms) && q != room ==> unchanged(old(rooms)[q])
    {
      var g := rooms[room];
      DistinctGames(room);
      if g.status != Playing || player !in users || g.SymbolOf(player) != g.currentTurn {
        return false;
      }
      var board := g.GetBoard();
      if row < 0 || row >= |board| || col < 0 || col >= |board| || board[row][col] != Empty {
        return false;
      }
      ok := Commit(room, row, col, player);
    }

    /** A legal move: it is placed unless it wins for a player without a wallet. */
    method Commit(room: string, row: int, col: int, player: Username) returns (ok: bool)
      requires Valid() && room in rooms
      requires rooms[room].status == Playing && player in users && rooms[room].SymbolOf(player) == rooms[room].currentTurn
      requires InBounds(rooms[room].boardSize, row, col) && rooms[room].GetBoard()[row][col] == Empty
      modifies this, bank, bank.wallets.Values, GameOf(room)
      ensures Valid() && bank.wallets == old(bank.wallets) && nextId == old(nextId)
      ensures ok == old(CanPlay(room, row, col, player))
      ensures !ok ==> Untouched() && unchanged(old(rooms[room]))
      ensures ok ==> Played(old(rooms[room]), room, row, col, player)
    {
      var g := rooms[room];
      var symbol := g.SymbolOf(player);
      var board := g.GetBoard();
      var next := PlaceGrowing(board, row, col, symbol);
      var won := CheckWinner(next, g.winCondition);
      assert won.Some? ==> won.value == symbol by {
        if won.Some? && won.value != symbol {
          RoomPlaceOnlyMoverWins(board, row, col, symbol, won.value, g.winCondition);
        }
      }
      if won.None? {
        Advance(room, row, col, symbol);
        return true;
      }
      var claimant := g.WinnerFor(symbol);
      if claimant.None? || claimant.value !in bank.wallets {
        return false;
      }
      Finish(room, row, col, symbol, claimant.value);
      return true;
    }

    /**
      `CaroGame.objects.get(id=game_id)` restricted to the games in play: the
      room whose active game has primary key `gameId`, if any. Ids are
      distinct, so the room is unique.
    */
    function RoomOf(gameId: int): (room: Option<string>)
      requires GamesValid()
      reads this, rooms.Values
      ensures room.Some? <==> exists r :: r in rooms && rooms[r].id == gameId
      ensures room.Some? ==> room.value in rooms && rooms[room.value].id == gameId
    {
      if exists r :: r in rooms && rooms[r].id == gameId then
        Some(var r :| r in rooms && rooms[r].id == gameId; r)
      else None
    }

    /**
      `make_move(game_id, row, col, player)`. No active game has that key (a
      finished or abandoned one is not in play either): refused with nothing
      changed. Otherwise the move is accepted exactly when `CanPlay` holds of
      that game's room, with the effect `Played` states; a refused move
      changes nothing.
    */
    method MakeMove(gameId: int, row: int, col: int, player: Username) returns (ok: bool)
      requires Valid()
      modifies this, bank, bank.wallets.Values, rooms.Values
      ensures Valid() && bank.wallets == old(bank.wallets) && nextId == old(nextId)
      ensures !ok ==> Untouched() && unchanged(rooms.Values)
      ensures old(RoomOf(gameId)).None? ==> !ok
      ensures old(RoomOf(gameId)).Some? ==>
        var r := old(RoomOf(gameId)).value;
        && r in old(rooms)
        && ok == old(CanPlay(r, row, col, player))
        && (ok ==> Played(old(rooms[r]), r, row, col, player))
        && (forall q :: q in old(rooms) && q != r ==> unchanged(old(rooms)[q]))
    {
      var found := RoomOf(gameId);
      if found.None? {
        return false;
      }
      ok := Play(found.value, row, col, player);
    }

    /**
      Whether `abandon_game` gets past its wallet lookups: the wallets it
      fetches (the creator's when the creator abandons a waiting game, both
      players' when the game is in play) all exist.
    */
    predicate WalletsFound(room: string, player: Username)
      requires room in rooms
      reads this, bank, rooms.Values
    {
      var g := rooms[room];
      && (g.status == Waiting && player == g.player1 ==> g.player1 in bank.wallets)
      && (g.status == Playing ==> g.player1 in bank.wallets && g.player2.Some? && g.player2.value in bank.wallets)
    }

    /** The game of `room` is marked abandoned and leaves the active index. */
    method Close(room: string)
      requires Valid() && room in rooms
      modifies this, GameOf(room)`status, GameOf(room)`totalPot, GameOf(room)`winnerPrize, GameOf(room)`houseFee
      ensures Valid() && nextId == old(nextId) && rooms == old(rooms) - {room}
      ensures var g := old(rooms[room]); g.Valid() && g.View() == old(g.View()).(status := Abandoned)
    {
      var g := rooms[room];
      Retire(room);
      g.Abandon();
    }

    /**
      `abandon_game(room, player)` (caro_game/models.py:698-753). It needs an
      active game and a registered user, but not that the user plays in the
      game: only the refunds depend on who calls. When a wallet it looks up
      is missing nothing changes and it answers false; otherwise the refunds
      of `AbandonRefunds` are paid and the game is abandoned.
    */
    method AbandonGame(room: string, player: Username) returns (ok: bool)
      requires Valid()
      modifies this, bank, bank.wallets.Values, GameOf(room)
      ensures Valid() && bank.wallets == old(bank.wallets) && nextId == old(nextId)
      ensures ok <==> room in old(rooms) && player in users && old(WalletsFound(room, player))
      ensures !ok ==> Untouched() && unchanged(GameOf(room))
      ensures ok ==>
        var g := old(rooms[room]);
        && g.Valid() && g.View() == old(g.View()).(status := Abandoned)
        && rooms == old(rooms) - {room}
        && bank.accounts == AbandonRefunds(old(bank.accounts), old(g.status), g.player1, old(g.player2), player, room, g.id)
    {
      if room !in rooms || player !in users {
        return false;
      }
      if !WalletsFound(room, player) {
        return false;
      }
      Quit(room, player);
      return true;
    }

    /** The effect of `abandon_game` once its lookups succeed: the refunds, then the game is abandoned. */
    method Quit(room: string, player: Username)
      requires Valid() && room in rooms
      modifies this, bank, bank.wallets.Values, GameOf(room)
      ensures Valid() && bank.wallets == old(bank.wallets) && nextId == old(nextId) && rooms == old(rooms) - {room}
      ensures var g := old(rooms[room]);
        && g.Valid() && g.View() == old(g.View()).(status := Abandoned)
        && bank.accounts == AbandonRefunds(old(bank.accounts), old(g.status), g.player1, old(g.player2), player, room, g.id)
    {
      var g := rooms[room];
      Refund(g.status, g.player1, g.player2, player, room, g.id);
      Close(room);
    }
  }
}
