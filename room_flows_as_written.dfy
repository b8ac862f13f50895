/**
  The wallet calls of the room-game flows as caro_game/models.py writes
  them. `join_game`, the winning branch of `make_move` and `abandon_game`
  hand the `RoomCaroGame` to `deduct_balance`/`add_balance` as `game`. The
  record's `game` field is a foreign key to the private `CaroGame` only
  (user_wallet/models.py:86), so creating the record refuses the room game
  and raises. By then the new balance is already saved
  (user_wallet/models.py:34-35, 51-52). Each flow's `except Exception` then
  answers its failure reply, and the game record is never saved.

  The members here follow that code. The rest of the model (`RoomFlows`)
  is the corrected program, where every wallet call writes its record and
  the game moves on.
*/
module RoomFlowsAsWritten {
  import opened Common
  import opened Ledger
  import opened Caro
  import opened RoomFlows

  /** A balance change that was saved without its record. */
  function Unrecorded(a: Account, delta: int): Account
  {
    Account(a.balance + delta, a.transactions)
  }

  /** A saved change without its record breaks the ledger: the balance no longer sums the records. */
  lemma UnrecordedBreaksLedger(a: Account, delta: int)
    requires Consistent(a) && delta != 0
    ensures !Consistent(Unrecorded(a, delta))
  {
  }

  /** What `abandon_game` leaves: the accounts, its reply, and the stored status of the game. */
  datatype AbandonOutcome = AbandonOutcome(accounts: map<Username, Account>, reply: bool, status: Status)

  /**
    `abandon_game` (caro_game/models.py:698-753) as written, on the room's
    active game in `status`, between `p1` and `p2`, called by `player`. The
    first refund adds a stake to player 1 and raises, so the flow answers
    False and the game keeps its status. Only a waiting game abandoned by
    someone other than its creator, which refunds nobody, gets through.
  */
  function AbandonAsWritten(m: map<Username, Account>, users: set<Username>, status: Status,
                            p1: Username, p2: Option<Username>, player: Username): (o: AbandonOutcome)
    requires status == Waiting || status == Playing
    ensures o.reply <==> player in users && status == Waiting && player != p1
    ensures o.reply ==> o.status == Abandoned && o.accounts == m
    ensures !o.reply ==> o.status == status
    ensures o.accounts.Keys == m.Keys
    ensures forall u :: u in m && u != p1 ==> o.accounts[u] == m[u]
    ensures p1 in m ==> o.accounts[p1].transactions == m[p1].transactions
    ensures p1 in m && o.accounts[p1] != m[p1] ==>
      o.accounts[p1].balance == m[p1].balance + Stake && !o.reply
  {
    if player !in users then AbandonOutcome(m, false, status)
    else if status == Waiting then
      if player != p1 then AbandonOutcome(m, true, Abandoned)
      else if p1 !in m then AbandonOutcome(m, false, status)
      else AbandonOutcome(m[p1 := Unrecorded(m[p1], Stake)], false, status)
    else if p1 !in m || p2.None? || p2.value !in m then AbandonOutcome(m, false, status)
    else AbandonOutcome(m[p1 := Unrecorded(m[p1], Stake)], false, status)
  }

  /** The accounts after the creator of a waiting game calls `abandon_game` `n` times. */
  function CreatorAbandons(m: map<Username, Account>, users: set<Username>, p1: Username, n: nat): map<Username, Account>
  {
    if n == 0 then m
    else AbandonAsWritten(CreatorAbandons(m, users, p1, n - 1), users, Waiting, p1, None, p1).accounts
  }

  /**
    The creator of a waiting game can abandon it again and again: every call
    answers False and leaves the game waiting, and every call adds another
    stake with no record. After one call the ledger is broken.
  */
  lemma {:induction false} CreatorRefundRepeats(m: map<Username, Account>, users: set<Username>, p1: Username, n: nat)
    requires p1 in users && p1 in m && Consistent(m[p1])
    ensures var o := AbandonAsWritten(m, users, Waiting, p1, None, p1); !o.reply && o.status == Waiting
    ensures var r := CreatorAbandons(m, users, p1, n);
      && r.Keys == m.Keys
      && r[p1].balance == m[p1].balance + n * Stake
      && r[p1].transactions == m[p1].transactions
      && (n > 0 ==> !Consistent(r[p1]))
    decreases n
  {
    if n > 0 {
      CreatorRefundRepeats(m, users, p1, n - 1);
      var r := CreatorAbandons(m, users, p1, n - 1);
      assert CreatorAbandons(m, users, p1, n) == r[p1 := Unrecorded(r[p1], Stake)];
      UnrecordedBreaksLedger(m[p1], n * Stake);
      assert CreatorAbandons(m, users, p1, n)[p1] == Unrecorded(m[p1], n * Stake);
    }
  }

  /** What `join_game` answers: a refusal before any money moves, or `join_failed` after the stake was taken. */
  datatype JoinReply = JoinRefused(error: Error) | JoinFailed

  /**
    `join_game` (caro_game/models.py:630-696) as written, on a room whose
    waiting game was created by `creator` (`None`: no waiting game). Every
    joiner who passes the checks loses the stake with no record and gets
    `join_failed`. The game is never written, so nobody is ever seated and
    no room game reaches play.
  */
  function JoinAsWritten(m: map<Username, Account>, users: set<Username>, creator: Option<Username>, joiner: Username)
    : (r: (map<Username, Account>, JoinReply))
    ensures r.1 == JoinFailed <==>
      creator.Some? && joiner in users && joiner != creator.value && joiner in m && m[joiner].balance >= Stake
    ensures r.1 == JoinFailed ==> r.0 == m[joiner := Unrecorded(m[joiner], -Stake)]
    ensures r.1 != JoinFailed ==> r.0 == m
  {
    if creator.None? then (m, JoinRefused(NoGame))
    else if joiner !in users then (m, JoinRefused(UserNotFound))
    else if joiner == creator.value then (m, JoinRefused(OwnGame))
    else if joiner !in m then (m, JoinRefused(NoWallet))
    else if m[joiner].balance < Stake then (m, JoinRefused(InsufficientBalance))
    else (m[joiner := Unrecorded(m[joiner], -Stake)], JoinFailed)
  }

  /**
    Exactly the joins the corrected `RoomFlows.Lobby.JoinGame` accepts fail
    as written: the joiner pays the stake, gets no record and no seat, and
    the ledger is broken.
  */
  lemma JoinAsWrittenTakesStake(m: map<Username, Account>, users: set<Username>, creator: Username, joiner: Username)
    requires joiner in users && joiner != creator && joiner in m && m[joiner].balance >= Stake && Consistent(m[joiner])
    ensures var r := JoinAsWritten(m, users, Some(creator), joiner);
      && r.1 == JoinFailed
      && r.0[joiner].balance == m[joiner].balance - Stake
      && r.0[joiner].transactions == m[joiner].transactions
      && !Consistent(r.0[joiner])
  {
    UnrecordedBreaksLedger(m[joiner], -Stake);
  }

  /**
    A winning move in `make_move` (caro_game/models.py:584-603) as written:
    the prize goes into the winner's wallet with no record, then the call
    raises before `game.save()`. The reply is `None`, and the stored game
    keeps its board, turn and status.
  */
  function WinAsWritten(m: map<Username, Account>, winner: Username, prize: int): (r: map<Username, Account>)
    ensures r.Keys == m.Keys
    ensures winner in m ==> r[winner] == Unrecorded(m[winner], prize)
    ensures forall u :: u in m && u != winner ==> r[u] == m[u]
  {
    if winner in m then m[winner := Unrecorded(m[winner], prize)] else m
  }

  /** The accounts after the same winning move is sent `n` times. */
  function WinReplays(m: map<Username, Account>, winner: Username, prize: int, n: nat): map<Username, Account>
  {
    if n == 0 then m else WinAsWritten(WinReplays(m, winner, prize, n - 1), winner, prize)
  }

  /**
    Because the game is not saved, the winning move can be sent again, and
    each time the prize is paid again with no record.
  */
  lemma {:induction false} WinPrizeRepeats(m: map<Username, Account>, winner: Username, prize: int, n: nat)
    requires winner in m
    ensures var r := WinReplays(m, winner, prize, n);
      && r.Keys == m.Keys
      && r[winner].balance == m[winner].balance + n * prize
      && r[winner].transactions == m[winner].transactions
    decreases n
  {
    if n > 0 {
      WinPrizeRepeats(m, winner, prize, n - 1);
    }
  }
}
