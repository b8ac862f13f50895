/**
  The actions of `CaroGameViewSet` in caro_game/api_views.py: joining and
  abandoning a private-chat game in place, and the per-user statistics.
*/
module CaroApi {
  import opened Common
  import opened Caro

  /**
    What an action answers: done, the 404 of a game the caller may not see,
    or an error with its HTTP status.
  */
  datatype ApiReply = Done | NotFound | Rejected(status: int, error: string)

  /**
    `get_object` through `get_queryset` (caro_game/api_views.py:26-31): the
    viewset sees only the games the caller plays in.
  */
  predicate Visible(g: CaroGame, user: UserId)
    reads g
  {
    user == g.player1 || g.player2 == Some(user)
  }

  /**
    `join_game` (caro_game/api_views.py:62-81). The lookup answers 404 to
    anyone who does not play in the game; then a game that is not waiting
    and the caller's own game are refused. Whoever is left is player 2 of a
    waiting game, which is full: the seating code after that refusal never
    runs, so this action never seats anyone.
  */
  method JoinGame(g: CaroGame, user: UserId) returns (r: ApiReply)
    requires g.Valid()
    modifies g`player2, g`status
    ensures g.Valid()
    ensures !Visible(g, user) ==> r == NotFound
    ensures Visible(g, user) && old(g.status) != Waiting ==> r == Rejected(400, "Game is not waiting for players")
    ensures Visible(g, user) && old(g.status) == Waiting && user == g.player1 ==> r == Rejected(400, "Cannot join your own game")
    ensures Visible(g, user) && old(g.status) == Waiting && user != g.player1 ==>
      old(g.player2) == Some(user) && r == Rejected(400, "Game is already full")
    ensures r != Done
    ensures g.player2 == old(g.player2) && g.status == old(g.status)
  {
    if !Visible(g, user) {
      return NotFound;
    }
    if g.status != Waiting {
      return Rejected(400, "Game is not waiting for players");
    }
    if g.player1 == user {
      return Rejected(400, "Cannot join your own game");
    }
    // A visible game the caller did not create has the caller as player 2.
    assert g.player2 == Some(user);
    return Rejected(400, "Game is already full");
  }

  /**
    `abandon_game` (caro_game/api_views.py:83-105). The lookup answers 404
    to anyone who does not play in the game, so the 403 check after it never
    refuses; a finished game is refused; otherwise the game is abandoned.
    The winner test reads the status just overwritten with "abandoned", so
    no winner is ever set, and no finishing time either.
  */
  method AbandonGame(g: CaroGame, user: UserId) returns (r: ApiReply)
    requires g.Valid()
    modifies g`status
    ensures g.Valid()
    ensures !Visible(g, user) ==> r == NotFound
    ensures Visible(g, user) && old(g.status) == Finished ==> r == Rejected(400, "Game is already finished")
    ensures r == Done <==> Visible(g, user) && old(g.status) != Finished
    ensures r == Done ==> g.status == Abandoned && g.winner.None?
    ensures r != Done ==> g.status == old(g.status)
  {
    if !Visible(g, user) {
      return NotFound;
    }
    // The "Not a player in this game" check (403) passes for every visible game.
    assert user == g.player1 || g.player2 == Some(user);
    if g.status == Finished {
      return Rejected(400, "Game is already finished");
    }
    g.status := Abandoned;
    ghost var otherPlayerWins := g.status == Playing;
    assert !otherPlayerWins;
    return Done;
  }

  /**
    What `stats` reads of one of the caller's games. `finishedAt` is the
    `finished_at` stamp in seconds; every way a game finishes sets it
    (caro_game/models.py:180, 196, 223), and it is read only for finished games.
  */
  datatype GameRecord = GameRecord(status: Status, winner: Option<UserId>, finishedAt: int)

  /** The caller's finished games: none exactly when no game is finished, all exactly when every game is. */
  function FinishedCount(games: seq<GameRecord>): (n: nat)
    ensures n <= |games|
    ensures n == 0 <==> forall i :: 0 <= i < |games| ==> games[i].status != Finished
    ensures n == |games| <==> forall i :: 0 <= i < |games| ==> games[i].status == Finished
  {
    if games == [] then 0
    else FinishedCount(games[..|games| - 1]) + (if games[|games| - 1].status == Finished then 1 else 0)
  }

  /** Finished games won by `user`. */
  function WonCount(games: seq<GameRecord>, user: UserId): nat
  {
    if games == [] then 0
    else
      var g := games[|games| - 1];
      WonCount(games[..|games| - 1], user) + (if g.status == Finished && g.winner == Some(user) then 1 else 0)
  }

  /** Finished games with a winner other than `user`. */
  function LostCount(games: seq<GameRecord>, user: UserId): nat
  {
    if games == [] then 0
    else
      var g := games[|games| - 1];
      LostCount(games[..|games| - 1], user) + (if g.status == Finished && g.winner.Some? && g.winner != Some(user) then 1 else 0)
  }

  /** Finished games without a winner. */
  function DrawnCount(games: seq<GameRecord>): nat
  {
    if games == [] then 0
    else
      var g := games[|games| - 1];
      DrawnCount(games[..|games| - 1]) + (if g.status == Finished && g.winner.None? then 1 else 0)
  }

  /** Won, lost and drawn split the finished games (caro_game/api_views.py:137-142). */
  lemma {:induction false} OutcomesPartition(games: seq<GameRecord>, user: UserId)
    ensures WonCount(games, user) + LostCount(games, user) + DrawnCount(games) == FinishedCount(games)
    decreases |games|
  {
    if games != [] {
      OutcomesPartition(games[..|games| - 1], user);
    }
  }

  /**
    The streak loop of `stats` (caro_game/api_views.py:147-153) over the
    winners of the caller's finished games, most recent first: the number of
    leading wins among the first ten.
  */
  method CurrentStreak(recent: seq<Option<UserId>>, user: UserId) returns (streak: nat)
    ensures streak <= 10 && streak <= |recent|
    ensures forall k :: 0 <= k < streak ==> recent[k] == Some(user)
    ensures streak < 10 && streak < |recent| ==> recent[streak] != Some(user)
  {
    var window := if |recent| < 10 then recent else recent[..10];
    streak := 0;
    var i := 0;
    while i < |window|
      invariant 0 <= i <= |window| && streak == i
      invariant forall k :: 0 <= k < i ==> recent[k] == Some(user)
    {
      if window[i] == Some(user) {
        streak := streak + 1;
      } else {
        break;
      }
      i := i + 1;
    }
  }

  /** The caller's finished games, `games.filter(status='finished')`, in the order of `games`. */
  function FinishedGames(games: seq<GameRecord>): (f: seq<GameRecord>)
    ensures |f| == FinishedCount(games)
    ensures forall g :: g in multiset(f) ==> g.status == Finished
    ensures forall g: GameRecord :: g.status == Finished ==> multiset(f)[g] == multiset(games)[g]
  {
    if games == [] then []
    else
      var g := games[|games| - 1];
      assert games == games[..|games| - 1] + [g];
      FinishedGames(games[..|games| - 1]) + (if g.status == Finished then [g] else [])
  }

  /** The games ordered most recently finished first, as `order_by('-finished_at')` returns them. */
  ghost predicate LatestFirst(gs: seq<GameRecord>)
  {
    forall i, j :: 0 <= i < j < |gs| ==> gs[i].finishedAt >= gs[j].finishedAt
  }

  /** `g` put into a list ordered latest first, ahead of every game that finished no later. */
  function InsertByRecency(g: GameRecord, gs: seq<GameRecord>): (r: seq<GameRecord>)
    requires LatestFirst(gs)
    ensures |r| == |gs| + 1 && (r[0] == g || (gs != [] && r[0] == gs[0]))
    ensures LatestFirst(r) && multiset(r) == multiset(gs) + multiset{g}
  {
    if gs == [] || g.finishedAt >= gs[0].finishedAt then [g] + gs
    else
      var rest := InsertByRecency(g, gs[1..]);
      assert rest[0].finishedAt <= gs[0].finishedAt;
      assert gs == [gs[0]] + gs[1..];
      [gs[0]] + rest
  }

  /**
    `order_by('-finished_at')` on the finished games: the same games,
    latest first. Games finished in the same second come in the order
    this sort leaves them; the database promises no order among them.
  */
  function ByRecency(gs: seq<GameRecord>): (r: seq<GameRecord>)
    ensures LatestFirst(r) && multiset(r) == multiset(gs)
  {
    if gs == [] then []
    else
      assert gs == [gs[0]] + gs[1..];
      InsertByRecency(gs[0], ByRecency(gs[1..]))
  }

  /**
    The list `stats` reads its streak from really is the most recent first:
    any finished game of the caller that finished after the game at
    position `i` comes before position `i`.
  */
  lemma RecentGamesAreLatest(games: seq<GameRecord>, i: nat, g: GameRecord)
    requires i < |ByRecency(FinishedGames(games))|
    requires g in games && g.status == Finished
    requires g.finishedAt > ByRecency(FinishedGames(games))[i].finishedAt
    ensures g in ByRecency(FinishedGames(games))[..i]
  {
    var f := FinishedGames(games);
    var recent := ByRecency(f);
    assert multiset(games)[g] > 0;
    assert multiset(f)[g] == multiset(games)[g];
    assert multiset(recent)[g] == multiset(f)[g];
    assert g in recent;
    LaterComesFirst(recent, i, g);
  }

  /** In a list ordered latest first, a game that finished after the one at position `i` comes before it. */
  lemma LaterComesFirst(recent: seq<GameRecord>, i: nat, g: GameRecord)
    requires LatestFirst(recent) && i < |recent| && g in recent
    requires g.finishedAt > recent[i].finishedAt
    ensures g in recent[..i]
  {
    var j :| 0 <= j < |recent| && recent[j] == g;
    assert j < i;
    assert recent[..i][j] == g;
  }

  /** The winner of each game, in order. */
  function Winners(gs: seq<GameRecord>): (w: seq<Option<UserId>>)
    ensures |w| == |gs| && forall k :: 0 <= k < |gs| ==> w[k] == gs[k].winner
  {
    seq(|gs|, k requires 0 <= k < |gs| => gs[k].winner)
  }

  /** The statistics `stats` reports; the win rate, a float, is left out. */
  datatype Stats = Stats(total: nat, won: nat, lost: nat, drawn: nat, currentStreak: nat, bestStreak: nat)

  /**
    `stats` over the caller's games, in any order: the finished, won, lost
    and drawn counts, and the run of wins that opens the ten most recently
    finished games, which is also reported as the best streak.
  */
  method ComputeStats(games: seq<GameRecord>, user: UserId) returns (s: Stats)
    ensures s.total == FinishedCount(games) && s.won == WonCount(games, user)
    ensures s.lost == LostCount(games, user) && s.drawn == DrawnCount(games)
    ensures s.won + s.lost + s.drawn == s.total && s.total <= |games|
    ensures var recent := ByRecency(FinishedGames(games));
      && |recent| == s.total
      && s.currentStreak <= 10 && s.currentStreak <= |recent|
      && (forall k :: 0 <= k < s.currentStreak ==> recent[k].winner == Some(user))
      && (s.currentStreak < 10 && s.currentStreak < |recent| ==> recent[s.currentStreak].winner != Some(user))
    ensures s.bestStreak == s.currentStreak
  {
    var recent := ByRecency(FinishedGames(games));
    var streak := CurrentStreak(Winners(recent), user);
    OutcomesPartition(games, user);
    s := Stats(FinishedCount(games), WonCount(games, user), LostCount(games, user), DrawnCount(games), streak, streak);
  }
}
