/**
  The private-chat records of chat/models.py: the pairing of two users into
  one chat, the chat's printed identifier, each participant's block flag,
  and the game counters of a user's profile.
*/
module Chat {
  import opened Common

  // ---------------------------------------------------------------------
  // Chat identifiers
  // ---------------------------------------------------------------------

  function MinId(a: UserId, b: UserId): UserId { if a <= b then a else b }
  function MaxId(a: UserId, b: UserId): UserId { if a <= b then b else a }

  /**
    `chat_id` (chat/models.py:91-96): "chat_", the smaller user id, "_", the
    larger one.
  */
  function ChatId(a: UserId, b: UserId): string
  {
    "chat_" + NatToString(MinId(a, b)) + "_" + NatToString(MaxId(a, b))
  }

  predicate AllDigits(s: string)
  {
    forall i :: 0 <= i < |s| ==> '0' <= s[i] <= '9'
  }

  /** The position of the first '_' of `s`, or its length when there is none. */
  function SeparatorAt(s: string): (k: nat)
    ensures k <= |s|
  {
    if s == [] then 0 else if s[0] == '_' then 0 else 1 + SeparatorAt(s[1..])
  }

  lemma {:induction false} SeparatorAfterDigits(x: string, rest: string)
    requires AllDigits(x)
    ensures SeparatorAt(x + "_" + rest) == |x|
    decreases |x|
  {
    if x != [] {
      assert (x + "_" + rest)[1..] == x[1..] + "_" + rest;
      SeparatorAfterDigits(x[1..], rest);
    }
  }

  /** Digits, '_', digits: the '_' tells where the first number ends. */
  lemma SplitAtSeparator(x: string, y: string, x': string, y': string)
    requires AllDigits(x) && AllDigits(x')
    requires x + "_" + y == x' + "_" + y'
    ensures x == x' && y == y'
  {
    var s := x + "_" + y;
    SeparatorAfterDigits(x, y);
    SeparatorAfterDigits(x', y');
    assert x == s[..|x|] == x';
    assert y == s[|x| + 1..] == y';
  }

  /** The identifier does not depend on which user is which. */
  lemma ChatIdSymmetric(a: UserId, b: UserId)
    ensures ChatId(a, b) == ChatId(b, a)
  {
  }

  /** Different pairs of users get different identifiers. */
  lemma ChatIdInjective(a: UserId, b: UserId, c: UserId, d: UserId)
    requires ChatId(a, b) == ChatId(c, d)
    ensures MinId(a, b) == MinId(c, d) && MaxId(a, b) == MaxId(c, d)
  {
    var x, y := NatToString(MinId(a, b)), NatToString(MaxId(a, b));
    var x', y' := NatToString(MinId(c, d)), NatToString(MaxId(c, d));
    assert ChatId(a, b)[5..] == x + "_" + y;
    assert ChatId(c, d)[5..] == x' + "_" + y';
    SplitAtSeparator(x, y, x', y');
    NatToStringInjective(MinId(a, b), MinId(c, d));
    NatToStringInjective(MaxId(a, b), MaxId(c, d));
  }

  // ---------------------------------------------------------------------
  // Block flags
  // ---------------------------------------------------------------------

  /** The two block flags of a chat, one per participant. */
  datatype Flags = Flags(byUser1: bool, byUser2: bool)

  /**
    `is_blocked_by` (chat/models.py:134-140): user1's flag for user1, else
    user2's flag for user2, and not blocked for anyone else.
  */
  function BlockedBy(f: Flags, user1: UserId, user2: UserId, user: UserId): (b: bool)
    ensures user != user1 && user != user2 ==> !b
  {
    if user == user1 then f.byUser1 else if user == user2 then f.byUser2 else false
  }

  /**
    `block_chat` / `unblock_chat` (chat/models.py:142-156): the caller's own
    flag becomes `value` (user1's when the caller is both), the other one
    stays.
  */
  function SetFlag(f: Flags, user1: UserId, user2: UserId, user: UserId, value: bool): Flags
  {
    if user == user1 then f.(byUser1 := value) else if user == user2 then f.(byUser2 := value) else f
  }

  /**
    After blocking or unblocking, the caller's own view says exactly that;
    a stranger changes nothing; and the other participant's view is the
    same as before unless it is the same user.
  */
  lemma SetFlagEffect(f: Flags, user1: UserId, user2: UserId, user: UserId, value: bool, other: UserId)
    ensures (user == user1 || user == user2) ==> BlockedBy(SetFlag(f, user1, user2, user, value), user1, user2, user) == value
    ensures user != user1 && user != user2 ==> SetFlag(f, user1, user2, user, value) == f
    ensures other != user ==> BlockedBy(SetFlag(f, user1, user2, user, value), user1, user2, other) == BlockedBy(f, user1, user2, other)
  {
  }

  /** Unblocking after blocking leaves the flags as a plain unblock would, and as they were if the caller had not blocked. */
  lemma UnblockUndoesBlock(f: Flags, user1: UserId, user2: UserId, user: UserId)
    ensures SetFlag(SetFlag(f, user1, user2, user, true), user1, user2, user, false) == SetFlag(f, user1, user2, user, false)
    ensures !BlockedBy(f, user1, user2, user) ==> SetFlag(SetFlag(f, user1, user2, user, true), user1, user2, user, false) == f
  {
  }

  /** A private chat between two users. */
  class PrivateChat {
    const user1: UserId
    const user2: UserId
    var isActive: bool
    var flags: Flags

    /** A new chat: active, blocked by nobody. */
    constructor (user1: UserId, user2: UserId)
      ensures this.user1 == user1 && this.user2 == user2 && isActive && flags == Flags(false, false)
    {
      this.user1 := user1;
      this.user2 := user2;
      isActive := true;
      flags := Flags(false, false);
    }

    function Id(): (id: string)
    {
      ChatId(user1, user2)
    }

    /** `get_other_user` (chat/models.py:119-121): user2 for user1, user1 for anyone else. */
    function OtherUser(current: UserId): (u: UserId)
      ensures current == user1 ==> u == user2
      ensures current != user1 ==> u == user1
      ensures current == user2 && user1 != user2 ==> u == user1
    {
      if user1 == current then user2 else user1
    }

    predicate IsBlockedBy(user: UserId)
      reads this
    {
      BlockedBy(flags, user1, user2, user)
    }

    method BlockChat(user: UserId)
      modifies this`flags
      ensures flags == SetFlag(old(flags), user1, user2, user, true)
    {
      if user == user1 {
        flags := flags.(byUser1 := true);
      } else if user == user2 {
        flags := flags.(byUser2 := true);
      }
    }

    method UnblockChat(user: UserId)
      modifies this`flags
      ensures flags == SetFlag(old(flags), user1, user2, user, false)
    {
      if user == user1 {
        flags := flags.(byUser1 := false);
      } else if user == user2 {
        flags := flags.(byUser2 := false);
      }
    }
  }

  // ---------------------------------------------------------------------
  // Pairing
  // ---------------------------------------------------------------------

  /**
    The argument swap of `get_or_create_chat` (chat/models.py:99-109): the
    user with the smaller id becomes user1.
  */
  method OrderPair(a: UserId, b: UserId) returns (user1: UserId, user2: UserId)
    ensures user1 <= user2
    ensures multiset{user1, user2} == multiset{a, b}
  {
    user1, user2 := a, b;
    if user1 > user2 {
      user1, user2 := user2, user1;
    }
  }

  /** The stored chats, keyed by their (user1, user2) pair as the uniqueness constraint keys them. */
  class ChatBook {
    var chats: map<(UserId, UserId), PrivateChat>

    ghost predicate Valid()
      reads this
    {
      forall k :: k in chats ==> k.0 <= k.1 && chats[k].user1 == k.0 && chats[k].user2 == k.1
    }

    constructor ()
      ensures Valid() && chats == map[]
    {
      chats := map[];
    }

    /**
      `get_or_create_chat`: after the swap, the stored chat of that pair, or
      a new one; so both orders of the same two users reach the same chat.
    */
    method GetOrCreateChat(a: UserId, b: UserId) returns (chat: PrivateChat, created: bool)
      requires Valid()
      modifies this
      ensures Valid()
      ensures chat.user1 == MinId(a, b) && chat.user2 == MaxId(a, b) && chat.Id() == ChatId(a, b)
      ensures created <==> (MinId(a, b), MaxId(a, b)) !in old(chats)
      ensures !created ==> chat == old(chats)[(MinId(a, b), MaxId(a, b))] && chats == old(chats)
      ensures created ==> fresh(chat) && chats == old(chats)[(MinId(a, b), MaxId(a, b)) := chat]
    {
      var user1, user2 := OrderPair(a, b);
      if (user1, user2) in chats {
        return chats[(user1, user2)], false;
      }
      chat := new PrivateChat(user1, user2);
      chats := chats[(user1, user2) := chat];
      created := true;
    }
  }

  // ---------------------------------------------------------------------
  // Profiles
  // ---------------------------------------------------------------------

  /** The game counters of a profile. */
  datatype GameStats = GameStats(played: nat, won: nat)

  /**
    `update_game_stats` (chat/models.py:49-54) on the counters: one more game,
    and one more win when it was won; a profile never shows more wins than
    games.
  */
  function RecordGame(s: GameStats, won: bool): (r: GameStats)
    ensures r.played == s.played + 1
    ensures r.won - s.won == (if won then 1 else 0)
    ensures s.won <= s.played ==> r.won <= r.played
  {
    GameStats(s.played + 1, if won then s.won + 1 else s.won)
  }

  /** Counters after a run of results: the games are counted, and the wins among them. */
  function RecordGames(s: GameStats, results: seq<bool>): GameStats
  {
    if results == [] then s else RecordGame(RecordGames(s, results[..|results| - 1]), results[|results| - 1])
  }

  function Wins(results: seq<bool>): nat
  {
    if results == [] then 0 else Wins(results[..|results| - 1]) + (if results[|results| - 1] then 1 else 0)
  }

  lemma {:induction false} RecordGamesCounts(s: GameStats, results: seq<bool>)
    ensures RecordGames(s, results) == GameStats(s.played + |results|, s.won + Wins(results))
    ensures s.won <= s.played ==> RecordGames(s, results).won <= RecordGames(s, results).played
  {
    if results != [] {
      RecordGamesCounts(s, results[..|results| - 1]);
    }
  }

  /** A user's profile. */
  class UserProfile {
    const username: string
    var displayName: string
    var stats: GameStats

    ghost predicate Valid()
      reads this
    {
      stats.won <= stats.played
    }

    constructor (username: string)
      ensures Valid() && this.username == username && displayName == "" && stats == GameStats(0, 0)
    {
      this.username := username;
      displayName := "";
      stats := GameStats(0, 0);
    }

    /** `name` (chat/models.py:44-47): the display name, or the username when that is empty. */
    function Name(): (n: string)
      reads this
      ensures n == displayName || (displayName == "" && n == username)
      ensures displayName != "" ==> n == displayName
    {
      if displayName != "" then displayName else username
    }

    method UpdateGameStats(won: bool)
      requires Valid()
      modifies this`stats
      ensures Valid() && stats == RecordGame(old(stats), won)
    {
      stats := GameStats(stats.played + 1, if won then stats.won + 1 else stats.won);
    }
  }
}
