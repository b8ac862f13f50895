# Love Story Chat: Caro games, wallets, farm and chat rules in Dafny

This project models the core rules of the Love Story Chat web application.
The application is a Django back end with a React client. Users chat in
private, play Caro (gomoku, five in a row) for in-game money, and run a
small farm.

The model covers these parts of the application:

- **Board** (`board.dfy`): the Caro board as a square grid of cells.
  - Placing a symbol.
  - The four-direction run count behind `check_winner`.
  - `is_board_full`.
  - The room board that grows by one empty ring whenever a move lands on its edge.
- **Caro** (`caro_game.dfy`): the two game records, as classes whose fields change in place.
  - `CaroGame`, the private-chat game on a fixed board: `make_move`, `join_game`, `make_game_move`, `abandon_game`.
  - `RoomCaroGame`, the room game on the growing board: `save` with its 90/10 pot split, and `make_move`.
- **Ledger** (`wallet.dfy`): the wallet.
  - A `Wallet` class whose balance changes in place.
  - Its `WalletTransaction` audit records, each carrying a signed amount and the balance after it.
  - The ledger invariant: the balance is the sum of the recorded amounts, and every record shows its running total. `deduct_balance` and `add_balance` keep it whenever they write their record. The room flows as written save a balance and then fail to write the record, which breaks it (see Findings).
- **RoomFlows** (`room_flows.dfy`): the module-level room-game functions of `caro_game/models.py` (`create_game`, `join_game`, `make_move`, `abandon_game`).
  - They run over a `Lobby`: the registered users, a `Bank` of wallets, and the active game of each room.
  - Each player stakes 10000. The winner is paid the prize. An abandoned game refunds stakes.
  - This is the corrected program: every wallet call writes its record and the game moves on.
- **RoomFlowsAsWritten** (`room_flows_as_written.dfy`): the same flows as the code is written.
  - Three flows hand a room game to a foreign key that accepts only a private game: `join_game`, the winning branch of `make_move`, and the refunds of `abandon_game`.
  - In each, the wallet call saves the new balance and then raises, and the flow answers its failure reply.
- **CaroViews** (`caro_views.dfy`): the guards of the room views.
  - Room-name validation and the error-to-HTTP-status mapping.
  - The join and abandon checks.
  - The access rules of the game page.
- **CaroApi** (`caro_api.dfy`): the REST actions `join_game`, `abandon_game` and `stats`. The viewset shows a caller only the games they play in.
- **Farming** (`farm.dfy`): the farm game.
  - Energy regeneration and spending.
  - Experience and levels, with the plot and energy caps.
  - Crop profit.
  - The plot state machine: empty, planted, ready, withered.
- **FarmForms** (`farm_serializers.dfy`): the farm serializers.
  - Countdowns and experience to the next level.
  - The plant, harvest and clear request checks.
- **Chat** (`chat.dfy`): private chats.
  - The `chat_{min}_{max}` identifier.
  - Pair ordering in `get_or_create_chat`.
  - The other participant and the two block flags.
  - Profile game counters and display name.
- **WalletForms** (`wallet_serializers.dfy`): the add and deduct balance request checks.
- **Routes** (`routes.dfy`): the client's route helpers `requiresAuth`, `shouldShowLayout`, `getPageTitle` and `CHAT_WITH_USER`.

**Clock and persistence.** Time is an integer number of seconds, passed in as a `now` parameter wherever the code reads the clock. The database is the objects and maps of the model. A stored board is the decoded grid, or `None` when the JSON does not decode.

**Behaviour modelled as the code has it.**

- Both `abandon_game` methods overwrite the status before testing it, so no winner is ever recorded. `Caro.CaroGame.AbandonGame` and `CaroApi.AbandonGame` assert that the branch is dead.
- The room `make_move` has no draw.
- Any caller other than player 1 is given "O".
- In the corrected flows, abandoning a game in play refunds both players, and abandoning a waiting game refunds only a creator who abandons it; anyone else abandons it without a refund. As written, every refund fails after the balance is saved (see Findings).
- The pot of a room game is settled when the game is created, before anyone joins.

## Model

| member | source | states |
|---|---|---|
| Common.NatToString | chat/models.py:92-96 | an id prints as a non-empty string of decimal digits without a leading zero |
| Common.NatToStringRoundTrip | chat/models.py:92-96 | reading the printed digits back gives the number |
| Common.NatToStringInjective | chat/models.py:92-96 | two ids that print alike are equal |
| Board.EmptyBoard | caro_game/models.py:79-81 | the new board is n by n with every cell empty |
| Board.Place | caro_game/models.py:86-88 | exactly the chosen cell takes the symbol; every other cell and the size stay |
| Board.RunForward | caro_game/models.py:105-110 | the forward loop counts a run of equal cells from the cell, and no longer run starts there |
| Board.RunBackward | caro_game/models.py:112-116 | the backward loop counts every equal cell before the forward run: the line found ends at the cell, starts count - forward cells before it, and the cell before its start is off the board or holds something else |
| Board.CountRun | caro_game/models.py:104-118 | the count is the whole run through the cell: a line of that many equal cells passes through it, no equal cell lies just before its start, it cannot be extended past its end, and it starts no later than the cell in the scan |
| Board.CheckWinner | caro_game/models.py:93-120 | a symbol is returned only if it has a run of win_condition equal cells in one of the four directions; None exactly when no symbol has one; the symbol returned is the one whose winning run starts first, row by row |
| Board.IsBoardFull | caro_game/models.py:122-129 | true exactly when no cell is empty |
| Board.PlaceOnlyMoverWins | caro_game/models.py:172-179 | a move can create a winning run only for the symbol it places |
| Board.EmptyBoardHasNoWinner | caro_game/models.py:79-81 | a fresh board has no winning run, whatever the win condition |
| Board.Expanded | caro_game/models.py:387-400 | the grown board is square with two more rows and columns |
| Board.ExpandBoard | caro_game/models.py:387-400 | the nested copying loops build exactly the grown board |
| Board.ExpandedShape | caro_game/models.py:393-398 | every old cell (i, j) moves to (i+1, j+1) and the new outer ring is empty |
| Board.ExpandedWins | caro_game/models.py:387-400 | growing the board neither creates nor destroys a winning run |
| Board.RoomPlace | caro_game/models.py:360-385 | an accepted room move leaves a square board |
| Board.RoomPlaceKeepsRingEmpty | caro_game/models.py:373-381 | after any room move the outer ring is still empty, so the room board is never full |
| Board.RoomPlaceOnlyMoverWins | caro_game/models.py:584-589 | on the growing board too, a move can create a win only for the mover's symbol |
| Caro.StoredOrEmpty | caro_game/models.py:65-73 | the stored board when it decodes with the stored size, else an empty board of that size |
| Caro.SaveIdAsWritten | caro_game/models.py:60-63 | an issued id is kept; an unset one can be built only once created_at is set, and otherwise the save raises |
| Caro.NewGameCannotBeSaved | caro_game/models.py:60-63 | a new record has neither id nor created_at, so its first save raises as written |
| Caro.SaveId | caro_game/models.py:60-63 | corrected: an issued id is kept; an unset one becomes "caro_" + chat id + "_" + the creation stamp |
| Caro.SaveIdStable | caro_game/models.py:60-63 | saving again keeps the issued id, and the corrected step agrees with the written one once created_at is set |
| Caro.CaroGame.GetBoard | caro_game/models.py:65-73 | the board played on is always square of board_size |
| Caro.CaroGame.constructor | caro_game/models.py:139-146 | a new game is waiting with the given players and no winner, on an empty 15x15 board, five to win, X to move, no moves; its id is the one the corrected save issues |
| Caro.CaroGame.MakeMove | caro_game/models.py:83-91 | succeeds exactly for an empty cell on the board; then only that cell changes and one move is counted; otherwise nothing changes |
| Caro.CaroGame.JoinGame | caro_game/models.py:148-158 | succeeds exactly from waiting with no player 2 (a waiting game that already has one is refused); then sets player 2, playing and the start time; otherwise nothing changes |
| Caro.CaroGame.MakeGameMove | caro_game/models.py:160-214 | refuses with each message when not playing, not the caller's turn or an invalid move, changing nothing; an accepted move places the caller's symbol; the game finishes exactly on a win or a full board; the winner is player 1 for X, else player 2; otherwise the turn flips |
| Caro.CaroGame.AbandonGame | caro_game/models.py:216-239 | succeeds exactly from waiting or playing, then abandoned with a finish time; the winner never changes |
| Caro.SettleStakesSplit | caro_game/models.py:334-338 | the pot is twice the bet, prize plus fee is the pot, the prize is 90 percent rounded down, and 0 < fee <= prize |
| Caro.SettleStakesIdempotent | caro_game/models.py:335-338 | saving again never changes a settled split |
| Caro.DefaultStakes | caro_game/models.py:297-300 | a bet that is a multiple of 5 splits with no rounding: pot 2 bets, nine fifths of the bet to the winner, one fifth to the house; the default 10000 gives 20000, 18000 and 2000 |
| Caro.PlaceGrowing | caro_game/models.py:373-384 | the in-place growth and placement yields the room board after the move |
| Caro.RoomCaroGame.GetBoard | caro_game/models.py:342-350 | the room board is square of board_size with an empty outer ring |
| Caro.RoomCaroGame.constructor | caro_game/models.py:538-541 | a new room game is waiting on an empty 15x15 board, X to move, with the default stakes already settled |
| Caro.RoomCaroGame.Save | caro_game/models.py:329-340 | the betting fields become their settled split |
| Caro.RoomCaroGame.Seat | caro_game/models.py:668-671 | the waiting game gets its player 2 and is playing; board, pot and turn stay |
| Caro.RoomCaroGame.MakeMove | caro_game/models.py:360-385 | succeeds exactly for an empty cell on the board; then the board is the grown-and-placed board and one move is counted; otherwise nothing changes |
| Caro.RoomCaroGame.Advance | caro_game/models.py:584-608 | a non-winning move is placed, the game stays playing, the turn goes to the other symbol and no symbol has a winning run |
| Caro.RoomCaroGame.Conclude | caro_game/models.py:584-589 | a winning move is placed and the game is finished with the winner named; the turn stays |
| Caro.RoomCaroGame.Abandon | caro_game/models.py:747-748 | the game becomes abandoned; board, players and pot stay |
| Ledger.RecordedRunningTotal | user_wallet/models.py:34-62 | every record's balance_after is the sum of the amounts up to and including it |
| Ledger.Opening | chat/signals.py:29-42 | a new wallet holds 100000 with one record of +100000 and the ledger consistent |
| Ledger.AppendKeepsConsistent | user_wallet/models.py:38-45 | appending a record whose balance_after is the new total keeps the ledger consistent |
| Ledger.CreditConsistent | user_wallet/models.py:49-64 | a credit raises the balance by exactly the amount and keeps the ledger consistent |
| Ledger.DebitConsistent | user_wallet/models.py:29-47 | a debit fails exactly when the balance is below the amount; otherwise it lowers the balance by exactly the amount with a -amount record and keeps the ledger consistent |
| Ledger.LatestRecordShowsBalance | user_wallet/models.py:34-62 | the newest record shows the current balance |
| Ledger.CreditThenDebitRestores | user_wallet/models.py:29-64 | add_balance(x) then deduct_balance(x) succeeds and restores the balance |
| Ledger.ApplyAllConsistent | user_wallet/models.py:29-64 | any sequence of non-negative credits and debits keeps the ledger consistent and the balance non-negative |
| Ledger.Wallet.constructor | chat/signals.py:29-42 | a new wallet is in the welcome state |
| Ledger.Wallet.HasSufficientBalance | user_wallet/models.py:25-27 | true exactly when a debit of the amount would succeed |
| Ledger.Wallet.DeductBalance | user_wallet/models.py:29-47 | raises exactly when the balance is below the amount, changing nothing; otherwise the wallet becomes the debited account |
| Ledger.Wallet.AddBalance | user_wallet/models.py:49-64 | returns true and the wallet becomes the credited account |
| RoomFlows.AbandonRefundsPerUser | caro_game/models.py:713-745 | abandoning adds one stake to exactly the refunded users and leaves every other account as it was |
| RoomFlows.BetsThenAbandonRestore | caro_game/models.py:726-745 | two bets followed by abandoning the game in play leave every balance as before the game |
| RoomFlows.SettledGameNet | caro_game/models.py:586-600 | with default stakes the winner ends 8000 up, the loser 10000 down, and together they lose the house fee |
| RoomFlows.Bank.Pay | caro_game/models.py:497-502 | add_balance on the user's wallet when there is one; no other account changes |
| RoomFlows.Bank.PayBoth | caro_game/models.py:726-745 | add_balance on both players' wallets, in order |
| RoomFlows.Bank.Refund | caro_game/models.py:713-745 | the accounts become the abandon refunds of the game |
| RoomFlows.Bank.Charge | caro_game/models.py:532-535 | the user's account is debited with a record; no other account changes |
| RoomFlows.Lobby.Retire | caro_game/models.py:504 | the game leaves the active index and no other room changes |
| RoomFlows.Lobby.Store | caro_game/models.py:538-541 | a fresh waiting game of the player, with an id no active game has, is stored for the room |
| RoomFlows.Lobby.ClearExpired | caro_game/models.py:494-505 | the stale game's creator is refunded 10000 when they have a wallet, and the game is deleted |
| RoomFlows.Lobby.Open | caro_game/models.py:522-558 | no wallet or too small a balance refuses with nothing changed; otherwise the stake is debited and a fresh waiting game is stored |
| RoomFlows.Lobby.Replace | caro_game/models.py:489-505 | the stale game is refunded and deleted, then creation goes on |
| RoomFlows.Lobby.CreateGame | caro_game/models.py:474-564 | an unknown user, a game in play, and another player's recent waiting game are refused with nothing changed; the creator's recent game is handed back; an expired game is refunded and replaced |
| RoomFlows.Lobby.Enter | caro_game/models.py:663-671 | the joiner's stake is debited against the game and the game is seated |
| RoomFlows.Lobby.Seat | caro_game/models.py:668-671 | the waiting game becomes playing with the joiner as player 2 |
| RoomFlows.Lobby.JoinGame | caro_game/models.py:630-696 | no waiting game, an unknown user, the creator, no wallet and a short balance are refused in that order with nothing changed; otherwise exactly the stake is debited and the joiner seated |
| RoomFlows.Lobby.Advance | caro_game/models.py:605-608 | a non-winning move is placed and the turn passes, with no wallet or index change |
| RoomFlows.Lobby.Settle | caro_game/models.py:586-589 | a winning move finishes the game with the winner named and takes it out of the active index |
| RoomFlows.Lobby.Finish | caro_game/models.py:586-603 | a winning move finishes the game and pays the winner the prize with a caro_win record |
| RoomFlows.Lobby.Commit | caro_game/models.py:584-608 | a legal move is accepted unless its winner has no wallet; the effect is placed-and-continued or placed-won-and-paid |
| RoomFlows.Lobby.Play | caro_game/models.py:572-608 | a move is accepted exactly when the game is playing, the caller is a user whose symbol is to move, the cell is free on the board, and a winner has a wallet; a refused move changes nothing |
| RoomFlows.Lobby.RoomOf | caro_game/models.py:570 | finds the room whose active game has the key, exactly when one exists |
| RoomFlows.Lobby.MakeMove | caro_game/models.py:566-628 | an unknown or inactive game key refuses with nothing changed; otherwise the move is played on that game and no other game changes |
| RoomFlows.Lobby.Close | caro_game/models.py:747-748 | the game becomes abandoned and leaves the active index |
| RoomFlows.Lobby.Quit | caro_game/models.py:713-748 | the refunds are paid, then the game is abandoned |
| RoomFlows.Lobby.AbandonGame | caro_game/models.py:698-753 | succeeds exactly for an active game, a known user and present wallets; then the refunds are paid and the game abandoned; otherwise nothing changes |
| RoomFlowsAsWritten.UnrecordedBreaksLedger | user_wallet/models.py:34-62 | a balance change saved without its record breaks the ledger invariant |
| RoomFlowsAsWritten.AbandonAsWritten | caro_game/models.py:698-753 | as written, the reply is True only for a waiting game abandoned by someone other than its creator, which refunds nobody; otherwise player 1 may get a stake with no record, player 2 never does, and the game keeps its status |
| RoomFlowsAsWritten.CreatorRefundRepeats | caro_game/models.py:713-724 | as written, the creator of a waiting game can abandon it again and again, each time answered False and credited another stake with no record |
| RoomFlowsAsWritten.JoinAsWritten | caro_game/models.py:630-696 | as written, the refusals come before any money moves; every joiner who passes them loses the stake with no record and gets join_failed, and the game is never written |
| RoomFlowsAsWritten.JoinAsWrittenTakesStake | caro_game/models.py:663-671 | as written, a join the corrected flow accepts takes the stake, writes no record and breaks the joiner's ledger |
| RoomFlowsAsWritten.WinAsWritten | caro_game/models.py:586-603 | as written, a winning move credits the prize to the winner with no record and changes no other account |
| RoomFlowsAsWritten.WinPrizeRepeats | caro_game/models.py:586-608 | as written, the game is not saved after a win, so sending the winning move n times pays n prizes with no record |
| Common.StripLeft | caro_game/views.py:206 | a suffix of the input that does not begin with whitespace |
| Common.StripLeftCutsWhitespace | caro_game/views.py:206 | what the left strip removes is whitespace |
| Common.StripRight | caro_game/views.py:206 | a prefix of the input that does not end with whitespace |
| Common.StripRightCutsWhitespace | caro_game/views.py:206 | what the right strip removes is whitespace |
| Common.Strip | caro_game/views.py:206 | a slice of the input with no whitespace at either end |
| Common.StripCutsWhitespace | caro_game/views.py:206 | everything outside the kept slice is whitespace |
| Common.StripIdempotent | caro_game/views.py:206 | stripping twice is stripping once |
| Common.StripPadded | caro_game/views.py:206 | a text with no whitespace at its ends, followed by any whitespace, strips back to that text |
| CaroViews.ValidateRoomNameAccepts | caro_game/views.py:198-221 | a name is accepted exactly when present, non-empty and 3 to 50 characters once stripped; it is accepted in stripped form; whitespace alone is too short |
| CaroViews.ValidatedNameIsStable | caro_game/views.py:206-221 | an accepted name is accepted again unchanged |
| CaroViews.StatusFor | caro_game/views.py:248-253 | 400 exactly for game_in_progress and game_waiting, 402 exactly for insufficient_balance and no_wallet, else 500 |
| CaroViews.CreateViewStatuses | caro_game/views.py:244-277 | every refusal of create_game is a failure with its status: busy room 400, payment 402, unknown user 500 |
| CaroViews.SummaryOf | caro_game/models.py:444-472 | get_active_game finds a game exactly when the room has an active one |
| CaroViews.JoinGuardPasses | caro_game/views.py:314-322 | the join view calls join_game exactly for a waiting game of someone else; otherwise it fails |
| CaroViews.JoinViewAsWrittenHidesRefusal | caro_game/views.py:325-332 | a refused join is reported as success |
| CaroViews.JoinViewSucceeds | caro_game/views.py:325-334 | the corrected view succeeds exactly when the guard passes and join_game did not refuse |
| CaroViews.AbandonGuardOnlyPlayers | caro_game/views.py:416-425 | only player 1 or a present player 2 get past the abandon check; on a waiting game only the creator |
| CaroViews.AbandonView | caro_game/views.py:428-432 | the abandon view succeeds exactly when the guard passes and abandon_game returns true |
| CaroViews.PageRules | caro_game/views.py:479-518 | can_play is being a participant and implies can_access; a failed creation gives no access; a created game lets its creator play |
| CaroApi.JoinGame | caro_game/api_views.py:62-81 | 404 for a caller who does not play in the game; 400 for a game that is not waiting, the caller's own game, and a full game; it never seats anyone and changes nothing |
| CaroApi.AbandonGame | caro_game/api_views.py:83-105 | 404 for a caller who does not play in the game, so the 403 check never refuses; 400 for a finished game; otherwise abandoned, never with a winner |
| CaroApi.FinishedCount | caro_game/api_views.py:137 | at most the number of games; none exactly when no game is finished, all exactly when every game is |
| CaroApi.OutcomesPartition | caro_game/api_views.py:137-142 | won, lost and drawn add up to the finished games |
| CaroApi.CurrentStreak | caro_game/api_views.py:147-153 | the length, at most 10, of the leading run of the user's wins |
| CaroApi.FinishedGames | caro_game/api_views.py:137 | the finished games of the caller, each as often as among all the games, and no other games |
| CaroApi.InsertByRecency | caro_game/api_views.py:147 | a game put into a list ordered latest first keeps the order and adds exactly that game |
| CaroApi.ByRecency | caro_game/api_views.py:147 | `order_by('-finished_at')`: the same games, each as often, ordered latest first |
| CaroApi.LaterComesFirst | caro_game/api_views.py:147 | in a list ordered latest first, a game finished after the one at a position comes before that position |
| CaroApi.RecentGamesAreLatest | caro_game/api_views.py:147 | any finished game of the caller that finished after the game at a position of the streak list comes before that position |
| CaroApi.ComputeStats | caro_game/api_views.py:132-156 | total, won, lost and drawn are the finished, won, lost and drawn counts and partition the finished games; the current streak is the run of wins that opens the finished games ordered latest first, at most ten, and stops at the first other game; best streak is the current streak |
| Chat.ChatIdSymmetric | chat/models.py:91-96 | the chat id does not depend on which user is which |
| Chat.ChatIdInjective | chat/models.py:91-96 | different pairs of users get different chat ids |
| Chat.SplitAtSeparator | chat/models.py:96 | the id's separator tells where the first number ends |
| Chat.BlockedBy | chat/models.py:134-140 | a non-participant has never blocked the chat |
| Chat.SetFlagEffect | chat/models.py:142-156 | blocking or unblocking sets the caller's flag only; a non-participant changes nothing |
| Chat.UnblockUndoesBlock | chat/models.py:142-156 | unblocking after blocking is a plain unblock, and restores flags that were not set |
| Chat.PrivateChat.constructor | chat/models.py:73-75 | a new chat is active and blocked by nobody |
| Chat.PrivateChat.OtherUser | chat/models.py:119-121 | user 2 for user 1, user 1 for anyone else |
| Chat.PrivateChat.BlockChat | chat/models.py:142-148 | the flags become the caller's flag set |
| Chat.PrivateChat.UnblockChat | chat/models.py:150-156 | the flags become the caller's flag cleared |
| Chat.OrderPair | chat/models.py:101-103 | the same two ids, smaller first |
| Chat.ChatBook.GetOrCreateChat | chat/models.py:98-109 | the chat of the ordered pair, created exactly when absent, otherwise the stored one unchanged |
| Chat.RecordGame | chat/models.py:49-54 | one more game, one more win exactly when won; wins never exceed games |
| Chat.RecordGamesCounts | chat/models.py:49-54 | after a run of results, the games and the wins among them are counted, and wins never exceed games |
| Chat.UserProfile.constructor | chat/models.py:9-24 | a new profile has no display name and no games |
| Chat.UserProfile.Name | chat/models.py:44-47 | the display name when non-empty, else the username |
| Chat.UserProfile.UpdateGameStats | chat/models.py:49-54 | the counters take one more game, and one more win when won |
| Farming.EnergyGained | happy_farm/models.py:36-40 | one point per whole five minutes elapsed, none for a negative interval |
| Farming.RegeneratedBounds | happy_farm/models.py:39-42 | regeneration never lowers energy nor passes the maximum, and adds the full gain when it fits |
| Farming.SplitRegenerationLosesRemainder | happy_farm/models.py:37-43 | two updates never gain more than one update over the same time |
| Farming.ISqrt | happy_farm/models.py:67 | the integer square root |
| Farming.LevelFor | happy_farm/models.py:67 | the level L with (L-1)^2*100 <= experience < L^2*100 |
| Farming.LevelForMonotone | happy_farm/models.py:67 | more experience never means a lower level |
| Farming.Farm.constructor | happy_farm/models.py:15-20 | a new farm is level 1, no experience, 100 of 100 energy, six plots |
| Farming.Farm.UpdateEnergy | happy_farm/models.py:33-46 | energy becomes the regenerated energy; the clock moves only when energy was added |
| Farming.Farm.UseEnergy | happy_farm/models.py:48-59 | succeeds exactly when the regenerated energy covers the amount, then subtracts it; the energy clock moves only when energy was regenerated; energy stays within 0 and the maximum |
| Farming.Farm.AddExperience | happy_farm/models.py:61-81 | experience grows by the amount; the level rises to the formula's level only when higher; plots up to 20 on even levels, maximum energy up to 200 and a refill on multiples of three |
| Farming.LevelAfter | happy_farm/models.py:64-70 | the level never drops and is at least the formula's level |
| Farming.LevelJumpSkipsUnlock | happy_farm/models.py:69-73 | a level-up of two or more levels to an odd level unlocks no plot, though it passes an even level that would have; 400 experience gives level 3 |
| Farming.Profit | happy_farm/models.py:102-105 | profit plus seed price is the sell price |
| Farming.NextState | happy_farm/models.py:161-170 | at most one step: planted to ready exactly when due, ready to withered exactly when due |
| Farming.NextStateOneStep | happy_farm/models.py:161-170 | a due crop becomes ready, and stays ready until it withers |
| Farming.FarmPlot.constructor | happy_farm/models.py:124-130 | a new plot is empty with no crop or times |
| Farming.FarmPlot.PlantCrop | happy_farm/models.py:143-159 | refused on a non-empty plot with nothing changed; on an empty plot the farm's energy is regenerated and the cost subtracted when it covers the cost, else refused; then planted now, ready after the growth time, withering a day later |
| Farming.FarmPlot.UpdateState | happy_farm/models.py:161-170 | the state takes its next step and nothing else changes |
| Farming.FarmPlot.Harvest | happy_farm/models.py:172-211 | only a ready plot with a crop pays: the sell price is credited with a record, the experience added with its level, plots, maximum energy, refill and clock, and the plot cleared; a refusal changes only the state step |
| Farming.FarmPlot.ClearPlot | happy_farm/models.py:213-220 | the plot is empty with no crop or times |
| FarmForms.ExperienceToNextLevel | happy_farm/serializers.py:76-78 | what is left to reach level^2*100, positive when the level follows the experience |
| FarmForms.TimeUntilReady | happy_farm/serializers.py:32-40 | None unless planted with a ready time; 0 exactly when due; otherwise the seconds until ready |
| FarmForms.TimeUntilWithers | happy_farm/serializers.py:42-50 | None unless ready with a wither time; 0 exactly when due; otherwise the seconds until withering |
| FarmForms.CountdownsMatchUpdates | happy_farm/serializers.py:32-50 | a countdown is 0 exactly when update_state would take the next step, and positive only when it would not |
| FarmForms.PlantMessage | happy_farm/serializers.py:97-137 | every refusal but the range check has its own message |
| FarmForms.PlantCheck | happy_farm/serializers.py:93-137 | a plant request passes exactly when in range, with a crop and a farm, unlocked, level enough, energy enough and an empty plot; each refusal implies the earlier checks passed |
| FarmForms.ValidatePlant | happy_farm/serializers.py:104-143 | the request check on the farm's regenerated energy; the regeneration and its clock stay when the energy check is reached |
| FarmForms.ValidatedPlantSucceeds | happy_farm/serializers.py:115-137 | a validated plant request still has the energy for plant_crop at any later time |
| FarmForms.PlotMessage | happy_farm/serializers.py:146-189 | every refusal but the range check has its own message |
| FarmForms.PlotCheck | happy_farm/serializers.py:146-189 | a harvest or clear request passes exactly when in range, with a farm and an existing plot |
| FarmForms.AcceptedPlotsWithinCap | happy_farm/serializers.py:94-117 | an accepted plot number is between 0 and 19 and, for planting, unlocked |
| WalletForms.Message | user_wallet/serializers.py:48-58 | only the wallet and balance checks have messages of their own |
| WalletForms.Fields | user_wallet/serializers.py:29-46 | accepted exactly for an amount of at least 1 and a description that, trimmed, has 1 to 255 characters; the trimmed text is kept, and the default when none is given; refused as blank or too long otherwise |
| WalletForms.AcceptedDescriptionTrimmed | user_wallet/serializers.py:31 | an accepted description is kept trimmed, within the limit, and validates again to the same data |
| WalletForms.PaddedDescriptionAccepted | user_wallet/serializers.py:31 | whitespace after a description does not count toward the 255-character limit; the description is kept without it |
| WalletForms.ValidateAdd | user_wallet/serializers.py:29-36 | accepted exactly for a positive amount and a description that is 1 to 255 characters once trimmed; the trimmed description is kept, "Admin Added" by default |
| WalletForms.ValidateDeduct | user_wallet/serializers.py:39-61 | accepted exactly when the fields pass and a wallet covers the amount; refused for no wallet or a short balance; the trimmed description and the wallet are kept, "Admin Deducted" by default |
| WalletForms.ValidatedDeductSucceeds | user_wallet/serializers.py:57-61 | a validated deduction never raises and leaves a non-negative balance |
| WalletForms.AcceptedAmountsMoveBalance | user_wallet/serializers.py:29-36 | an accepted credit raises the balance |
| Routes.ChatWithUser | frontend/src/app/utils.ts:14 | the path is "/chat/" followed by the id |
| Routes.ChatWithUserId | frontend/src/app/utils.ts:14 | "/chat/" followed by the decimal id |
| Routes.ChatWithUserIdInjective | frontend/src/app/utils.ts:14 | the page's tail reads back as the id, so different users have different chat pages |
| Routes.RequiresAuth | frontend/src/app/utils.ts:26-36 | false exactly for "/", "/auth/login", "/auth/register" and "/landing" |
| Routes.ShouldShowLayout | frontend/src/app/utils.ts:41-57 | never on the login or register page nor when signed out; otherwise exactly when signed in |
| Routes.PageTitle | frontend/src/app/utils.ts:62-79 | the chat title for any "/chat/" path, the table's title for a known path, "Love Chat" otherwise; never empty |
| Routes.ChatWithUserPage | frontend/src/app/utils.ts:14-79 | a chat-with-user page has the chat title, needs a signed-in user and shows the layout exactly when signed in |
| Routes.ProtectedPagesShowLayout | frontend/src/app/utils.ts:26-57 | on every page that needs a signed-in user, the layout shows exactly when signed in |

## Left out

- Persistence and I/O:
  - ORM queries, `save()` and JSON encoding are represented by the objects and maps of the model. Logging is left out.
  - The game dictionaries returned to callers are reduced to what the callers read: an id, the status and the players.
  - The WebSocket consumers and the real-time fan-out are not part of this model.
- The clock: `timezone.now()` is a `now` parameter in whole seconds.
  - `game_duration` is not modelled.
  - `updated_at`/`created_at` stamps are kept only where a rule reads them: the ten-minute expiry and the energy clock.
- Floating point:
  - `win_rate`, `profit_per_hour` and `energy_percentage` are left out.
  - `int(pot * 0.9)` is integer nine-tenths, truncated toward zero.
  - `(experience / 100) ** 0.5` is the integer square root of the hundreds of experience. These two agree with the floating-point forms for the integers the model covers, up to floating-point rounding of very large values.
- Profile side calls: the `update_game_stats` calls that `make_game_move` and `abandon_game` make through `getattr(..., 'profile')` are not wired into the game methods. The counters themselves are modelled in `Chat`.
- Room-game wiring:
  - `get_active_game`'s `first()` on a room with several active games is not modelled. The model keeps at most one active game per room, which every modelled operation preserves.
  - `create_game`'s `cleanup_failed` and `creation_failed` paths come from database exceptions that cannot arise in the model.
  - The `payment_failed` answers of `create_game` and `join_game` (caro_game/models.py:533-535, 663-666) are unreachable. `deduct_balance` returns True or raises, and never returns False. Both flows check the balance just before the call, and an exception lands in `creation_failed` or `join_failed` instead.
  - RoomFlows.Lobby.Store: issues each game a fresh number. The source builds the room game's `game_id` from the room name and the current second (caro_game/models.py:329-331), so a second game in the same room within the same second would collide on the unique id and fail creation. That collision is not modelled.
- Request plumbing of the views: the HTML form branch and the HTTP method checks. `CaroViews` keeps only the JSON answers.
- The private-game views (`create_private_caro_game`, `join_private_caro_game`, `make_private_caro_move`) are wiring around the `CaroGame` methods modelled in `Caro`.
- The REST API `make_move` action calls `game.make_move(request.user, row, col)`, a signature `CaroGame` does not have. Its behaviour cannot be read from the code, so it is not modelled.
- `CaroMove`, and the serializer helpers `is_player_turn`, `is_valid_move`, `move_count` and `last_move`, are referenced but not defined in the application's code. They are not part of this model.
- The import of `CaroMove` at caro_game/views.py:7 fails, so the views module cannot load as written. `CaroViews` models the guards as they would run if it loaded.
- Caro.StoredOrEmpty: requires a stored board with board_size rows to be square. `get_board` checks only the row count; a ragged stored board is not modelled.
- Caro.CaroGame.constructor: models the corrected save, which issues the id. As written the first save raises (see Findings, `Caro.NewGameCannotBeSaved`).
- RoomFlows.Bank.Refund: states the corrected refund, which writes its record. As written the record refuses the room game after the balance is saved (see Findings).
- RoomFlows.Bank.PayBoth: states the corrected refund of both players. As written the first refund raises and player 2 is never refunded (see Findings).
- RoomFlows.Lobby.Enter: states the corrected flows, in which wallet calls given a room game write their records.
- RoomFlows.Lobby.JoinGame: states the corrected join, which seats the joiner. As written the joiner pays, gets no record and is not seated (`RoomFlowsAsWritten.JoinAsWritten`).
- RoomFlows.Lobby.Finish: states the corrected payout with its record and the saved game. As written the prize is paid with no record and the game is not saved (`RoomFlowsAsWritten.WinAsWritten`).
- RoomFlows.Lobby.Commit: states the corrected save of the finished game, which the code as written never reaches on a win.
- RoomFlows.Lobby.Play: states the corrected room game in play. As written no room game reaches play, because every join fails.
- RoomFlows.Lobby.MakeMove: states the corrected move. As written a winning move returns None and can be replayed (`RoomFlowsAsWritten.WinPrizeRepeats`).
- RoomFlows.Lobby.Quit: states the corrected flow, which writes a record for each refund.
- RoomFlows.Lobby.AbandonGame: states the corrected abandon. As written the refunds fail and the game keeps its status (`RoomFlowsAsWritten.AbandonAsWritten`).
- RoomFlows.AbandonRefundsPerUser: holds for the corrected flows only. As written a refund is saved without its record and can repeat (`RoomFlowsAsWritten.CreatorRefundRepeats`).
- RoomFlows.BetsThenAbandonRestore: holds for the corrected flows only. As written the join fails after the debit, so the bets are never restored.
- RoomFlows.SettledGameNet: holds for the corrected flows only. As written the prize is paid with no record and can be paid again.
- `FarmPlot.time_until_ready` (the model property, `None` once due) differs from the serializer's countdown (0 once due). The serializer's form is modelled; the property is not used by any modelled rule.
- The `get_or_create` of the plot inside `PlantCropSerializer.validate` is a database side effect. It is modelled only as "a missing plot counts as empty".
- `getPageTitle` looks titles up in a JavaScript object, so inherited keys such as "constructor" would return a non-string. That prototype lookup is not modelled.
- The framework's `CharField` on descriptions is modelled by its trim, blank and 255-character checks. Its conversion of non-string input with `str()` is not modelled. The framework reports the amount and description errors together; `WalletForms` reports the amount error first.
- FarmForms.PlantCheck: the framework runs the field checks of `plot_number` (0 to 19) and `crop_type_id` together and reports both errors at once. The model reports only the first refusal, the range error.
- CaroApi.ByRecency: among games finished in the same second the database promises no order, and the model fixes one. A streak over such ties may differ from the one a given database returns.
- Farming.Farm.UseEnergy: requires a non-negative amount. A negative amount would raise the energy past its maximum, and every caller passes a crop's non-negative energy cost.
- Farming.FarmPlot.PlantCrop: requires a crop with a non-negative energy cost, for the same reason.
- Farming.Farm.AddExperience: requires the experience to stay non-negative. For negative experience the source takes the square root of a negative number, and its level formula has no integer meaning.
- Farming.FarmPlot.Harvest: requires the crop's experience reward to keep the experience non-negative, for the reason given for AddExperience.
- Concurrency: wallet and game writes run as sequential atomic steps. The source has no locking, and races are not modelled.

## Findings

| source | as written | input that shows it | evidently intended | confidence | as-written member | corrected member |
|---|---|---|---|---|---|---|
| caro_game/views.py:325-334 | `if result:` tests the dictionary that `join_game` returns; every dictionary it returns is non-empty, so a refused join answers `success: True` | a waiting game created by "ann"; "bob", whose balance is under 10000, joins; `join_game` refuses with `insufficient_balance` | a refusal from `join_game` answers "Failed to join game" | not executed | CaroViews.JoinViewAsWrittenHidesRefusal | CaroViews.JoinViewSucceeds |
| caro_game/models.py:713-724 | the creator's refund in `abandon_game` passes the room game to `add_balance`, whose record refuses it after the balance is saved; the flow answers False and the game stays waiting | "ann" creates a room game and calls `abandon_game` three times | one refund with its record, and the game abandoned | not executed | RoomFlowsAsWritten.CreatorRefundRepeats | RoomFlows.Lobby.AbandonGame |
| caro_game/models.py:663-671 | `join_game` passes the room game to `deduct_balance`; the stake is saved off the joiner's balance, the record raises, and the answer is `join_failed` | "ann" creates a room game; "bob", with 50000, joins | the stake taken with its record and "bob" seated as player 2 | not executed | RoomFlowsAsWritten.JoinAsWrittenTakesStake | RoomFlows.Lobby.JoinGame |
| caro_game/models.py:595-603 | the winning branch of `make_move` passes the room game to `add_balance`; the prize is saved, the record raises, the move answers None and the game is not saved | a room game in play, which the code as written reaches only once `join_game` is fixed (every join fails, see the row above), or with the game set to playing outside these flows; "ann" completes five in a row, then sends the same move again | the prize paid once with its record and the game finished | not executed | RoomFlowsAsWritten.WinPrizeRepeats | RoomFlows.Lobby.Finish |
| caro_game/models.py:60-63 | `save` builds the id from `created_at`, which is None until the first save has run | any new `CaroGame` with no game id | the id built from the creation time once it is set | not executed | Caro.NewGameCannotBeSaved | Caro.SaveIdStable |
