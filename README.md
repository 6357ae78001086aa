# Panic Typer: a verified model of the game engine, the room protocol and the chaos ledger

Panic Typer is a browser word game played peer to peer. The host's
browser runs the game. Each turn starts a ten-second bomb. The current
player must type a dictionary word containing the current syllable. A
fresh word passes the bomb on; when the timer runs out the player loses a
life. This project models three parts of it in Dafny and proves what they
promise:

- **`GameEngine`** (`game_manager.dfy`): the turn and elimination state
  machine of `GameManager`, as a class whose fields are the game state.
  It covers:
  - the five-check word validator;
  - word submission;
  - the circular search for the next player still in, done in place as in
    the source;
  - the start of a turn, one tick of the countdown and the explosion;
  - the end of a game, initialisation, the Fisher-Yates shuffle and reset;
  - the greedy syllable pick over a given shuffle order.
- **`Network`** (`network_manager.dfy`): the roster and liveness protocol
  of `NetworkManager`, as a class over three peer-keyed tables:
  - `connections`, the channels, each open or not;
  - `players`, the roster;
  - `lastPongTime`, the liveness table.

  A JavaScript `Map` remembers insertion order and `forEach` follows it,
  so both Maps that are iterated are modelled as ordered maps (`OrderedMap`).
  Whatever is sent goes to an `outbox`; every callback is recorded in
  `events`. Each operation that changes state is a method and is tied to
  pure specification functions: `SendTo`, `Fanout`, `HostDrop`,
  `SweepOver` and `FromRoster`. The lemmas about those functions are the
  protocol's properties.
- **`Sabotage`** (`sabotage_system.dfy`): the chaos-points ledger and the
  effect bookkeeping of `SabotageSystem`. It covers:
  - the scoring formula;
  - the fixed six-entry catalog and its lookup;
  - `canAfford`/`spendPoints`;
  - the `activeEffects` map;
  - `reset`/`setChaosPoints`;
  - the "reverse" key handler's string rewrite.
- **`Common`** (`common.dfy`): `Option` and the roster entry the layers
  share. It also holds the JavaScript string built-ins the game relies on:
  `toUpperCase`, `toLowerCase`, `trim` and `includes`.

Timers, the clock and randomness are parameters of explicit steps:
- `Tick` is one firing of the countdown interval;
- `DelayedTurnStart` is the two-second timeout after an explosion;
- `HeartbeatSweep(now)` is one firing of the heartbeat;
- `EffectExpired` is a sabotage's end timer;
- shuffle picks, syllable orders, room-code picks and timer ids are inputs.

The syllable catalog is the constant `SyllablePatterns`. The engine's
constructor takes its catalog as a parameter, and `SyllableCatalogOk`
proves that `SyllablePatterns` meets the constructor's requirement. The
parameter keeps the 415-entry literal out of every method's proof.

## Model

| member | source | states |
|---|---|---|
| `Common.Upper` | js/GameManager.js:293 | `toUpperCase` keeps the length and maps each character on its own (ASCII letters up, everything else unchanged) |
| `Common.Trim` | js/GameManager.js:293 | `trim` returns the middle part of the string: what it drops at either end is all white space, and it keeps no white space at its ends |
| `Common.ContainsIffOccurs` | js/GameManager.js:307 | `includes` holds exactly when the syllable occurs at some offset of the word |
| `Common.LowerOfUpper` | js/NetworkManager.js:62 | lower-casing an upper-cased string equals lower-casing the original |
| `Common.LowerInjectiveOnCapitals` | js/NetworkManager.js:62 | on strings of capitals, lower-casing loses nothing |
| `GameEngine.Validate` | js/GameManager.js:292-323 | a word is accepted iff all five checks pass: the submitter's turn, trimmed upper-cased length at least 3, the syllable contained, in the dictionary, not used; a wrong-turn submitter always gets "Not your turn!", and a short word from the right player gets "Word too short!" |
| `GameEngine.ValidateIsFirstFailingCheck` | js/GameManager.js:297-322 | the verdict is the reason of the first failing check in the documented order, or "Correct!" when none fails |
| `GameEngine.FirstFailureOfFive` | js/GameManager.js:297-322 | the first failure of five checks, case by case |
| `GameEngine.FirstFailure` | js/GameManager.js:297-322 | no reason is reported iff every check passes |
| `GameEngine.NormalizeIdempotent` | js/GameManager.js:293 | upper-casing then trimming a normalized word changes nothing |
| `GameEngine.ValidateSeesOnlyNormalizedWord` | js/GameManager.js:293 | validating a word and validating its normalized form give the same verdict |
| `GameEngine.PaddedWordStaysAcceptable` | js/GameManager.js:293-336 | because the committed string is upper-cased but not trimmed, an accepted word with surrounding white space is still accepted after it has been committed |
| `GameEngine.PaddedWordExample` | js/GameManager.js:293-336 | "cat " with syllable "AT" is accepted, is committed as "CAT ", and is accepted again afterwards |
| `GameEngine.Available` | js/GameManager.js:176-178 | the words counted for a syllable are exactly the dictionary words containing it and not yet used |
| `GameEngine.AvailableShrinks` | js/GameManager.js:176-178 | using more words never makes more words available |
| `GameEngine.FirstEligible` | js/GameManager.js:175-184 | the position found is the first in the order whose available count reaches 20; None means no syllable does |
| `GameEngine.PickIsFirstFit` | js/GameManager.js:172-190 | the pick is the first syllable of the order with at least 20 available words, else the order's first entry, or "IN" when there is none |
| `GameEngine.PickFromCatalog` | js/GameManager.js:172-190 | over any shuffle of a non-empty catalog without empty entries, the pick is a catalog entry |
| `GameEngine.SyllableCatalogOk` | js/GameManager.js:44-98 | the game's catalog is non-empty, has no empty entry and contains "IN" |
| `GameEngine.Flatten` | js/GameManager.js:44-98 | joining the catalog's rows keeps exactly their entries |
| `GameEngine.NoEmptyInFlatten` | js/GameManager.js:44-98 | rows without an empty entry join into a list without one |
| `GameEngine.ShuffledPermutes` | js/GameManager.js:162-167 | the shuffle only reorders the players |
| `GameEngine.ShuffledFromPermutes` | js/GameManager.js:163-166 | each suffix of the swap sequence only reorders |
| `GameEngine.IndexOfId` | js/GameManager.js:239 | `findIndex`: the first index carrying the id, or -1 exactly when no player carries it |
| `GameEngine.ActiveMembers` | js/GameManager.js:381 | the active list holds exactly the players not eliminated |
| `GameEngine.WinnerIsSoleSurvivor` | js/GameManager.js:381-385 | there is a winner iff some player is not eliminated; the winner is such a player, and when one player remains it is that one |
| `GameEngine.NextActiveIsFirstActive` | js/GameManager.js:218-228 | the next index is in range; when anybody is still in, it is the first such seat after the current one in circular order; otherwise it is the next seat |
| `GameEngine.NextActiveFromIsFirst` | js/GameManager.js:222-225 | the search from any step on stops at the first seat still in, or wraps to the next seat |
| `GameEngine.AroundCovers` | js/GameManager.js:219-223 | every seat is reached by some step count between 1 and n |
| `GameEngine.WrapStep` | js/GameManager.js:219 | `(x + 1) % n` on a seat is the next seat, wrapping to 0 |
| `GameEngine.LoseLife` | js/GameManager.js:366-378 | a player loses exactly one life and is eliminated iff they already were or the lives reached 0 |
| `GameEngine.GameManager.constructor` | js/GameManager.js:14-37 | an empty waiting room: no dictionary, no players, index 0, no syllable, no used words, round 1 |
| `GameEngine.GameManager.GetState` | js/GameManager.js:453-465 | the snapshot names the current player's id exactly when the index is in range, and reports the used-word count and the turn length |
| `GameEngine.GameManager.LoadDictionary` | js/GameManager.js:114-131 | a second load changes nothing; a missing global fails and changes nothing; otherwise the dictionary becomes the upper-cased global list |
| `GameEngine.GameManager.ShufflePlayers` | js/GameManager.js:162-167 | the in-place swaps produce the specified shuffle, a permutation of the players |
| `GameEngine.GameManager.InitGame` | js/GameManager.js:136-157 | PLAYING, a shuffle of the roster as players, each with 3 lives and not eliminated, index 0, no used words, round 1, a full turn time |
| `GameEngine.GameManager.GenerateSyllable` | js/GameManager.js:172-190 | the syllable picked is in the catalog |
| `GameEngine.GameManager.GetNextPlayerIndex` | js/GameManager.js:218-228 | the loop returns the first seat still in after the current one, in range |
| `GameEngine.GameManager.ValidateWord` | js/GameManager.js:292-323 | the verdict of `Validate` on the current state; wrong-turn submitters are refused |
| `GameEngine.GameManager.StartTurn` | js/GameManager.js:233-255 | a full turn time, the countdown running, the index of the player with that id (unchanged if none), and a broadcast |
| `GameEngine.GameManager.DelayedTurnStart` | js/GameManager.js:393-395 | the turn of whoever is current starts; with unique ids the index stays |
| `GameEngine.GameManager.PassTurn` | js/GameManager.js:346-357 | a new syllable picked first-fit, the next player still in, a full turn |
| `GameEngine.GameManager.CommitWord` | js/GameManager.js:335-338 | the upper-cased (untrimmed) word joins the used words, then the turn passes |
| `GameEngine.GameManager.HandleWordSubmission` | js/GameManager.js:328-341 | the verdict is returned; on success the word is committed and the turn passed; on failure the used words, index, syllable and timer are unchanged |
| `GameEngine.GameManager.EndGame` | js/GameManager.js:403-414 | the countdown stops, the status is GAME_OVER, and the state is broadcast |
| `GameEngine.GameManager.Explode` | js/GameManager.js:362-398 | the current player loses a life; the game ends iff at most one player is still in, with `Winner` as the winner; otherwise a new syllable and the next player still in, and a broadcast |
| `GameEngine.GameManager.LoseCurrentLife` | js/GameManager.js:365-378 | only the current player changes, by `LoseLife` |
| `GameEngine.GameManager.MoveOnAfterExplosion` | js/GameManager.js:388-397 | with two or more still in: a first-fit syllable, the next player still in, a broadcast |
| `GameEngine.GameManager.Tick` | js/GameManager.js:260-270 | the time drops by exactly 100; it explodes iff the result is at most 0, and otherwise only broadcasts; an explosion has `Explode`'s outcome: game over with `Winner` as the winner, or the next player still in with a new syllable |
| `GameEngine.GameManager.StartGame` | js/GameManager.js:195-206 | refused, with nothing changed, iff the dictionary is not loaded; otherwise PLAYING, a syllable, the current player's turn |
| `GameEngine.GameManager.Reset` | js/GameManager.js:470-481 | the countdown stops and the state is an empty waiting room again |
| `Network.GenerateRoomCode` | js/NetworkManager.js:52-59 | 4 characters, the i-th being the alphabet letter at draw i |
| `Network.RoomCodeLetters` | js/NetworkManager.js:53 | a room code is four capitals, never I or O |
| `Network.RoomCodeToPeerId` | js/NetworkManager.js:61-63 | the peer id is the prefix and the lower-cased code |
| `Network.JoinReachesHost` | js/NetworkManager.js:61-63 | because a join upper-cases the typed code, it reaches a room iff the typed code equals the room code up to case |
| `Network.DistinctRoomsDistinctPeers` | js/NetworkManager.js:61-63 | different room codes give different host peer ids |
| `Network.Without` | js/NetworkManager.js:195-197 | deleting a key keeps every other key, in order |
| `Network.WithoutDistinct` | js/NetworkManager.js:195-197 | deleting keeps the keys distinct |
| `Network.Put` | js/NetworkManager.js:90 | `Map.set` updates the value, keeps an existing key's place, adds a new key last, and keeps the map well ordered |
| `Network.Remove` | js/NetworkManager.js:195-197 | `Map.delete` removes only that key and keeps the map well ordered |
| `Network.RemoveTwice` | js/NetworkManager.js:195-197 | deleting an absent key changes nothing |
| `Network.Entries` | js/NetworkManager.js:171 | the roster list has one entry per key, in key order, with that key's name and host flag |
| `Network.FromRosterIds` | js/NetworkManager.js:177-181 | the rebuilt roster holds exactly the listed ids, with nothing kept from before |
| `Network.RosterRoundTrip` | js/NetworkManager.js:170-181 | a client rebuilding from the host's PLAYER_LIST gets the host's roster back, order included |
| `Network.AdmittedIsListed` | js/NetworkManager.js:169-172 | the PLAYER_LIST sent to a joining peer contains that peer |
| `Network.FanoutOverSends` | js/NetworkManager.js:233-237 | the sends of the forEach are exactly the packet to each open, not-excluded key, once each |
| `Network.FanoutReaches` | js/NetworkManager.js:233-237 | `broadcast` reaches exactly the open connections other than the excluded one, each once, with the same packet |
| `Network.Forget` | js/NetworkManager.js:195-197 | the peer leaves all three tables and nothing else changes |
| `Network.HostDropNotifies` | js/NetworkManager.js:193-201 | on the host, a peer not in the roster leaves silently; a roster member's departure is reported, and PLAYER_LEAVE goes once to every other open channel, never to the one who left |
| `Network.HostDropIdempotent` | js/NetworkManager.js:193-201 | dropping a peer already dropped changes nothing and sends nothing |
| `Network.SweepEvictsStale` | js/NetworkManager.js:210-222 | after a host sweep at `now`, a peer is in each table iff it was there and not stale, stale meaning `now - (lastPong or 0) > 15000`; a client sweep evicts nobody |
| `Network.SweepPingsEachOpenOnce` | js/NetworkManager.js:212-213 | a sweep sends PING to every open channel, once each, in the Map's order |
| `Network.ClientSweepOnlyPings` | js/NetworkManager.js:214 | a client's sweep changes no table and reports nothing |
| `Network.OpenAmong` | js/NetworkManager.js:229-230 | the keys kept are exactly those whose channel is open |
| `Network.DropIfStaleQuiet` | js/NetworkManager.js:214-219 | dropping a stale peer sends no PING and leaves other channels as they were |
| `Network.DropIfStaleKeeps` | js/NetworkManager.js:214-219 | one eviction removes only the stale peer from the three tables |
| `Network.NetworkManager.constructor` | js/NetworkManager.js:27-50 | no peer, no room, not host, empty tables, DISCONNECTED, name "Player", no heartbeat |
| `Network.NetworkManager.SetConnectionState` | js/NetworkManager.js:65-70 | the new state, reported once |
| `Network.NetworkManager.HostGame` | js/NetworkManager.js:76-85 | the name and host role are set; a fresh room code; the peer is registered under the room's id; CONNECTING |
| `Network.NetworkManager.HostPeerOpened` | js/NetworkManager.js:87-94 | CONNECTED, the host in its own roster as host, the heartbeat started, the room reported |
| `Network.NetworkManager.JoinGame` | js/NetworkManager.js:102-111 | the name, the client role, the upper-cased room code, the client's peer id, CONNECTING |
| `Network.NetworkManager.JoinChannelOpened` | js/NetworkManager.js:113-124 | the host's channel is stored, PLAYER_JOIN with the name goes to the host, CONNECTED, the heartbeat running |
| `Network.NetworkManager.IncomingChannelOpened` | js/NetworkManager.js:146-152 | the channel is stored and the peer counts as heard from `now` |
| `Network.NetworkManager.ChannelClosed` | js/NetworkManager.js:230 | a listed channel is marked not open; nothing else changes |
| `Network.NetworkManager.Send` | js/NetworkManager.js:229-231 | one packet if the channel exists and is open, nothing otherwise |
| `Network.NetworkManager.Broadcast` | js/NetworkManager.js:233-237 | the loop sends exactly `Fanout` of the connections, in the Map's order |
| `Network.NetworkManager.SendGameMessage` | js/NetworkManager.js:239-246 | the host broadcasts to all; a client sends only to the host's channel, or nothing |
| `Network.NetworkManager.HandleError` | js/NetworkManager.js:248-252 | the state becomes ERROR whatever it was, and the error is reported |
| `Network.NetworkManager.Disconnect` | js/NetworkManager.js:264-274 | all three tables empty, no room, not host, no peer, no heartbeat, DISCONNECTED; every field gets a fixed value, so a second call leaves the state as the first did |
| `Network.NetworkManager.DropPeer` | js/NetworkManager.js:194-201 | the host's side of a departure, as `HostDrop` |
| `Network.NetworkManager.HandleDisconnection` | js/NetworkManager.js:193-206 | the peer leaves all three tables. On the host, PLAYER_LEAVE goes out only if it was a player. A client whose host left reports "Host disconnected" and disconnects; on any other departure a client only forgets. Apart from that teardown, the heartbeat and the own peer id stay as they were |
| `Network.NetworkManager.AdmitPlayer` | js/NetworkManager.js:168-175 | the peer joins the roster as a guest, receives the whole roster, and every other connection hears PLAYER_JOIN |
| `Network.NetworkManager.ReplaceRoster` | js/NetworkManager.js:178-180 | the loop leaves exactly `FromRoster` of the list, then reports the entries |
| `Network.NetworkManager.HandleMessage` | js/NetworkManager.js:159-191 | each branch of the dispatch, with what it leaves unchanged. PING answers PONG with the echoed timestamp, to the sender only. PONG sets the sender's pong time. PLAYER_JOIN is handled on the host and ignored on a client. PLAYER_LIST replaces the roster. PLAYER_LEAVE deletes on a client and is ignored on the host. Every other type is delivered untouched, with the sender |
| `Network.NetworkManager.SweepOne` | js/NetworkManager.js:213-219 | PING one key, then drop it if this is the host and it is stale; seen from the loop, one step of `SweepOver` |
| `Network.NetworkManager.HeartbeatSweep` | js/NetworkManager.js:210-222 | the loop over the connections does exactly `SweepOver` of the tables |
| `Sabotage.FindById` | js/SabotageSystem.js:168 | `find`: an entry with the id from the list, or none exactly when no entry has it |
| `Sabotage.GetSabotageById` | js/SabotageSystem.js:167-169 | a catalog entry with that id, or none exactly when no entry has it |
| `Sabotage.CatalogIdsUnique` | js/SabotageSystem.js:12-61 | the six ids are pairwise different |
| `Sabotage.LookupFindsTheEntry` | js/SabotageSystem.js:12-61 | each catalog entry is what its id looks up |
| `Sabotage.KnownIds` | js/SabotageSystem.js:12-61 | exactly the six ids are known |
| `Sabotage.LengthBonus` | js/SabotageSystem.js:140-142 | 5 from 8 characters, 2 from 6, otherwise 0 |
| `Sabotage.Points` | js/SabotageSystem.js:137-144 | at least 1: `max(1, length - 2)` plus the bonus |
| `Sabotage.PointsExamples` | js/SabotageSystem.js:137-144 | 9 characters give 12, 3 give 1, 6 give 6, 5 give 3, 8 give 11 |
| `Sabotage.PointsMonotone` | js/SabotageSystem.js:137-144 | a longer word never earns fewer points |
| `Sabotage.ReverseInsert` | js/SabotageSystem.js:120-125 | the key, upper-cased, comes first, followed by the text around the selection; the length is `|value| - (end - start) + 1` |
| `Sabotage.TypingComesOutBackwards` | js/SabotageSystem.js:117-126 | typing several keys in reverse mode yields them in reverse order, upper-cased, before the text around the first selection |
| `Sabotage.SabotageSystem.constructor` | js/SabotageSystem.js:63-66 | no effects, no points, reverse mode off |
| `Sabotage.SabotageSystem.AwardPoints` | js/SabotageSystem.js:135-154 | returns `Points(length)`, at least 1, and the balance grows by exactly that |
| `Sabotage.SabotageSystem.SpendPoints` | js/SabotageSystem.js:175-189 | succeeds iff `canAfford` held; then it takes exactly the cost, otherwise the balance is unchanged; a non-negative balance stays non-negative |
| `Sabotage.SabotageSystem.ClearEffect` | js/SabotageSystem.js:337-367 | only the entry for that id leaves `activeEffects`; clearing "reverse" turns reverse mode off |
| `Sabotage.SabotageSystem.ClearAllEffects` | js/SabotageSystem.js:372-379 | no effect remains and reverse mode is off |
| `Sabotage.SabotageSystem.ApplySabotage` | js/SabotageSystem.js:195-229 | an unknown id changes nothing; a known one replaces that id's timer and, for "reverse", turns reverse mode on |
| `Sabotage.SabotageSystem.EffectExpired` | js/SabotageSystem.js:237-322 | the expired effect leaves the map; "reverse" turns reverse mode off; the end is reported |
| `Sabotage.SabotageSystem.Reset` | js/SabotageSystem.js:400-407 | no effects, reverse mode off, zero points |
| `Sabotage.SabotageSystem.SetChaosPoints` | js/SabotageSystem.js:412-417 | the balance becomes exactly the given value |
| `Sabotage.SabotageSystem.KeyDown` | js/SabotageSystem.js:113-127 | the input is rewritten iff reverse mode is on and the key is one character without Ctrl or Meta; the caret then goes to 1 |

## Left out

- PeerJS itself is abstracted to a table of channels that are open or not. This covers `new Peer`, `peer.connect`, the `conn.on` events, `reconnect` and `destroy`.
- The Promise plumbing of `hostGame`/`joinGame` is left out, including the 10-second join timeout and the peer error handlers. The peer and channel `open` events are explicit methods.
- `JoinChannelOpened` takes the host id from the room code current when the channel opens. The source captures it when the peer opens; nothing changes the room code in between.
- `send(conn, ...)` takes a connection object. The model looks the peer up in `connections`. For a reply (PING to PONG) this means the reply needs the sender's channel to be listed.
- `conn.close()` in the heartbeat and in `disconnect` is not a separate step. The channel is deleted from the table right after. The close event that follows is a second `HandleDisconnection`, which `HostDropIdempotent` shows changes nothing on the host.
- `setInterval`, `setTimeout` and `Date.now()` are replaced by explicit step methods and `now` parameters. The packet's `timestamp` field is left out.
- `Math.random` is replaced by inputs: the shuffle's swap positions, the syllable order, the room-code draws and the client id. The syllable order is any permutation of the catalog. `generateSyllable` sorts with a random comparator; its distribution is not modelled.
- Console logging is left out. The DOM is left out: overlays, CSS classes, `init`, and the screens of `js/main.js`, which is not part of this model.
- Callbacks are recorded as `events`/`notices` records. Those that only hand data to the UI are not recorded: `onTurnStart`, `onWordValidated`, `onExplosion`, `onGameOver` and `onStateUpdate`. GAME_STATE broadcasts are recorded as `broadcasts`; the engine does not call into `Network`.
- `GameEngine.GameManager.LoadDictionary` takes the page's global `DICTIONARY` as a parameter (None when missing or not an array).
- Case mapping covers ASCII letters only. `length` counts characters, not UTF-16 code units.
- Several source paths throw a TypeError; those operations take a precondition instead:
  - `getCurrentPlayer()` on an empty player list, and `% 0` in `getNextPlayerIndex`: GetNextPlayerIndex, ValidateWord, StartTurn, DelayedTurnStart, PassTurn, CommitWord, HandleWordSubmission, Explode, Tick and StartGame with a loaded dictionary require players. This also covers the explosion's two-second timeout firing after a reset has emptied the players;
  - `roomCodeToPeerId(null)` in `joinGame`'s channel handler: `JoinChannelOpened` requires a room code.
- `Network.NetworkManager.HandleMessage` treats every payload of the wrong shape as a `null` payload. For `null` the source throws, and the model matches it: PLAYER_JOIN and PLAYER_LEAVE change nothing, and PLAYER_LIST leaves the roster cleared. For an object payload without the field the source does not throw. A PLAYER_JOIN whose object payload has no `name` admits the peer with the name `undefined`. A PLAYER_JOIN with an `{id, name}` body admits the peer under that name. A PLAYER_LEAVE whose payload has no `id` deletes the key `undefined` and still fires the leave callback. The model changes nothing in all of these cases, because it has no `undefined` value for names and ids.
- `Network.NetworkManager.SendGameMessage`: on a client with no room code the source throws in `roomCodeToPeerId(null)`. The model sends nothing and changes nothing instead.
- `Network.NetworkManager.HandleDisconnection`: on a client with no room code, `roomCodeToPeerId(null)` throws after the three deletions. The model keeps the deletions and nothing else.
- The ROUND_END status is declared in the source and in the model (`RoundEnd`), and no operation of either ever sets it. `bonusTime` is configured but never read, and does not appear in the model.
- `Sabotage.SabotageSystem.KeyDown` and `Sabotage.ReverseInsert` assume the DOM's own guarantee that `selectionStart <= selectionEnd <= value.length`. JavaScript's argument clamping in `substring` is not modelled.
- `Sabotage.SabotageSystem.EffectExpired` is the end timer of the current effect of that id. A replaced effect's timer is cancelled by `clearTimeout` and never fires, so it is not modelled.
- `getPlayers`, `getPlayerCount`, `getAllSabotages`, `on` and `destroy` are read-outs or UI wiring and are not modelled.
