# Rock/paper/scissors clients: a Dafny model

This project models the game logic of the fun_RPS clients in three parts:

- **Single-player round engine** (`script.js`), in `round_engine.dfy` (module `RoundEngine`).
  - It holds the rule table `outcome` and the shared `state` object as the class `RoundEngine.Game`.
  - `play`, the reset button and the best-of selector are methods that update that object in place.
  - The best-of match-end decision of `updateUI` is a pure predicate, together with the "disable the choices" effect that decision has.
  - The object invariant `Valid()` says two things:
    - the three counters are the tallies of the outcomes in `history`, and `lives` is `max(0, 3 - losses)` (the predicate `Tallied`);
    - a finished match always has its choices disabled.
  - From the first, the lemma `TalliedBounds` derives that the counters add up to `|history|` and that lives stay in [0, 3].
- **Multiplayer game page** (`Game.jsx`), in `game_page.dfy` (module `GamePage`).
  - The React state fields of the page are the class `GamePage.Game`.
  - Each inbound socket event handler and each outbound action is a method.
  - An outbound socket emission is returned as an `Outbound` value.
  - The button-enabled condition, the result panel and `getPlayerName` are pure functions.
  - The model makes one quirk visible. The page shows its result panel only for a non-null winner id, so its "Draw!" headline, reserved for `null`, can never appear. If a tie arrives as `null`, the move guard and the result panel afterwards are those of a page with no result: a new move can be sent at once and no result is drawn.
- **Room entry** (`Home.jsx`), in `home.dfy` (module `Home`).
  - `createRoom` and `joinRoom` are decision functions. Each returns either the alert shown or the stored player record and the lobby route.
  - A new room code is `100000 + offset` written in decimal. It is proved to be exactly six digits and to read back as that number.

Two helper files:
- `js_text.dfy` (module `JsText`) gives the JavaScript string semantics the clients rely on: `String.prototype.trim`, with its exact white-space set, and `Number.prototype.toString` for non-negative integers below 2^53 (room codes are below 10^6).
- `wrappers.dfy` holds `Option`, which stands for a JavaScript `null`.

Inputs that come from outside the code are parameters:
- the computer's move (`randChoice`);
- the room-code offset (`Math.random() * 900000` rounded down);
- the time stamp of a history entry;
- the payloads of socket events.

The server that the multiplayer page talks to is not part of this model. The page treats a `null` winner id as a draw (Game.jsx:136-144); the model gives `winnerId` the type `Option<string>`, with `None` for `null`.

## Model

| member | source | states |
|---|---|---|
| `JsText.SkipWhite` | Frontend/vite-project/src/pages/Game.jsx:74 | the leading scan of `trim`: the first non-white index at or after `i`, with only white space skipped |
| `JsText.SkipWhiteBack` | Frontend/vite-project/src/pages/Game.jsx:74 | the trailing scan of `trim`: the end of the last non-white character before `j`, with only white space skipped |
| `JsText.Trim` | Frontend/vite-project/src/pages/Game.jsx:74 | `s.trim()` is empty exactly when every character of `s` is JavaScript white space; otherwise it starts and ends with a non-white character |
| `JsText.TrimBounds` | Frontend/vite-project/src/pages/Game.jsx:74 | `s.trim()` is one contiguous piece `s[a..b]` of `s`, and everything before `a` and from `b` on is white space |
| `JsText.IsBlank` | Frontend/vite-project/src/pages/Home.jsx:12 | the test `!x.trim()` (also Home.jsx:19 and, negated, Game.jsx:74) holds exactly when every character is white space |
| `JsText.DecimalString` | Frontend/vite-project/src/pages/Home.jsx:13 | `toString` of a non-negative integer below 2^53 (the codes are below 10^6) is all digits, has no leading zero and parses back to the number |
| `JsText.DecimalStringLength` | Frontend/vite-project/src/pages/Home.jsx:13 | a number with k digits (10^(k-1) ≤ n < 10^k) prints as exactly k characters |
| `RoundEngine.ParseChoice` | script.js:66 | a choice is accepted exactly when it is "rock", "paper" or "scissors", and the move returned has that name |
| `RoundEngine.ParseChoiceName` | script.js:66 | every move's name is accepted back as that move |
| `RoundEngine.OutcomeOf` | script.js:30-38 | the result is a tie exactly on equal moves, and a win exactly for (rock, scissors), (paper, rock), (scissors, paper) |
| `RoundEngine.OutcomeIsCyclic` | script.js:30-38 | the rule table equals the cyclic rule "a move beats the one before it on rock → paper → scissors → rock" |
| `RoundEngine.OutcomeAntisymmetric` | script.js:30-38 | `outcome(a, a)` is a tie; `outcome(a, b)` is a win exactly when `outcome(b, a)` is a loss, and a tie exactly when the swap is |
| `RoundEngine.CountOfAppend` | script.js:75-79 | appending one entry raises the tally of its outcome by one and leaves the other tallies alone |
| `RoundEngine.CountsPartitionHistory` | script.js:75-79 | the win, loss and tie tallies of a history add up to its length |
| `RoundEngine.TalliedBounds` | script.js:75-79 | counters that are the tallies of a history add up to its length, and the lives that go with them lie in [0, 3] |
| `RoundEngine.TalliedAfterRound` | script.js:75-79 | one more round keeps the counters equal to the tallies and the lives equal to `max(0, 3 - losses)`: bump the outcome's counter, and on a loss take a life with `Math.max(0, lives - 1)` |
| `RoundEngine.LivesAfter` | script.js:78 | lives after n losses lie in [0, 3], are 3 − n while n < 3, and reach 0 exactly at 3 losses |
| `RoundEngine.RoundsNeeded` | script.js:50 | `Math.ceil(bestOf / 2)`: the least integer whose double is at least `bestOf` |
| `RoundEngine.MatchOverAtHalf` | script.js:51 | `MatchOver`, the test `player >= roundsNeeded \|\| computer >= roundsNeeded`, holds exactly when one side's wins are at least half of `bestOf` |
| `RoundEngine.MatchWinner` | script.js:50-52 | a winner exists exactly when the match is over (`MatchOver`, line 51); it is the player exactly when the player has strictly more rounds, otherwise the computer (ties included) |
| `RoundEngine.DecidingRound` | script.js:50-52 | with `bestOf` fixed, the round that ends a match is not a tie, leaves the scores unequal and its winner is the match winner |
| `RoundEngine.BestOfChangeOnEqualScores` | script.js:105-107 | a `bestOf` change that ends a match on equal scores must have lowered `bestOf`, and it always announces the computer |
| `RoundEngine.ShrinkingBestOfEndsOnTie` | script.js:105-107 | a `bestOf` change keeps the scores: 2–2 is open in a best of 5 and goes to the computer in a best of 3 |
| `RoundEngine.Game.constructor` | script.js:20-22 | initial state: zero counters, empty history, 3 lives, the selected `bestOf`; choices disabled only if that match is already over |
| `RoundEngine.Game.UpdateUI` | script.js:50-55 | a finished match disables the choices; nothing here re-enables them |
| `RoundEngine.Game.Play` | script.js:64-86 | an invalid choice changes nothing; a valid one appends exactly one entry, bumps exactly the counter of its outcome, costs one life (floored at 0) only on a loss, keeps `bestOf`, and preserves `Valid()` (counters sum to the history length, lives in [0, 3]) |
| `RoundEngine.Game.RecordRound` | script.js:74-81 | the state part of a valid `play`: the entry is pushed, exactly its outcome's counter is bumped, a loss costs one life floored at 0, the choices lock if the match is now over, and `Valid()` is preserved |
| `RoundEngine.Game.Reset` | script.js:96-103 | counters 0, history empty, 3 lives, `bestOf` kept; choices enabled unless the match with zero scores is already over |
| `RoundEngine.Game.SetBestOf` | script.js:105-108 | only `bestOf` changes; scores, lives and history stay; the choices lock if the match is now over |
| `GamePage.ChoicesDisabled` | Frontend/vite-project/src/pages/Game.jsx:114 | the choice buttons are disabled exactly when the guard of `sendMove` fails (`MoveGuard`, the test `!hasPicked && roundResult === null` of line 63) |
| `GamePage.ResultBanner` | Frontend/vite-project/src/pages/Game.jsx:130-146 | the panel is drawn exactly for a non-null result; it says "won" exactly when the winner is this connection, "lost" for any other winner, and never "Draw!" |
| `GamePage.FindPlayer` | Frontend/vite-project/src/pages/Game.jsx:81 | `find` returns the first index with the id, or the length when no player has it |
| `GamePage.PlayerName` | Frontend/vite-project/src/pages/Game.jsx:80-81 | the name of the first player with the id; "Unknown" when none has it or when that name is empty |
| `GamePage.Game.constructor` | Frontend/vite-project/src/pages/Game.jsx:13-19 | the initial fields, with the chat empty after mount; the move guard holds |
| `GamePage.Game.OnBothPlayersJoined` | Frontend/vite-project/src/pages/Game.jsx:22-25 | takes the server's players and scores, nothing else changes |
| `GamePage.Game.OnRoundResult` | Frontend/vite-project/src/pages/Game.jsx:27-32 | sets moves, scores and `roundResult := winnerId` and clears `hasPicked`; after a win the guard fails; after a tie (null winner) the guard holds and no panel is drawn |
| `GamePage.Game.OnRematchStart` | Frontend/vite-project/src/pages/Game.jsx:34-38 | result cleared, moves emptied, `hasPicked` false; scores, players and chat unchanged |
| `GamePage.Game.OnChatMessage` | Frontend/vite-project/src/pages/Game.jsx:40-44 | the message is appended at the end; earlier messages are unchanged |
| `GamePage.Game.SetMessage` | Frontend/vite-project/src/pages/Game.jsx:199 | the chat input's text becomes the typed value |
| `GamePage.Game.SendMove` | Frontend/vite-project/src/pages/Game.jsx:62-67 | emits the move exactly when `MoveGuard` holds (`hasPicked` is false and there is no result), and then sets `hasPicked`; afterwards the guard fails |
| `GamePage.Game.Rematch` | Frontend/vite-project/src/pages/Game.jsx:69-71 | emits a rematch request and changes no page state |
| `GamePage.Game.SendChat` | Frontend/vite-project/src/pages/Game.jsx:73-78 | emits the untrimmed message and clears the input exactly when the message is not blank; otherwise nothing changes |
| `GamePage.PickTwice` | Frontend/vite-project/src/pages/Game.jsx:62-67 | two picks with no event between them: the second emits nothing |
| `GamePage.TiedRound` | Frontend/vite-project/src/pages/Game.jsx:27-32 | after a tie result a second move can be sent at once, with no rematch: the move guard and the result panel are those of a page with no result (the moves and scores of the tied round stay) |
| `Home.RoomCode` | Frontend/vite-project/src/pages/Home.jsx:13 | a new code has exactly six digits, no leading zero, and reads back as `100000 + offset` |
| `Home.RoomCodeInjective` | Frontend/vite-project/src/pages/Home.jsx:13 | different offsets give different codes |
| `Home.CreateRoom` | Frontend/vite-project/src/pages/Home.jsx:11-16 | refused with "Enter your name" exactly when the name is blank; otherwise stores the untrimmed name with a six-digit code and routes to `/lobby/<code>` |
| `Home.JoinRoom` | Frontend/vite-project/src/pages/Home.jsx:18-23 | a blank name is refused whatever the code; then refused with "Enter valid room code" exactly when the code's length is not 6; otherwise stores the untrimmed name and the code and routes to `/lobby/<code>` |
| `Home.NonDigitCodeAccepted` | Frontend/vite-project/src/pages/Home.jsx:20 | "12ab56" is accepted: only the length of the code is checked |
| `Home.CreatedCodeJoinable` | Frontend/vite-project/src/pages/Home.jsx:11-23 | a code made by `createRoom` passes `joinRoom` and gives the same record and route |

## Left out

- The multiplayer server is not part of this model: room capacity, blind move collection, scoring and disconnect handling. Its behaviour enters only as event payloads.
- `Frontend/vite-project/src/socket.js` and `Frontend/vite-project/src/pages/Lobby.jsx` are transport set-up and navigation glue.
- The `opponent-left` handler of the game page is left out. It only shows an alert and navigates home.
- Rendering is left out: JSX, CSS classes, `alert`, `navigate`, and the attaching and detaching of socket handlers in `useEffect`.
- DOM effects of `play`, `updateUI` and reset are left out, except the disabling of the choices: result texts, `aria-checked`, the hearts display, the history list and `console.error`.
- The confetti animation (script.js:110-150) is left out. It is canvas drawing with floating point.
- `randChoice`, `Math.random` and `Date` are parameters, not modelled.
- `parseInt` on the best-of selector is taken to give an integer. A non-numeric value (`NaN`) is not modelled.
- `RoundEngine.Game.Play` does not check whether the choices are disabled, because the source's `play` does not either. Disabled buttons are what stop input, and a debug hook can still call `play`.
- Lengths are counted in Unicode characters. JavaScript counts UTF-16 code units, so a six-character code containing a character outside the Basic Multilingual Plane would have length 7 in the source.
- React's batching of state updates is not modelled. Every handler's updates are taken to be visible before the next event.
- The initial `scores` value of the game page is an empty array in the source. It is modelled as an empty map, and the page never reads it.
- `JsText.DecimalString`: models `Number.prototype.toString` only for integers below 2^53. Above that JavaScript prints rounded digits, and from 10^21 on it uses exponent form (`"1e+21"`). The only caller, `createRoom`, passes values in [100000, 999999].
- An `undefined` winner id is not modelled. `Option` stands for `null` only; an `undefined` winner id would fail `roundResult === null` and draw "You Lost!".
