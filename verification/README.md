# Fruit memory game: a Dafny model of the game controller

The fruit memory game is a browser card game. Its controller is `script.js`.
It deals a board of face-down fruit cards, two of each symbol. The player turns
two cards at a time and scores 10 points for each pair found, against a
60-second countdown. This project models that controller and proves what it
promises.

- `deck.dfy` (module `Deck`) holds the board construction:
  - the twelve symbols;
  - the number of pairs each difficulty uses;
  - the in-place Fisher-Yates shuffle `shuffleArray`. It is a method over an
    `array`, proved against the functional specification `FisherYatesFrom`.
    It is also proved to be a permutation.
- `game.dfy` (module `MemoryGame`) holds the session state machine.
  - Class `Game` has one field per page-level variable of the script:
    `hasFlippedCard`, `lockBoard`, `firstCard`, `secondCard`, `matches`,
    `score`, `timer`, `timeLeft` and `gameStarted`.
  - It also holds the cards on the page, as a sequence of
    `Card(symbol, faceUp, clickable)`. `faceUp` is the `flipped` class and
    `clickable` is whether the click listener is still attached.
  - Last, it holds the event loop's pending timers.
  - Each event handler and each timer callback is a method: `InitGame`,
    `Click`/`FlipCard`, `PreviewEnd`, `UnflipDelayElapsed` and `Tick`. A caller
    may fire them in any order the event loop allows.
  - Each method states its whole new state in terms of the old one. Each one
    preserves the invariant `Valid()`:
    - score is ten times the pairs found;
    - `hasFlippedCard` holds exactly when a first card is recorded;
    - `lockBoard` holds exactly while a second card waits for its unflip
      timeout;
    - references to cards of the current board are in range and carry their
      card's symbol;
    - every interval handle in use was issued;
    - once no preview is pending, the only cards that are face up and still
      clickable are the selected ones. So at most two are (`AtMostTwoShown`).

A card element is identified by the board build that created it and its
position on that board (`CardRef`). `initGame` does not clear `firstCard`. A
selection left over from an earlier board is therefore an element that is no
longer on the page. The build number keeps it distinct from every card of the
new board.

`Math.random()` is a parameter. Each shuffle step takes a drawn position below
the current counter (`ValidDraws`). `DrawsOf` maps a stream of values in
[0, 1) to such positions by taking the floor of the exact product with the
counter; the floating-point product the browser computes can round up to the
next integer, which still lies below the counter (see "## Left out").

In several places the code does not do what a reader of the game would
expect. The model follows the code:

- `initGame` does not reset the whole session. `hasFlippedCard`, `firstCard`,
  `secondCard` and `lockBoard` keep their values (script.js:30-44).
  `StalePickAfterRestart` proves the consequence. After a restart with one
  card picked, the first card clicked on the new board is compared with the old
  card. Either it counts a pair on its own or it locks the board.
- The win test compares `matches` with half the number of cards on the page,
  not with the pair count (script.js:127). `InitGame` proves that the page then
  holds `2 * NumPairs(difficulty)` cards.
- Only "easy" and "medium" are named. Every other value of the selector gives
  12 pairs (script.js:47).
- The preview timeout is 7000 ms, while the comment says 3 seconds
  (script.js:67, 79). The model has no durations.
- One would expect `timeLeft` never to go below 0. The code does not ensure
  it. Whenever `initGame` runs twice within one preview, two previews are
  pending. Each preview end starts a new interval and replaces the tracked
  handle without stopping the interval it held. The tick that reaches 0 stops
  only the tracked interval (script.js:172-173), so the orphaned one keeps
  decrementing `timeLeft` below 0 (script.js:168-178). `initGame` disables the
  restart button and the selector for the preview (script.js:42-43), but their
  listeners are live from page load (script.js:187-188) and nothing disables
  the Start button (script.js:193-196). A restart click or a selector change
  before Start, followed by Start within the preview, therefore runs
  `initGame` twice, unless the start overlay keeps those controls from being
  used, which the page markup decides, not the script. The model leaves the
  controls out and lets `InitGame` run at any time (see "## Left out").
  `OrphanedInterval` proves the consequence: after a restart within a
  preview and both preview ends, ticks of the first interval drive
  `timeLeft` below 0.

## Model

| member | source | states |
|---|---|---|
| Deck.AllSymbolsDistinct | script.js:2 | the constant `AllSymbols` holds the twelve fruit symbols in the source's order; there are twelve and no two are equal |
| Deck.NumPairs | script.js:46-47 | "easy" gives 6 pairs, "medium" 8, and any other value 12, each as an if-and-only-if; never more than there are symbols |
| Deck.PairedSymbols | script.js:49-50 | the pair list: the first n symbols followed by the same n symbols, 2n cards; `PairedSymbolsTwice` states its content |
| Deck.PairedSymbolsTwice | script.js:49-50 | the first n symbols, duplicated, form 2n cards; each of those symbols occurs exactly twice and no other symbol occurs |
| Deck.RandomIndex | script.js:86 | Math.floor(r * currentIndex) for r in [0, 1) is the integer j with j <= r * currentIndex < j + 1, and it is below currentIndex |
| Deck.DrawsOf | script.js:85-86 | the positions drawn for a stream of Math.random() values are valid shuffle draws: draw k lies below the counter at step k |
| Deck.Swap | script.js:89 | the destructuring swap exchanges the two positions and leaves every other position as it was |
| Deck.FisherYatesFrom | script.js:83-90 | the remaining shuffle steps from a given counter keep the length |
| Deck.Shuffled | script.js:82-92 | the order the whole shuffle leaves its input in, of the same length; `ShuffledPermutes` proves it a permutation and `ShuffleArray` is proved equal to it |
| Deck.FisherYatesPermutes | script.js:85-90 | the remaining shuffle steps from any counter keep the multiset of elements |
| Deck.ShuffledPermutes | script.js:82-92 | the whole shuffle keeps the length and is a permutation of its input |
| Deck.NewBoardHasEachSymbolTwice | script.js:46-50 | for every difficulty and every valid draw sequence, the shuffled board has 2 * NumPairs cards and each of the first NumPairs symbols exactly twice |
| Deck.ShuffleArray | script.js:82-92 | the in-place loop leaves the array equal to the shuffle specification for the drawn positions, and a permutation of its old contents |
| MemoryGame.FreshCards | script.js:52-56 | each card built from a symbol carries that symbol and starts face up with its listener |
| MemoryGame.BuildBoard | script.js:49-65 | the new board's symbols are the shuffled pair list, in array order, every card face up and clickable |
| MemoryGame.AllFaceDown | script.js:69-70 | removing 'flipped' from every card turns each one face down and changes nothing else |
| MemoryGame.AllDisabled | script.js:182-183 | removing every listener makes each card non-clickable and changes nothing else |
| MemoryGame.Turned | script.js:99 | turning a referenced card up or down changes only that card, and only when it is on the current board |
| MemoryGame.Detached | script.js:140-141 | removing a referenced card's listener changes only that card, and only when it is on the current board |
| MemoryGame.ClearInterval | script.js:37 | clearInterval(timer) stops exactly the interval the handle names, and nothing when there is none |
| MemoryGame.Game.constructor | script.js:19-27 | the state at load: no selection, no lock, no pair found, score 0, 60 seconds, not started, no board and no timer |
| MemoryGame.Game.AtMostTwoShown | script.js:94-157 | once no preview is pending, at most two cards are face up and unresolved |
| MemoryGame.Game.InitGame | script.js:30-68 | matches, score and timeLeft become 0, 0 and 60; clicks are blocked; the tracked interval stops; the board is the shuffled pair list with 2 * NumPairs cards, all face up and clickable; one more preview is pending; the selection is kept; the invariant holds |
| MemoryGame.Game.StartSession | script.js:31-44 | the counters reset, the tracked interval stops, and the new board and its preview are in place; the invariant holds |
| MemoryGame.Game.ResetCounters | script.js:31-44 | matches 0, score 0, timeLeft 60 and clicks blocked; the invariant holds |
| MemoryGame.Game.ClearTimer | script.js:37 | the interval the tracked handle names stops; the invariant holds |
| MemoryGame.Game.ShowBoard | script.js:52-68 | the new cards replace the old ones as a new build, and a preview timeout is pending |
| MemoryGame.Game.PreviewEnd | script.js:68-79 | one pending preview fires: every card turns face down, clicks are accepted, and a fresh interval handle becomes the tracked one while earlier intervals keep running |
| MemoryGame.Game.HidePreview | script.js:69-70 | every card turns face down and the timeout is no longer pending |
| MemoryGame.Game.StartTimer | script.js:167-168 | setInterval returns a handle not in use; it becomes the tracked handle and a running interval |
| MemoryGame.Game.Click | script.js:63-97 | a click on a card without its listener, before the start or after the end, or while the board is locked changes nothing; no click changes the symbols on the board |
| MemoryGame.Game.FlipCard | script.js:94-113 | a complete no-op before the start, while locked, or on the first card; otherwise a first click turns the card up and records it; a matching second click makes both cards inert, adds exactly 1 match and 10 points, clears the selection and ends the game exactly when half the board is matched; a mismatching second click locks the board with score and matches unchanged |
| MemoryGame.Game.PickFirst | script.js:99-109 | the first card of a pair turns face up and becomes firstCard |
| MemoryGame.Game.PickSecond | script.js:99-111 | the second card turns face up and becomes secondCard, with the first one still recorded |
| MemoryGame.Game.CheckForMatch | script.js:115-137 | equal symbols: both cards lose their listeners, one more match, 10 more points, the selection is cleared, and at half the board the countdown stops and clicks are blocked; different symbols: the board locks and nothing else changes |
| MemoryGame.Game.MatchFound | script.js:118-133 | both cards lose their listeners, exactly one more match and ten more points, the selection is cleared, and the win happens exactly when matches reach half the board |
| MemoryGame.Game.CountMatch | script.js:120-121 | matches grows by exactly 1 and score by exactly 10 |
| MemoryGame.Game.EndGame | script.js:127-132 | the tracked interval stops and clicks are ignored |
| MemoryGame.Game.DisableCards | script.js:139-143 | both selected cards lose their listeners, then the selection and the lock are cleared |
| MemoryGame.Game.UnflipCards | script.js:145-147 | the board locks and the unflip timeout is pending |
| MemoryGame.Game.UnflipDelayElapsed | script.js:147-151 | both selected cards turn face down, and the selection and the lock are cleared |
| MemoryGame.Game.ResetBoard | script.js:154-157 | hasFlippedCard and lockBoard become false, firstCard and secondCard become empty |
| MemoryGame.Game.Tick | script.js:168-178 | timeLeft drops by exactly 1; at 0 or below, the tracked interval stops, every card loses its listener and clicks are blocked; otherwise nothing else changes |
| MemoryGame.Game.TimeUp | script.js:172-177 | the tracked interval stops, every card becomes non-clickable and clicks are ignored |
| MemoryGame.Game.DisableAllCards | script.js:181-184 | every card loses its listener and nothing else changes |
| MemoryGame.ClickAfterTimeUp | script.js:172-176 | once a tick brings the countdown to 0, no card has its listener, and a later click keeps the invariant and changes neither the score nor the pairs found |
| MemoryGame.Deliver | script.js:168-184 | once no card has its listener, any click, tick, preview end or unflip timeout keeps it so and changes neither the score nor the pairs found; each such event keeps this, one event at a time |
| MemoryGame.RestartWithPick | script.js:30-79 | after a restart with a card picked and its preview end, the new board has 2 * NumPairs clickable cards, clicks are accepted and the old pick is still recorded |
| MemoryGame.DeliverAfterWin | script.js:127-132 | after the win, with no preview pending, each click, tick or unflip timeout keeps clicks ignored and changes neither the score nor the pairs found, even while a card keeps its listener |
| MemoryGame.RestartDuringPreview | script.js:30-68 | initGame run again before its preview ends leaves two preview ends pending |
| MemoryGame.BothPreviewsEnd | script.js:67-79 | when both preview ends fire, the first interval is still running but no longer the tracked handle |
| MemoryGame.TickPastZero | script.js:168-178 | ticks of an interval that is not the tracked one go on past time-up, so timeLeft drops below 0 |
| MemoryGame.OrphanedInterval | script.js:30-79 | a restart within a preview, both preview ends and enough ticks bring timeLeft below 0 |
| MemoryGame.StalePickAfterRestart | script.js:30-44 | after such a restart, the first click on the new board either counts a pair on its own or locks the board |

## Left out

- service-worker.js and its registration (script.js:200-210): these are browser caching plumbing with console logging.
- The DOM and its text: element creation, `innerHTML`, the score, timer and end-of-game messages, and `updateScore`/`updateTimer` (script.js:36, 39, 57-62, 129, 159-165, 174). Only each card's symbol, its `flipped` class and its listener are kept.
- Audio playback (script.js:15-17, 102-103, 124-125, 130-131): a side effect on a foreign API.
- Enabling and disabling the restart button and the difficulty selector, and the start overlay (script.js:42-43, 74-75, 187-196). These are presentation only. Without them, `InitGame` may be called in any state. The model therefore covers every event order the page permits, and possibly more.
- Timer durations (7000 ms, 1000 ms). The timeouts and interval ticks are methods a caller fires in any order. For example, the 1000 ms unflip timeout and the 1000 ms interval have unrelated phases, so either may fire first; the model allows both orders.
- `Math.random()`: it is replaced by caller-supplied draws. `DrawsOf` relates them to a stream of random values.
- `shuffleArray` returns the array it was given. The model shuffles the array in place and does not return it again.
- The invariant "the number of matches never exceeds the number of pairs" is not proved, although it holds. A match of two cards of the current board removes the listener from two cards that still had one. A selection kept from an earlier board can count a pair with a single card of the new board (`StalePickAfterRestart`), but only once per board: `resetBoard` then clears it, and only `initGame` can leave a pick stale again, and it sets `matches` back to 0. So twice the matches never exceed the board size plus one, and since the board size is even, `matches` stays at or below half of it. Proving this needs a count of the cards without a listener in `Valid()`, which the model does not carry.
- What the stale match does cause is an early win, which the model allows but no lemma states. After a stale match on symbol s, the other card showing s can never be matched: its partner on the new board is gone. The remaining pairs still bring `matches` to half the number of cards (script.js:127), so the game is won with that card still face down.
- Deck.RandomIndex: takes the floor of the exact real product `r * currentIndex`, while the browser first rounds the product to a double. For some `Math.random()` values the rounded product reaches the next integer (for r = 7505999378950826 / 2^53 and a counter of 6 the browser gives 5 where the model gives 4). The browser's result is still below the counter, so every shuffle property, stated for all valid draws, covers it.
- The board's symbols are not part of `Valid()`. `InitGame` states them. Every other method keeps them: either it says so directly, or it states the new board through `AllFaceDown`, `AllDisabled`, `Turned` or `Detached`, each of which keeps the symbols.
- MemoryGame.Game.Click: for a card that has its listener while the game runs and the board is unlocked, its contract states only that the invariant holds and the symbols stay the same. The effect of that click is `FlipCard`'s contract.
