/** The game controller of the fruit memory game: the page-level variables
    of the script held in one object, one method per event handler, and one
    method per timer callback so that a caller can fire them in any order
    the event loop allows. */
module MemoryGame {
  import opened Deck

  datatype Option<T> = None | Some(value: T)

  /** A card element on the page: its data-symbol, whether it carries the
      'flipped' class (face up), and whether its click listener is still attached. */
  datatype Card = Card(symbol: string, faceUp: bool, clickable: bool)

  /** A reference to a card element: the board build it was created by, its
      position on that board, and its data-symbol. Elements of an earlier
      build are no longer on the page but the selection variables may still
      refer to them. */
  datatype CardRef = CardRef(build: nat, index: nat, symbol: string)

  function Symbols(board: seq<Card>): (s: seq<string>)
    ensures |s| == |board|
    ensures forall i :: 0 <= i < |board| ==> s[i] == board[i].symbol
  {
    seq(|board|, i requires 0 <= i < |board| => board[i].symbol)
  }

  /** The board after a new build's forEach: every card face up, with its listener. */
  function FreshCards(symbols: seq<string>): (board: seq<Card>)
    ensures Symbols(board) == symbols
    ensures forall i :: 0 <= i < |board| ==> board[i].faceUp && board[i].clickable
  {
    seq(|symbols|, i requires 0 <= i < |symbols| => Card(symbols[i], true, true))
  }

  lemma FreshCardsAppend(symbols: seq<string>, x: string)
    ensures FreshCards(symbols + [x]) == FreshCards(symbols) + [Card(x, true, true)]
  {
  }

  /** The board build of initGame: the first numPairs symbols twice, shuffled in
      place, then one face-up card with a listener per symbol, in array order. */
  method BuildBoard(numPairs: nat, draws: seq<nat>) returns (board: seq<Card>)
    requires numPairs <= |AllSymbols|
    requires ValidDraws(draws, 2 * numPairs)
    ensures Symbols(board) == Shuffled(PairedSymbols(numPairs), draws)
    ensures forall i :: 0 <= i < |board| ==> board[i].faceUp && board[i].clickable
  {
    var symbols := PairedSymbols(numPairs);
    var cardsArray := new string[|symbols|](i requires 0 <= i < |symbols| => symbols[i]);
    assert cardsArray[..] == symbols;
    ShuffleArray(cardsArray, draws);

    board := [];
    for k := 0 to cardsArray.Length
      invariant cardsArray[..] == Shuffled(symbols, draws)
      invariant board == FreshCards(cardsArray[..k])
    {
      assert cardsArray[..k + 1] == cardsArray[..k] + [cardsArray[k]];
      FreshCardsAppend(cardsArray[..k], cardsArray[k]);
      board := board + [Card(cardsArray[k], true, true)];
    }
    assert cardsArray[..cardsArray.Length] == cardsArray[..];
  }

  /** The board after removing 'flipped' from every card on the page. */
  function AllFaceDown(board: seq<Card>): (r: seq<Card>)
    ensures |r| == |board|
    ensures forall i :: 0 <= i < |board| ==> r[i] == board[i].(faceUp := false)
    ensures Symbols(r) == Symbols(board)
  {
    seq(|board|, i requires 0 <= i < |board| => board[i].(faceUp := false))
  }

  /** The board after disableAllCards: no card keeps its listener. */
  function AllDisabled(board: seq<Card>): (r: seq<Card>)
    ensures |r| == |board|
    ensures forall i :: 0 <= i < |board| ==> r[i] == board[i].(clickable := false)
    ensures Symbols(r) == Symbols(board)
  {
    seq(|board|, i requires 0 <= i < |board| => board[i].(clickable := false))
  }

  /** Turns the referenced card face up or down; an element that is not on the
      current board (an earlier build) leaves the board as it is. */
  function Turned(board: seq<Card>, build: nat, r: CardRef, up: bool): (b: seq<Card>)
    ensures |b| == |board|
    ensures forall k :: 0 <= k < |board| ==>
      b[k] == if r.build == build && k == r.index then board[k].(faceUp := up) else board[k]
    ensures Symbols(b) == Symbols(board)
  {
    if r.build == build && r.index < |board| then board[r.index := board[r.index].(faceUp := up)]
    else board
  }

  /** Removes the click listener from the referenced card; an element that is not
      on the current board leaves the board as it is. */
  function Detached(board: seq<Card>, build: nat, r: CardRef): (b: seq<Card>)
    ensures |b| == |board|
    ensures forall k :: 0 <= k < |board| ==>
      b[k] == if r.build == build && k == r.index then board[k].(clickable := false) else board[k]
    ensures Symbols(b) == Symbols(board)
  {
    if r.build == build && r.index < |board| then board[r.index := board[r.index].(clickable := false)]
    else board
  }

  /** clearInterval(timer): stops the interval the handle names, if any. */
  function ClearInterval(active: set<nat>, timer: Option<nat>): (r: set<nat>)
    ensures timer.None? ==> r == active
    ensures timer.Some? ==> r == active - {timer.value}
  {
    if timer.Some? then active - {timer.value} else active
  }

  lemma {:induction false} SubsetNoLarger<T>(a: set<T>, b: set<T>)
    requires a <= b
    ensures |a| <= |b|
    decreases a
  {
    if a != {} {
      var x :| x in a;
      SubsetNoLarger(a - {x}, b - {x});
    }
  }

  class Game {
    // The script's page-level variables.
    var hasFlippedCard: bool
    var lockBoard: bool
    var firstCard: Option<CardRef>
    var secondCard: Option<CardRef>
    var matches: nat
    var score: nat
    var timeLeft: int
    var gameStarted: bool
    /** The handle last returned by setInterval (undefined before the first start). */
    var timer: Option<nat>

    /** The cards of the game board, in page order. */
    var board: seq<Card>
    /** How many boards have been built; the current board is build number `build`. */
    var build: nat

    // The event loop's pending timers.
    /** Preview timeouts scheduled by initGame and not yet fired (they are never cancelled). */
    var pendingPreviews: nat
    /** Whether the one-second unflip timeout of a mismatch is pending. */
    var unflipPending: bool
    /** Handles of the countdown intervals that are still running. */
    var activeIntervals: set<nat>
    /** The handle the next setInterval returns. */
    var nextTimerId: nat

    /** r is a card of the current board at position i. */
    predicate Selects(r: Option<CardRef>, i: nat)
      reads this`build
    {
      r.Some? && r.value.build == build && r.value.index == i
    }

    /** A reference to a card of the current build is in range and carries that card's symbol. */
    ghost predicate RefOk(r: Option<CardRef>)
      reads this`build, this`board
    {
      r.Some? ==>
        r.value.build <= build &&
        (r.value.build == build ==> r.value.index < |board| && board[r.value.index].symbol == r.value.symbol)
    }

    /** Once no preview is pending, a card is face up and still clickable only
        while it is one of the selected cards. */
    ghost predicate OnlySelectedShown()
      reads this`pendingPreviews, this`board, this`build, this`firstCard, this`secondCard
    {
      pendingPreviews == 0 ==>
        forall i :: 0 <= i < |board| && board[i].faceUp && board[i].clickable ==>
          Selects(firstCard, i) || Selects(secondCard, i)
    }

    /** Once no preview is pending, no card is face up and still clickable. */
    ghost predicate NothingShown()
      reads this`pendingPreviews, this`board
    {
      pendingPreviews == 0 ==>
        forall i :: 0 <= i < |board| ==> !(board[i].faceUp && board[i].clickable)
    }

    /** Ten points per pair found. */
    ghost predicate ScoreOk()
      reads this`score, this`matches
    {
      score == 10 * matches
    }

    /** Every interval handle in use was issued by setInterval. */
    ghost predicate TimersOk()
      reads this`activeIntervals, this`timer, this`nextTimerId
    {
      && (forall t :: t in activeIntervals ==> t < nextTimerId)
      && (timer.Some? ==> timer.value < nextTimerId)
    }

    /** The part of the invariant that holds between any two statements of the handlers. */
    ghost predicate Core()
      reads this`score, this`matches, this`build, this`board, this`firstCard, this`secondCard,
        this`activeIntervals, this`timer, this`nextTimerId
    {
      ScoreOk() && RefOk(firstCard) && RefOk(secondCard) && TimersOk()
    }

    /** The first selection is recorded exactly when hasFlippedCard is set, and the
        board is locked exactly while a second selection waits for its unflip timeout. */
    ghost predicate SelectionOk()
      reads this`hasFlippedCard, this`lockBoard, this`firstCard, this`secondCard, this`unflipPending
    {
      && (hasFlippedCard <==> firstCard.Some?)
      && (lockBoard <==> secondCard.Some?)
      && (lockBoard <==> unflipPending)
      && (lockBoard ==> hasFlippedCard)
    }

    /** The invariant between events; it does not depend on gameStarted or timeLeft. */
    ghost predicate Valid()
      reads this`score, this`matches, this`build, this`board, this`firstCard, this`secondCard,
        this`activeIntervals, this`timer, this`nextTimerId,
        this`hasFlippedCard, this`lockBoard, this`unflipPending, this`pendingPreviews
    {
      Core() && SelectionOk() && OnlySelectedShown()
    }

    /** The state inside flipCard when checkForMatch is called: two cards selected,
        the second one on the current board, the board not locked. */
    ghost predicate Evaluating()
      reads this`score, this`matches, this`build, this`board, this`firstCard, this`secondCard,
        this`activeIntervals, this`timer, this`nextTimerId,
        this`hasFlippedCard, this`lockBoard, this`unflipPending, this`pendingPreviews
    {
      && Core()
      && hasFlippedCard && firstCard.Some?
      && secondCard.Some? && secondCard.value.build == build
      && !lockBoard && !unflipPending
      && OnlySelectedShown()
    }

    /** The positions of the cards that are face up and still have their listener. */
    ghost function ShownCards(): set<nat>
      reads this`board
    {
      set i: nat | i < |board| && board[i].faceUp && board[i].clickable
    }

    /** Once no preview is pending, at most two cards are face up and unresolved. */
    lemma AtMostTwoShown()
      requires Valid() && pendingPreviews == 0
      ensures |ShownCards()| <= 2
    {
      var firstPick: set<nat> := if firstCard.Some? then {firstCard.value.index} else {};
      var secondPick: set<nat> := if secondCard.Some? then {secondCard.value.index} else {};
      assert ShownCards() <= firstPick + secondPick;
      SubsetNoLarger(ShownCards(), firstPick + secondPick);
    }

    function RefTo(i: nat): CardRef
      reads this`build, this`board
      requires i < |board|
    {
      CardRef(build, i, board[i].symbol)
    }

    /** The state when the script is loaded: no board, no selection, 60 seconds. */
    constructor ()
      ensures Valid()
      ensures !hasFlippedCard && !lockBoard && firstCard == None && secondCard == None
      ensures matches == 0 && score == 0 && timeLeft == 60 && !gameStarted && timer == None
      ensures board == [] && pendingPreviews == 0 && !unflipPending && activeIntervals == {}
    {
      hasFlippedCard, lockBoard := false, false;
      firstCard, secondCard := None, None;
      matches, score, timeLeft := 0, 0, 60;
      gameStarted := false;
      timer := None;
      board, build := [], 0;
      pendingPreviews, unflipPending := 0, false;
      activeIntervals, nextTimerId := {}, 0;
    }

    /** initGame: resets the counters, stops the tracked countdown, blocks clicks,
        builds a new shuffled board of face-up clickable cards and schedules the
        preview end. The selection and the lock are left as they were. */
    method InitGame(difficulty: string, draws: seq<nat>)
      requires Valid()
      requires ValidDraws(draws, 2 * NumPairs(difficulty))
      modifies this`matches, this`score, this`timeLeft, this`activeIntervals, this`board,
        this`gameStarted, this`build, this`pendingPreviews
      ensures Valid()
      ensures matches == 0 && score == 0 && timeLeft == 60 && !gameStarted
      ensures activeIntervals == ClearInterval(old(activeIntervals), timer)
      ensures Symbols(board) == Shuffled(PairedSymbols(NumPairs(difficulty)), draws)
      ensures |board| == 2 * NumPairs(difficulty)
      ensures forall i :: 0 <= i < |board| ==> board[i].faceUp && board[i].clickable
      ensures build == old(build) + 1
      ensures pendingPreviews == old(pendingPreviews) + 1
    {
      // The new board depends on nothing the resets change, so it is built first.
      var newBoard := BuildBoard(NumPairs(difficulty), draws);
      StartSession(newBoard);
    }

    /** The state changes of initGame around the board build. */
    method StartSession(newBoard: seq<Card>)
      requires Valid()
      modifies this`matches, this`score, this`timeLeft, this`activeIntervals, this`board,
        this`gameStarted, this`build, this`pendingPreviews
      ensures Valid()
      ensures matches == 0 && score == 0 && timeLeft == 60 && !gameStarted
      ensures activeIntervals == ClearInterval(old(activeIntervals), timer)
      ensures board == newBoard && build == old(build) + 1
      ensures pendingPreviews == old(pendingPreviews) + 1
    {
      ResetCounters();
      ClearTimer();
      ShowBoard(newBoard);
    }

    /** The resets of initGame: score, matches and time back to their start values,
        and clicks blocked until the preview ends. */
    method ResetCounters()
      requires Valid()
      modifies this`matches, this`score, this`timeLeft, this`gameStarted
      ensures Valid()
      ensures matches == 0 && score == 0 && timeLeft == 60 && !gameStarted
    {
      matches, score, timeLeft := 0, 0, 60;
      gameStarted := false;
    }

    /** clearInterval(timer): stops the interval the tracked handle names. */
    method ClearTimer()
      requires Valid()
      modifies this`activeIntervals
      ensures Valid()
      ensures activeIntervals == ClearInterval(old(activeIntervals), timer)
    {
      activeIntervals := ClearInterval(activeIntervals, timer);
    }

    /** The board part of initGame: the old cards leave the page, the new ones are
        appended, and the preview timeout is scheduled. */
    method ShowBoard(newBoard: seq<Card>)
      requires Valid()
      modifies this`board, this`build, this`pendingPreviews
      ensures Valid()
      ensures board == newBoard && build == old(build) + 1
      ensures pendingPreviews == old(pendingPreviews) + 1
    {
      board, build := newBoard, build + 1;
      pendingPreviews := pendingPreviews + 1;
    }

    /** The preview timeout: every card on the page turns face down, clicks are
        accepted, and a new countdown interval starts (its handle replaces the
        tracked one without stopping the previous interval). */
    method PreviewEnd()
      requires Valid() && pendingPreviews > 0
      modifies this`pendingPreviews, this`board, this`gameStarted, this`timer,
        this`activeIntervals, this`nextTimerId
      ensures Valid()
      ensures pendingPreviews == old(pendingPreviews) - 1
      ensures board == AllFaceDown(old(board))
      ensures gameStarted
      ensures old(nextTimerId) !in old(activeIntervals)
      ensures timer == Some(old(nextTimerId))
      ensures activeIntervals == old(activeIntervals) + {old(nextTimerId)}
      ensures nextTimerId == old(nextTimerId) + 1
    {
      HidePreview();
      gameStarted := true;
      StartTimer();
    }

    /** The first statement of the preview timeout: the 'flipped' class is removed
        from every card on the page; the timeout is no longer pending. */
    method HidePreview()
      requires Valid() && pendingPreviews > 0
      modifies this`pendingPreviews, this`board
      ensures Valid()
      ensures pendingPreviews == old(pendingPreviews) - 1
      ensures board == AllFaceDown(old(board))
    {
      board := AllFaceDown(board);
      pendingPreviews := pendingPreviews - 1;
    }

    /** startTimer: setInterval returns a handle not in use and stores it in timer. */
    method StartTimer()
      requires Valid()
      modifies this`timer, this`activeIntervals, this`nextTimerId
      ensures Valid()
      ensures old(nextTimerId) !in old(activeIntervals)
      ensures timer == Some(old(nextTimerId))
      ensures activeIntervals == old(activeIntervals) + {old(nextTimerId)}
      ensures nextTimerId == old(nextTimerId) + 1
    {
      timer := Some(nextTimerId);
      activeIntervals := activeIntervals + {nextTimerId};
      nextTimerId := nextTimerId + 1;
    }

    /** A click on card i of the board: the listener calls flipCard only while
        it is attached. */
    method Click(i: nat)
      requires Valid() && i < |board|
      modifies this`board, this`hasFlippedCard, this`firstCard, this`secondCard, this`lockBoard,
        this`unflipPending, this`matches, this`score, this`gameStarted, this`activeIntervals
      ensures Valid()
      ensures Symbols(board) == old(Symbols(board))
      ensures !old(board[i].clickable) || !old(gameStarted) || old(lockBoard) ==> unchanged(this)
    {
      if board[i].clickable {
        FlipCard(i);
      }
    }

    /** flipCard, run for card i while it has its listener. */
    method FlipCard(i: nat)
      requires Valid() && i < |board| && board[i].clickable
      modifies this`board, this`hasFlippedCard, this`firstCard, this`secondCard, this`lockBoard,
        this`unflipPending, this`matches, this`score, this`gameStarted, this`activeIntervals
      ensures Valid()
      ensures Symbols(board) == old(Symbols(board))
      // Clicks before the start, while locked, or on the first card are ignored.
      ensures !old(gameStarted) || old(lockBoard) || old(Selects(firstCard, i)) ==> unchanged(this)
      // The first click of a pair only turns the card up and records it.
      ensures old(gameStarted && !lockBoard && !Selects(firstCard, i) && !hasFlippedCard) ==>
        && board == old(board)[i := old(board[i]).(faceUp := true)]
        && hasFlippedCard && firstCard == Some(old(RefTo(i)))
        && secondCard == old(secondCard) && !lockBoard && !unflipPending
        && matches == old(matches) && score == old(score) && gameStarted
        && activeIntervals == old(activeIntervals)
      // A second click with the first card's symbol: both lose their listeners, one more match.
      ensures old(gameStarted && !lockBoard && !Selects(firstCard, i) && hasFlippedCard) &&
              old(firstCard.value.symbol == board[i].symbol) ==>
        && board == Detached(Detached(old(board)[i := old(board[i]).(faceUp := true)],
                                      build, old(firstCard.value)), build, old(RefTo(i)))
        && matches == old(matches) + 1 && score == old(score) + 10
        && !hasFlippedCard && !lockBoard && firstCard == None && secondCard == None && !unflipPending
        && (gameStarted <==> 2 * matches != |board|)
        && activeIntervals == if 2 * matches == |board| then ClearInterval(old(activeIntervals), timer)
                              else old(activeIntervals)
      // A second click with another symbol: the card turns up and the board locks.
      ensures old(gameStarted && !lockBoard && !Selects(firstCard, i) && hasFlippedCard) &&
              old(firstCard.value.symbol != board[i].symbol) ==>
        && board == old(board)[i := old(board[i]).(faceUp := true)]
        && lockBoard && unflipPending && hasFlippedCard
        && firstCard == old(firstCard) && secondCard == Some(old(RefTo(i)))
        && matches == old(matches) && score == old(score) && gameStarted
        && activeIntervals == old(activeIntervals)
    {
      if !gameStarted { return; }
      if lockBoard { return; }
      if Selects(firstCard, i) { return; }

      if !hasFlippedCard {
        PickFirst(i);
        return;
      }
      PickSecond(i);
      CheckForMatch();
    }

    /** The rest of flipCard for the first card of a pair: it turns face up and
        becomes firstCard. */
    method PickFirst(i: nat)
      requires Valid() && i < |board| && board[i].clickable
      requires !lockBoard && !hasFlippedCard
      modifies this`board, this`hasFlippedCard, this`firstCard
      ensures Valid()
      ensures board == old(board)[i := old(board[i]).(faceUp := true)]
      ensures hasFlippedCard && firstCard == Some(old(RefTo(i)))
    {
      board := Turned(board, build, RefTo(i), true);
      hasFlippedCard := true;
      firstCard := Some(RefTo(i));
    }

    /** The rest of flipCard up to checkForMatch for the second card of a pair:
        it turns face up and becomes secondCard. */
    method PickSecond(i: nat)
      requires Valid() && i < |board| && board[i].clickable
      requires !lockBoard && hasFlippedCard && !Selects(firstCard, i)
      modifies this`board, this`secondCard
      ensures Evaluating()
      ensures board == old(board)[i := old(board[i]).(faceUp := true)]
      ensures secondCard == Some(old(RefTo(i)))
    {
      board := Turned(board, build, RefTo(i), true);
      secondCard := Some(RefTo(i));
    }

    /** checkForMatch: compares the symbols of the two selected cards. */
    method CheckForMatch()
      requires Evaluating()
      modifies this`board, this`hasFlippedCard, this`firstCard, this`secondCard, this`lockBoard,
        this`unflipPending, this`matches, this`score, this`gameStarted, this`activeIntervals
      ensures Valid()
      ensures Symbols(board) == old(Symbols(board))
      ensures old(firstCard.value.symbol == secondCard.value.symbol) ==>
        && board == Detached(Detached(old(board), build, old(firstCard.value)), build, old(secondCard.value))
        && matches == old(matches) + 1 && score == old(score) + 10
        && !hasFlippedCard && !lockBoard && firstCard == None && secondCard == None && !unflipPending
        && (2 * matches == |board| ==> !gameStarted && activeIntervals == ClearInterval(old(activeIntervals), timer))
        && (2 * matches != |board| ==> gameStarted == old(gameStarted) && activeIntervals == old(activeIntervals))
      ensures old(firstCard.value.symbol != secondCard.value.symbol) ==>
        && board == old(board) && lockBoard && unflipPending && hasFlippedCard
        && firstCard == old(firstCard) && secondCard == old(secondCard)
        && matches == old(matches) && score == old(score)
        && gameStarted == old(gameStarted) && activeIntervals == old(activeIntervals)
    {
      var isMatch := firstCard.value.symbol == secondCard.value.symbol;
      if isMatch {
        MatchFound();
      } else {
        UnflipCards();
      }
    }

    /** The isMatch branch of checkForMatch: both cards lose their listeners, the
        pair is counted, and when the count reaches half the board the game is won. */
    method MatchFound()
      requires Evaluating()
      modifies this`board, this`hasFlippedCard, this`firstCard, this`secondCard, this`lockBoard,
        this`matches, this`score, this`gameStarted, this`activeIntervals
      ensures Valid()
      ensures board == Detached(Detached(old(board), build, old(firstCard.value)), build, old(secondCard.value))
      ensures matches == old(matches) + 1 && score == old(score) + 10
      ensures !hasFlippedCard && !lockBoard && firstCard == None && secondCard == None
      ensures 2 * matches == |board| ==> !gameStarted && activeIntervals == ClearInterval(old(activeIntervals), timer)
      ensures 2 * matches != |board| ==> gameStarted == old(gameStarted) && activeIntervals == old(activeIntervals)
    {
      DisableCards();
      CountMatch();
      if 2 * matches == |board| {
        EndGame();
      }
    }

    /** matches++ and score += 10. */
    method CountMatch()
      requires Valid()
      modifies this`matches, this`score
      ensures Valid()
      ensures matches == old(matches) + 1 && score == old(score) + 10
    {
      matches := matches + 1;
      score := score + 10;
    }

    /** The win: the tracked countdown stops and clicks are ignored from now on. */
    method EndGame()
      requires Valid()
      modifies this`activeIntervals, this`gameStarted
      ensures Valid()
      ensures activeIntervals == ClearInterval(old(activeIntervals), timer) && !gameStarted
    {
      activeIntervals := ClearInterval(activeIntervals, timer);
      gameStarted := false;
    }

    /** disableCards: both selected cards lose their listeners, then resetBoard. */
    method DisableCards()
      requires Evaluating()
      modifies this`board, this`hasFlippedCard, this`firstCard, this`secondCard, this`lockBoard
      ensures Valid()
      ensures board == Detached(Detached(old(board), build, old(firstCard.value)), build, old(secondCard.value))
      ensures !hasFlippedCard && !lockBoard && firstCard == None && secondCard == None
    {
      board := Detached(board, build, firstCard.value);
      board := Detached(board, build, secondCard.value);
      ResetBoard();
    }

    /** unflipCards: locks the board and schedules the unflip timeout. */
    method UnflipCards()
      requires Evaluating()
      modifies this`lockBoard, this`unflipPending
      ensures Valid()
      ensures lockBoard && unflipPending
    {
      lockBoard := true;
      unflipPending := true;
    }

    /** The unflip timeout: the two selected cards turn face down, then resetBoard. */
    method UnflipDelayElapsed()
      requires Valid() && unflipPending
      modifies this`board, this`hasFlippedCard, this`firstCard, this`secondCard, this`lockBoard,
        this`unflipPending
      ensures Valid()
      ensures board == Turned(Turned(old(board), build, old(firstCard.value), false),
                              build, old(secondCard.value), false)
      ensures !hasFlippedCard && !lockBoard && firstCard == None && secondCard == None && !unflipPending
    {
      unflipPending := false;
      board := Turned(board, build, firstCard.value, false);
      board := Turned(board, build, secondCard.value, false);
      ResetBoard();
    }

    /** resetBoard: clears the selection and the lock. */
    method ResetBoard()
      requires Core() && !unflipPending && NothingShown()
      modifies this`hasFlippedCard, this`firstCard, this`secondCard, this`lockBoard
      ensures Valid()
      ensures !hasFlippedCard && !lockBoard && firstCard == None && secondCard == None
    {
      hasFlippedCard, lockBoard := false, false;
      firstCard, secondCard := None, None;
    }

    /** One tick of countdown interval id: one second less; at zero or below the
        tracked interval stops, every card loses its listener and clicks are ignored. */
    method Tick(id: nat)
      requires Valid() && id in activeIntervals
      modifies this`timeLeft, this`activeIntervals, this`board, this`gameStarted
      ensures Valid()
      ensures timeLeft == old(timeLeft) - 1
      ensures timeLeft <= 0 ==>
        && activeIntervals == ClearInterval(old(activeIntervals), timer)
        && board == AllDisabled(old(board))
        && !gameStarted
      ensures timeLeft > 0 ==>
        board == old(board) && activeIntervals == old(activeIntervals) && gameStarted == old(gameStarted)
    {
      timeLeft := timeLeft - 1;
      if timeLeft <= 0 {
        TimeUp();
      }
    }

    /** The end of the countdown: the tracked interval stops, every card loses its
        listener and clicks are ignored. */
    method TimeUp()
      requires Valid()
      modifies this`activeIntervals, this`board, this`gameStarted
      ensures Valid()
      ensures activeIntervals == ClearInterval(old(activeIntervals), timer)
      ensures board == AllDisabled(old(board)) && !gameStarted
    {
      ClearTimer();
      DisableAllCards();
      gameStarted := false;
    }

    /** disableAllCards: every card on the page loses its listener. */
    method DisableAllCards()
      requires Valid()
      modifies this`board
      ensures Valid()
      ensures board == AllDisabled(old(board))
    {
      board := AllDisabled(board);
    }
  }

  /** Once a tick has brought the countdown to zero, a click on any card leaves
      the score and the pairs found as they were, and no card has its listener. */
  method ClickAfterTimeUp(g: Game, id: nat, i: nat)
    requires g.Valid() && id in g.activeIntervals && g.timeLeft <= 1 && i < |g.board|
    modifies g
    ensures g.Valid()
    ensures g.score == old(g.score) && g.matches == old(g.matches)
    ensures NoneClickable(g.board)
  {
    g.Tick(id);
    g.Click(i);
  }

  /** No card on the page has its click listener, as after disableAllCards. */
  ghost predicate NoneClickable(board: seq<Card>) {
    forall k :: 0 <= k < |board| ==> !board[k].clickable
  }

  /** An event the page delivers other than a restart: a click on a card, a tick
      of a running interval, the end of a preview, or the end of an unflip delay. */
  datatype Event = ClickOn(i: nat) | IntervalTick(id: nat) | PreviewTimeout | UnflipTimeout

  /** Delivers one event; one whose card, interval or timeout does not exist is
      not fired. Once no card has its listener, every such event keeps it so and
      leaves the score and the pairs found as they were. */
  method Deliver(g: Game, e: Event)
    requires g.Valid() && NoneClickable(g.board)
    modifies g
    ensures g.Valid() && NoneClickable(g.board)
    ensures g.score == old(g.score) && g.matches == old(g.matches)
  {
    match e
    case ClickOn(i) =>
      if i < |g.board| {
        g.Click(i);
      }
    case IntervalTick(id) =>
      if id in g.activeIntervals {
        g.Tick(id);
      }
    case PreviewTimeout =>
      if g.pendingPreviews > 0 {
        g.PreviewEnd();
      }
    case UnflipTimeout =>
      if g.unflipPending {
        g.UnflipDelayElapsed();
      }
  }

  /** Delivers one event after the win: clicks are ignored and no preview is
      pending, so no event other than a restart starts the game again, and none
      changes the score or the pairs found, even while a card keeps its listener. */
  method DeliverAfterWin(g: Game, e: Event)
    requires g.Valid() && !g.gameStarted && g.pendingPreviews == 0
    modifies g
    ensures g.Valid() && !g.gameStarted && g.pendingPreviews == 0
    ensures g.score == old(g.score) && g.matches == old(g.matches)
  {
    match e
    case ClickOn(i) =>
      if i < |g.board| {
        g.Click(i);
      }
    case IntervalTick(id) =>
      if id in g.activeIntervals {
        g.Tick(id);
      }
    case PreviewTimeout =>
    case UnflipTimeout =>
      if g.unflipPending {
        g.UnflipDelayElapsed();
      }
  }

  /** A restart while a preview is pending: two preview ends are then pending. */
  method RestartDuringPreview(g: Game, difficulty: string, draws: seq<nat>, draws2: seq<nat>)
    requires g.Valid() && g.pendingPreviews == 0
    requires ValidDraws(draws, 2 * NumPairs(difficulty)) && ValidDraws(draws2, 2 * NumPairs(difficulty))
    modifies g
    ensures g.Valid() && g.pendingPreviews == 2
  {
    g.InitGame(difficulty, draws);
    g.InitGame(difficulty, draws2);
  }

  /** Both pending previews end: each starts an interval, and the second replaces
      the tracked handle, so the first interval runs on untracked. */
  method BothPreviewsEnd(g: Game) returns (first: nat)
    requires g.Valid() && g.pendingPreviews == 2
    modifies g
    ensures g.Valid() && g.timeLeft == old(g.timeLeft)
    ensures first in g.activeIntervals && g.timer != Some(first)
  {
    g.PreviewEnd();
    first := g.timer.value;
    g.PreviewEnd();
  }

  /** The untracked interval keeps ticking: the tick that reaches 0 stops only the
      tracked one, so the countdown goes below 0. */
  method TickPastZero(g: Game, first: nat)
    requires g.Valid() && first in g.activeIntervals && g.timer != Some(first)
    modifies g
    ensures g.timeLeft < 0 && first in g.activeIntervals
  {
    while g.timeLeft >= 0
      invariant g.Valid() && first in g.activeIntervals && g.timer != Some(first)
      decreases g.timeLeft
    {
      g.Tick(first);
    }
  }

  /** initGame run again within a preview leaves an interval nobody stops: the
      countdown then drops below 0. */
  method OrphanedInterval(g: Game, difficulty: string, draws: seq<nat>, draws2: seq<nat>)
    requires g.Valid() && g.pendingPreviews == 0
    requires ValidDraws(draws, 2 * NumPairs(difficulty)) && ValidDraws(draws2, 2 * NumPairs(difficulty))
    modifies g
    ensures g.timeLeft < 0
  {
    RestartDuringPreview(g, difficulty, draws, draws2);
    var first := BothPreviewsEnd(g);
    TickPastZero(g, first);
  }

  /** initGame keeps a pending first pick: after a restart and its preview, the
      first card clicked on the new board is evaluated as the second card of a
      pair, against the card picked on the old board. It either counts a match on
      its own or locks the board, where a first pick does neither. */
  method StalePickAfterRestart(g: Game, difficulty: string, draws: seq<nat>, i: nat)
    requires g.Valid() && g.hasFlippedCard && !g.lockBoard && g.pendingPreviews == 0
    requires ValidDraws(draws, 2 * NumPairs(difficulty)) && i < 2 * NumPairs(difficulty)
    modifies g
    ensures g.matches == 1 || g.lockBoard
  {
    RestartWithPick(g, difficulty, draws);
    g.FlipCard(i);
  }

  /** A restart followed by its preview end: a new board of 2 * NumPairs clickable
      cards, no pair found, clicks accepted, and the first pick of the old board
      still pending. */
  method RestartWithPick(g: Game, difficulty: string, draws: seq<nat>)
    requires g.Valid() && g.hasFlippedCard && !g.lockBoard && g.pendingPreviews == 0
    requires ValidDraws(draws, 2 * NumPairs(difficulty))
    modifies g
    ensures g.Valid() && g.gameStarted && g.matches == 0
    ensures g.hasFlippedCard && !g.lockBoard && g.firstCard.Some? && g.firstCard.value.build < g.build
    ensures |g.board| == 2 * NumPairs(difficulty)
    ensures forall k :: 0 <= k < |g.board| ==> g.board[k].clickable
  {
    g.InitGame(difficulty, draws);
    g.PreviewEnd();
  }
}
