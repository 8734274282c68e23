/** The deck of the fruit memory game: the twelve card symbols, the number
    of pairs each difficulty uses, and the in-place Fisher-Yates shuffle
    that orders a new board. */
module Deck {

  /** The twelve card symbols, in the order the game takes them from:
      apple, banana, grapes, watermelon, cherries, kiwi, pineapple,
      strawberry, peach, coconut, lemon, pear. */
  const AllSymbols: seq<string> := [
    "\U{1F34E}", "\U{1F34C}", "\U{1F347}", "\U{1F349}",
    "\U{1F352}", "\U{1F95D}", "\U{1F34D}", "\U{1F353}",
    "\U{1F351}", "\U{1F965}", "\U{1F34B}", "\U{1F350}"
  ]

  ghost predicate Distinct<T>(s: seq<T>) {
    forall i, j :: 0 <= i < j < |s| ==> s[i] != s[j]
  }

  lemma AllSymbolsDistinct()
    ensures |AllSymbols| == 12
    ensures Distinct(AllSymbols)
  {
  }

  /** The number of pairs on the board for the value of the difficulty
      selector: "easy" gives 6, "medium" gives 8, anything else gives 12. */
  function NumPairs(difficulty: string): (n: nat)
    ensures difficulty == "easy" <==> n == 6
    ensures difficulty == "medium" <==> n == 8
    ensures difficulty != "easy" && difficulty != "medium" <==> n == 12
    ensures n <= |AllSymbols|
  {
    if difficulty == "easy" then 6 else if difficulty == "medium" then 8 else 12
  }

  /** The unshuffled board: the first n symbols, followed by the same n symbols again. */
  function PairedSymbols(n: nat): (s: seq<string>)
    requires n <= |AllSymbols|
    ensures |s| == 2 * n
  {
    AllSymbols[..n] + AllSymbols[..n]
  }

  /** In a sequence without repetitions every value occurs at most once. */
  lemma {:induction false} DistinctOccursOnce<T>(s: seq<T>, x: T)
    requires Distinct(s)
    ensures multiset(s)[x] == if x in s then 1 else 0
  {
    if s != [] {
      assert s == [s[0]] + s[1..];
      assert Distinct(s[1..]) by {
        forall i, j | 0 <= i < j < |s[1..]| ensures s[1..][i] != s[1..][j] {
          assert s[1..][i] == s[i + 1] && s[1..][j] == s[j + 1];
        }
      }
      DistinctOccursOnce(s[1..], x);
      if x == s[0] {
        assert x !in s[1..] by {
          forall k | 0 <= k < |s[1..]| ensures s[1..][k] != x {
            assert s[1..][k] == s[k + 1];
          }
        }
      }
    }
  }

  /** The unshuffled board has 2n cards, and each of the first n symbols
      occurs on it exactly twice; no other symbol occurs. */
  lemma PairedSymbolsTwice(n: nat, x: string)
    requires n <= |AllSymbols|
    ensures |PairedSymbols(n)| == 2 * n
    ensures multiset(PairedSymbols(n))[x] == if x in AllSymbols[..n] then 2 else 0
  {
    AllSymbolsDistinct();
    var firsts := AllSymbols[..n];
    assert Distinct(firsts) by {
      forall i, j | 0 <= i < j < |firsts| ensures firsts[i] != firsts[j] {
        assert firsts[i] == AllSymbols[i] && firsts[j] == AllSymbols[j];
      }
    }
    DistinctOccursOnce(firsts, x);
    assert multiset(firsts + firsts) == multiset(firsts) + multiset(firsts);
  }

  /** Every draw of the random stream is a value of Math.random(): in [0, 1). */
  ghost predicate IsRandomStream(random: seq<real>) {
    forall k :: 0 <= k < |random| ==> 0.0 <= random[k] < 1.0
  }

  /** Math.floor(r * current) for a draw r in [0, 1): a position below current. */
  function RandomIndex(r: real, current: nat): (j: nat)
    requires 0.0 <= r < 1.0 && current > 0
    ensures j < current
    ensures j as real <= r * current as real < j as real + 1.0
  {
    var c := current as real;
    var x := r * c;
    assert 0.0 <= x by {
      assert 0.0 <= r && 0.0 < c;
    }
    assert x < c by {
      assert c - x == (1.0 - r) * c;
      assert (1.0 - r) * c > 0.0;
    }
    x.Floor
  }

  /** The random positions a shuffle of n elements draws: draw k is taken when
      the counter stands at n - k, so it lies below n - k. */
  ghost predicate ValidDraws(draws: seq<nat>, n: nat) {
    n <= |draws| && forall k :: 0 <= k < n ==> draws[k] < n - k
  }

  /** The positions Math.floor(Math.random() * currentIndex) yields for a stream
      of Math.random() values, when the counter starts at n. */
  function DrawsOf(random: seq<real>, n: nat): (draws: seq<nat>)
    requires n <= |random| && IsRandomStream(random)
    ensures |draws| == n && ValidDraws(draws, n)
    ensures forall k :: 0 <= k < n ==> draws[k] == RandomIndex(random[k], n - k)
  {
    seq(n, k requires 0 <= k < n => RandomIndex(random[k], n - k))
  }

  /** The destructuring swap [a[i], a[j]] = [a[j], a[i]] on a sequence. */
  function Swap<T>(s: seq<T>, i: nat, j: nat): (r: seq<T>)
    requires i < |s| && j < |s|
    ensures |r| == |s| && r[i] == s[j] && r[j] == s[i]
    ensures forall k :: 0 <= k < |s| && k != i && k != j ==> r[k] == s[k]
  {
    s[i := s[j]][j := s[i]]
  }

  lemma SwapPermutes<T>(s: seq<T>, i: nat, j: nat)
    requires i < |s| && j < |s|
    ensures multiset(Swap(s, i, j)) == multiset(s)
  {
  }

  /** What the shuffle loop still does to s when its counter stands at current:
      draw k (k = |s| - current) names a position below current, the counter
      drops by one, and the two positions are swapped. */
  function FisherYatesFrom<T>(s: seq<T>, draws: seq<nat>, current: nat): (r: seq<T>)
    requires current <= |s| && ValidDraws(draws, |s|)
    ensures |r| == |s|
    decreases current
  {
    if current == 0 then s
    else FisherYatesFrom(Swap(s, current - 1, draws[|s| - current]), draws, current - 1)
  }

  /** The order shuffleArray gives s for the positions it draws. */
  function Shuffled<T>(s: seq<T>, draws: seq<nat>): (r: seq<T>)
    requires ValidDraws(draws, |s|)
    ensures |r| == |s|
  {
    FisherYatesFrom(s, draws, |s|)
  }

  lemma {:induction false} FisherYatesPermutes<T>(s: seq<T>, draws: seq<nat>, current: nat)
    requires current <= |s| && ValidDraws(draws, |s|)
    ensures multiset(FisherYatesFrom(s, draws, current)) == multiset(s)
    decreases current
  {
    if current > 0 {
      SwapPermutes(s, current - 1, draws[|s| - current]);
      FisherYatesPermutes(Swap(s, current - 1, draws[|s| - current]), draws, current - 1);
    }
  }

  /** The shuffle keeps the length and is a permutation of its input. */
  lemma ShuffledPermutes<T>(s: seq<T>, draws: seq<nat>)
    requires ValidDraws(draws, |s|)
    ensures |Shuffled(s, draws)| == |s|
    ensures multiset(Shuffled(s, draws)) == multiset(s)
  {
    FisherYatesPermutes(s, draws, |s|);
  }

  /** For every difficulty and all drawn positions, the shuffled board has
      2 * NumPairs cards and each of the first NumPairs symbols exactly twice. */
  lemma NewBoardHasEachSymbolTwice(difficulty: string, draws: seq<nat>, x: string)
    requires ValidDraws(draws, 2 * NumPairs(difficulty))
    ensures |Shuffled(PairedSymbols(NumPairs(difficulty)), draws)| == 2 * NumPairs(difficulty)
    ensures multiset(Shuffled(PairedSymbols(NumPairs(difficulty)), draws))[x]
            == if x in AllSymbols[..NumPairs(difficulty)] then 2 else 0
  {
    var n := NumPairs(difficulty);
    PairedSymbolsTwice(n, x);
    ShuffledPermutes(PairedSymbols(n), draws);
  }

  /** shuffleArray: the loop runs its counter from a.Length down to 0; at each
      step it takes the next drawn position, which lies below the counter before
      the decrement, and swaps it with a[counter - 1]. Draw k stands for
      Math.floor(Math.random() * currentIndex) at the k-th iteration (DrawsOf). */
  method ShuffleArray<T>(a: array<T>, draws: seq<nat>)
    requires ValidDraws(draws, a.Length)
    modifies a
    ensures a[..] == Shuffled(old(a[..]), draws)
    ensures multiset(a[..]) == multiset(old(a[..]))
  {
    var currentIndex := a.Length;
    while currentIndex != 0
      invariant 0 <= currentIndex <= a.Length
      invariant FisherYatesFrom(a[..], draws, currentIndex) == Shuffled(old(a[..]), draws)
      decreases currentIndex
    {
      ghost var before := a[..];
      var randomIndex := draws[a.Length - currentIndex];
      currentIndex := currentIndex - 1;
      var t := a[currentIndex];
      a[currentIndex] := a[randomIndex];
      a[randomIndex] := t;
      assert a[..] == Swap(before, currentIndex, randomIndex);
    }
    ShuffledPermutes(old(a[..]), draws);
  }
}
