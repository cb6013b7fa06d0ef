/**
 * The word jumble of components/loader/NewspaperLoader.tsx: the letters of
 * a scrambled word are tiles the player drags into a new order; the puzzle
 * is solved when the tiles spell the word, and reports that only once.
 */
module Jumble {

  datatype WordJumble = WordJumble(jumbled: string, solved: string, hint: string)

  const WordJumbles: seq<WordJumble> := [
    WordJumble("ZIBATALS", "BIZATLAS", "A map for your business."),
    WordJumble("TOCIMETORP", "COMPETITOR", "A rival in the marketplace."),
    WordJumble("SYALANIS", "ANALYSIS", "Detailed examination of elements."),
    WordJumble("GARTYETS", "STRATEGY", "A plan of action to achieve a major aim.")
  ]

  /** A draggable tile: its position in the scrambled word and its letter. */
  datatype Item = Item(id: int, ch: char)

  /** `jumbled.split('').map((char, i) => ({ id: i, char }))`. */
  function InitialItems(w: string): (items: seq<Item>)
    ensures |items| == |w|
    ensures forall i :: 0 <= i < |w| ==> items[i] == Item(i, w[i])
  {
    seq(|w|, i requires 0 <= i < |w| => Item(i, w[i]))
  }

  /** `items.map(item => item.char).join('')`. */
  function Word(items: seq<Item>): (w: string)
    ensures |w| == |items|
    ensures forall i :: 0 <= i < |items| ==> w[i] == items[i].ch
  {
    seq(|items|, i requires 0 <= i < |items| => items[i].ch)
  }

  /** The tiles as first laid out spell the scrambled word. */
  lemma InitialWord(w: string)
    ensures Word(InitialItems(w)) == w
  {
  }

  lemma WordConcat(x: seq<Item>, y: seq<Item>)
    ensures Word(x + y) == Word(x) + Word(y)
  {
    assert forall i :: 0 <= i < |x + y| ==> Word(x + y)[i] == (Word(x) + Word(y))[i];
  }

  /** Taking out the tile at `k` takes out one copy of it and one copy of its letter. */
  lemma RemoveAt(b: seq<Item>, k: int)
    requires 0 <= k < |b|
    ensures multiset(b) == multiset(b[..k] + b[k + 1..]) + multiset{b[k]}
    ensures multiset(Word(b)) == multiset(Word(b[..k] + b[k + 1..])) + multiset{b[k].ch}
  {
    var x, y := b[..k], b[k + 1..];
    assert b == x + [b[k]] + y;
    WordConcat(x + [b[k]], y);
    WordConcat(x, [b[k]]);
    WordConcat(x, y);
    assert Word([b[k]]) == [b[k].ch];
    assert Word(b) == Word(x) + [b[k].ch] + Word(y);
    assert multiset(Word(b)) == multiset(Word(x)) + multiset{b[k].ch} + multiset(Word(y));
  }

  lemma Cancel(x: multiset<Item>, y: multiset<Item>, e: Item)
    requires x + multiset{e} == y + multiset{e}
    ensures x == y
  {
    assert x == x + multiset{e} - multiset{e};
  }

  /**
   * Dragging only reorders tiles, so it keeps the multiset of letters: a
   * word the tiles can spell has the letters of the scrambled word.
   */
  lemma {:induction false} ReorderKeepsLetters(a: seq<Item>, b: seq<Item>)
    requires multiset(a) == multiset(b)
    ensures multiset(Word(a)) == multiset(Word(b))
    decreases |a|
  {
    if a == [] {
      assert |b| == |multiset(b)| == 0;
    } else {
      assert a[0] in multiset(b);
      var k :| 0 <= k < |b| && b[k] == a[0];
      RemoveAt(a, 0);
      RemoveAt(b, k);
      assert a[..0] + a[1..] == a[1..];
      Cancel(multiset(a[1..]), multiset(b[..k] + b[k + 1..]), a[0]);
      ReorderKeepsLetters(a[1..], b[..k] + b[k + 1..]);
    }
  }

  /**
   * Exchanging the tiles at two positions; positions out of range change
   * nothing. One drag moves a single tile past its neighbours, so an exchange
   * of adjacent tiles is one drag and any exchange is a few.
   */
  function Swap(s: seq<Item>, i: int, j: int): (t: seq<Item>)
    ensures multiset(t) == multiset(s)
    ensures Word(t) == SwapLetters(Word(s), i, j)
  {
    if 0 <= i < |s| && 0 <= j < |s| then s[i := s[j]][j := s[i]] else s
  }

  /** The same exchange on the spelt word. */
  function SwapLetters(w: string, i: int, j: int): string {
    if 0 <= i < |w| && 0 <= j < |w| then w[i := w[j]][j := w[i]] else w
  }

  /** A sequence of exchanges applied to the tiles, and to the word they spell. */
  function Drag(s: seq<Item>, moves: seq<(int, int)>): seq<Item>
    decreases |moves|
  {
    if moves == [] then s else Drag(Swap(s, moves[0].0, moves[0].1), moves[1..])
  }

  function DragLetters(w: string, moves: seq<(int, int)>): string
    decreases |moves|
  {
    if moves == [] then w else DragLetters(SwapLetters(w, moves[0].0, moves[0].1), moves[1..])
  }

  /** Dragging keeps the tiles and spells the word the same exchanges give. */
  lemma {:induction false} DragSpells(s: seq<Item>, moves: seq<(int, int)>)
    ensures multiset(Drag(s, moves)) == multiset(s)
    ensures Word(Drag(s, moves)) == DragLetters(Word(s), moves)
    decreases |moves|
  {
    if moves != [] {
      DragSpells(Swap(s, moves[0].0, moves[0].1), moves[1..]);
    }
  }

  /** Exchanges that solve each jumble. */
  const Solutions: seq<seq<(int, int)>> := [
    [(0, 2), (5, 6)],
    [(0, 2), (2, 4), (3, 9), (4, 5), (6, 9), (7, 9), (8, 9)],
    [(0, 2), (1, 5), (2, 4), (4, 5)],
    [(0, 7), (1, 3), (4, 6), (6, 7)]
  ]

  /** The answer can be spelt from the initial tiles by dragging alone. */
  predicate Reachable(j: WordJumble, items: seq<Item>) {
    multiset(items) == multiset(InitialItems(j.jumbled)) && Word(items) == j.solved
  }

  /** Every jumble can be solved: a few exchanges of tiles spell its answer. */
  lemma JumblesSolvable(n: int)
    requires 0 <= n < |WordJumbles|
    ensures Reachable(WordJumbles[n], Drag(InitialItems(WordJumbles[n].jumbled), Solutions[n]))
  {
    var j := WordJumbles[n];
    InitialWord(j.jumbled);
    DragSpells(InitialItems(j.jumbled), Solutions[n]);
    SolutionsSpell(n);
  }

  /** Each listed series of exchanges spells the answer. */
  lemma SolutionsSpell(n: int)
    requires 0 <= n < |WordJumbles|
    ensures DragLetters(WordJumbles[n].jumbled, Solutions[n]) == WordJumbles[n].solved
  {
    if n == 0 { Spells0(); } else if n == 1 { Spells1(); } else if n == 2 { Spells2(); } else { Spells3(); }
  }

  lemma Spells0()
    ensures DragLetters("ZIBATALS", [(0, 2), (5, 6)]) == "BIZATLAS"
  {
    assert DragLetters("ZIBATALS", [(0, 2), (5, 6)]) == DragLetters("BIZATALS", [(5, 6)]);
    assert DragLetters("BIZATALS", [(5, 6)]) == DragLetters("BIZATLAS", []);
  }

  lemma Spells1()
    ensures DragLetters("TOCIMETORP", [(0, 2), (2, 4), (3, 9), (4, 5), (6, 9), (7, 9), (8, 9)]) == "COMPETITOR"
  {
    assert DragLetters("TOCIMETORP", [(0, 2), (2, 4), (3, 9), (4, 5), (6, 9), (7, 9), (8, 9)]) == DragLetters("COTIMETORP", [(2, 4), (3, 9), (4, 5), (6, 9), (7, 9), (8, 9)]);
    assert DragLetters("COTIMETORP", [(2, 4), (3, 9), (4, 5), (6, 9), (7, 9), (8, 9)]) == DragLetters("COMITETORP", [(3, 9), (4, 5), (6, 9), (7, 9), (8, 9)]);
    assert DragLetters("COMITETORP", [(3, 9), (4, 5), (6, 9), (7, 9), (8, 9)]) == DragLetters("COMPTETORI", [(4, 5), (6, 9), (7, 9), (8, 9)]);
    assert DragLetters("COMPTETORI", [(4, 5), (6, 9), (7, 9), (8, 9)]) == DragLetters("COMPETTORI", [(6, 9), (7, 9), (8, 9)]);
    assert DragLetters("COMPETTORI", [(6, 9), (7, 9), (8, 9)]) == DragLetters("COMPETIORT", [(7, 9), (8, 9)]);
    assert DragLetters("COMPETIORT", [(7, 9), (8, 9)]) == DragLetters("COMPETITRO", [(8, 9)]);
    assert DragLetters("COMPETITRO", [(8, 9)]) == DragLetters("COMPETITOR", []);
  }

  lemma Spells2()
    ensures DragLetters("SYALANIS", [(0, 2), (1, 5), (2, 4), (4, 5)]) == "ANALYSIS"
  {
    assert DragLetters("SYALANIS", [(0, 2), (1, 5), (2, 4), (4, 5)]) == DragLetters("AYSLANIS", [(1, 5), (2, 4), (4, 5)]);
    assert DragLetters("AYSLANIS", [(1, 5), (2, 4), (4, 5)]) == DragLetters("ANSLAYIS", [(2, 4), (4, 5)]);
    assert DragLetters("ANSLAYIS", [(2, 4), (4, 5)]) == DragLetters("ANALSYIS", [(4, 5)]);
    assert DragLetters("ANALSYIS", [(4, 5)]) == DragLetters("ANALYSIS", []);
  }

  lemma Spells3()
    ensures DragLetters("GARTYETS", [(0, 7), (1, 3), (4, 6), (6, 7)]) == "STRATEGY"
  {
    assert DragLetters("GARTYETS", [(0, 7), (1, 3), (4, 6), (6, 7)]) == DragLetters("SARTYETG", [(1, 3), (4, 6), (6, 7)]);
    assert DragLetters("SARTYETG", [(1, 3), (4, 6), (6, 7)]) == DragLetters("STRAYETG", [(4, 6), (6, 7)]);
    assert DragLetters("STRAYETG", [(4, 6), (6, 7)]) == DragLetters("STRATEYG", [(6, 7)]);
    assert DragLetters("STRATEYG", [(6, 7)]) == DragLetters("STRATEGY", []);
  }

  /** The jumble component's state. */
  class JumbleGame {
    const jumble: WordJumble
    var items: seq<Item>
    var isSolved: bool
    var hasTriggeredSolve: bool
    var showHint: bool

    /** The tiles are always a reordering of the initial ones. */
    ghost predicate Valid()
      reads this
    {
      multiset(items) == multiset(InitialItems(jumble.jumbled))
    }

    /** The jumble shown is the one at index `pick` (chosen at random by the loader). */
    constructor (pick: nat)
      requires pick < |WordJumbles|
      ensures jumble == WordJumbles[pick]
      ensures items == InitialItems(jumble.jumbled)
      ensures !isSolved && !hasTriggeredSolve && !showHint
      ensures Valid()
    {
      jumble := WordJumbles[pick];
      items := InitialItems(WordJumbles[pick].jumbled);
      isSolved, hasTriggeredSolve, showHint := false, false, false;
    }

    /** `onReorder`: the drag gesture hands back the same tiles in a new order. */
    method Reorder(newItems: seq<Item>)
      requires Valid() && multiset(newItems) == multiset(items)
      modifies this`items
      ensures items == newItems
      ensures Valid()
      ensures multiset(Word(items)) == multiset(jumble.jumbled)
    {
      ReorderKeepsLetters(newItems, InitialItems(jumble.jumbled));
      InitialWord(jumble.jumbled);
      items := newItems;
    }

    /**
     * The effect run after each change of the tiles: `isSolved` records
     * whether they spell the answer, and the first time they do the puzzle
     * reports itself solved (`onSolve`, after 600 ms), never again.
     */
    method SolvedEffect() returns (solvedNow: bool)
      modifies this`isSolved, this`hasTriggeredSolve
      ensures isSolved == (Word(items) == jumble.solved)
      ensures solvedNow <==> isSolved && !old(hasTriggeredSolve)
      ensures hasTriggeredSolve == (old(hasTriggeredSolve) || isSolved)
    {
      isSolved := Word(items) == jumble.solved;
      solvedNow := isSolved && !hasTriggeredSolve;
      if solvedNow {
        hasTriggeredSolve := true;
      }
    }

    /** "Show Hint". */
    method ShowHint()
      modifies this`showHint
      ensures showHint
    {
      showHint := true;
    }
  }
}
