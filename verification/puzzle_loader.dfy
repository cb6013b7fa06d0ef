/**
 * The loading overlay of components/loader/NewspaperLoader.tsx: while a
 * report loads it shows one of three puzzles, chosen at random among those
 * not yet solved; solving one records it and shows another, and once all
 * three are solved it shows the "all puzzles solved" card. Each new loading
 * phase forgets what was solved.
 */
module PuzzleLoader {
  import opened Wrappers

  datatype PuzzleKey = CrosswordKey | SudokuKey | JumbleKey

  /** The keys of the puzzle factory, in its order. */
  const AllKeys: seq<PuzzleKey> := [CrosswordKey, SudokuKey, JumbleKey]

  /** What the overlay shows. */
  datatype Shown = Nothing | Puzzle(key: PuzzleKey) | AllPuzzlesSolved

  /** `keys.filter(k => !solved.includes(k))`. */
  function Unsolved(keys: seq<PuzzleKey>, solved: seq<PuzzleKey>): (r: seq<PuzzleKey>)
    ensures forall k :: k in r <==> k in keys && k !in solved
    ensures NoDuplicates(keys) ==> NoDuplicates(r)
  {
    if keys == [] then []
    else
      var rest := Unsolved(keys[1..], solved);
      assert NoDuplicates(keys) ==> keys[0] !in keys[1..];
      (if keys[0] in solved then [] else [keys[0]]) + rest
  }

  /** The keys not yet solved, in the factory's order. */
  function Available(solved: seq<PuzzleKey>): (r: seq<PuzzleKey>)
    ensures forall k :: k in r <==> k !in solved
    ensures NoDuplicates(r)
  {
    assert forall k :: k in AllKeys by {
      forall k ensures k in AllKeys {
        assert k == AllKeys[0] || k == AllKeys[1] || k == AllKeys[2];
      }
    }
    Unsolved(AllKeys, solved)
  }

  /** The updater of `handlePuzzleSolved`: a key is recorded once. */
  function Record(solved: seq<PuzzleKey>, key: PuzzleKey): (r: seq<PuzzleKey>)
    ensures forall k :: k in r <==> k in solved || k == key
    ensures NoDuplicates(solved) ==> NoDuplicates(r)
    ensures key in solved ==> r == solved
    ensures key !in solved ==> |r| == |solved| + 1 && r[..|solved|] == solved
  {
    if key in solved then solved else solved + [key]
  }

  /** Nothing is left exactly when every kind of puzzle is recorded. */
  lemma NoneLeftIffAll(solved: seq<PuzzleKey>)
    ensures Available(solved) == [] <==> forall k :: k in solved
  {
    var r := Available(solved);
    assert r == [] || r[0] in r;
  }

  /** Among four recorded keys, two are the same. */
  lemma FourRepeat(s: seq<PuzzleKey>)
    ensures |s| < 4 || exists i, j :: 0 <= i < j < 4 && s[i] == s[j]
  {
    if |s| >= 4 {
      if s[0] == s[1] || s[0] == s[2] || s[0] == s[3] {
      } else if s[1] == s[2] || s[1] == s[3] {
      } else {
        assert s[2] == s[3];
      }
    }
  }

  /** Fewer than three keys cannot cover the three kinds. */
  lemma FewMissOne(s: seq<PuzzleKey>)
    ensures |s| >= 3 || CrosswordKey !in s || SudokuKey !in s || JumbleKey !in s
  {
    if |s| == 2 {
      assert s == [s[0], s[1]];
    } else if |s| == 1 {
      assert s == [s[0]];
    }
  }

  /** No puzzle is left exactly when three distinct keys are recorded. */
  lemma NoneLeftIffThree(s: seq<PuzzleKey>)
    requires NoDuplicates(s)
    ensures |s| <= 3
    ensures Available(s) == [] <==> |s| == 3
  {
    FourRepeat(s);
    FewMissOne(s);
    NoneLeftIffAll(s);
    if |s| == 3 {
      assert s[0] != s[1] && s[0] != s[2] && s[1] != s[2];
      assert CrosswordKey in s && SudokuKey in s && JumbleKey in s by {
        assert s == [s[0], s[1], s[2]];
      }
    }
  }

  /** The overlay's two pieces of state. */
  class Loader {
    var selected: Shown
    var solvedKeys: seq<PuzzleKey>

    /**
     * Keys are recorded once; the puzzle shown is never a solved one, and
     * the "all solved" card is shown exactly when nothing is left.
     */
    ghost predicate Valid()
      reads this
    {
      && NoDuplicates(solvedKeys)
      && (selected.Puzzle? ==> selected.key !in solvedKeys)
      && (selected != Nothing ==> (selected == AllPuzzlesSolved <==> Available(solvedKeys) == []))
    }

    constructor ()
      ensures selected == Nothing && solvedKeys == []
      ensures Valid()
    {
      selected := Nothing;
      solvedKeys := [];
    }

    /**
     * `selectNewPuzzle`: a random key among those not in `current` (the
     * choice of `Math.random` is left open), or the "all solved" card.
     */
    method SelectNewPuzzle(current: seq<PuzzleKey>)
      modifies this`selected
      ensures Available(current) != [] ==> selected.Puzzle? && selected.key in Available(current)
      ensures Available(current) == [] ==> selected == AllPuzzlesSolved
    {
      var available := Available(current);
      if |available| > 0 {
        var i :| 0 <= i < |available|;
        selected := Puzzle(available[i]);
      } else {
        selected := AllPuzzlesSolved;
      }
    }

    /** `handlePuzzleSolved`: record the key, then show another puzzle. */
    method HandlePuzzleSolved(key: PuzzleKey)
      requires Valid()
      modifies this
      ensures solvedKeys == Record(old(solvedKeys), key)
      ensures selected.Puzzle? ==> selected.key != key && selected.key !in solvedKeys
      ensures selected == AllPuzzlesSolved <==> |solvedKeys| == 3
      ensures selected.Puzzle? <==> |solvedKeys| < 3
      ensures old(selected) == Puzzle(key) ==> |solvedKeys| == |old(solvedKeys)| + 1
      ensures Valid()
    {
      solvedKeys := Record(solvedKeys, key);
      SelectNewPuzzle(solvedKeys);
      NoneLeftIffThree(solvedKeys);
    }

    /** The loading flag turning on: forget what was solved and pick afresh. */
    method StartLoading()
      modifies this
      ensures solvedKeys == []
      ensures selected.Puzzle?
      ensures Valid()
    {
      solvedKeys := [];
      SelectNewPuzzle([]);
    }
  }

  /**
   * Solving the shown puzzle three times from a fresh start leaves nothing
   * to pick: each pick comes from what is still available.
   */
  lemma ThreeSolvesFinish(k1: PuzzleKey, k2: PuzzleKey, k3: PuzzleKey)
    requires k1 in Available([])
    requires k2 in Available(Record([], k1))
    requires k3 in Available(Record(Record([], k1), k2))
    ensures Available(Record(Record(Record([], k1), k2), k3)) == []
    ensures |Record(Record(Record([], k1), k2), k3)| == 3
  {
    var s1 := Record([], k1);
    var s2 := Record(s1, k2);
    var s3 := Record(s2, k3);
    assert k2 !in s1 && k3 !in s2;
    assert |s3| == 3;
    assert NoDuplicates(s3);
    NoneLeftIffThree(s3);
  }
}
