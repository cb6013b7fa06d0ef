/**
 * The competitor picker of app/competitors/page.tsx: a list of competitor
 * cards and a list of selected ids. A card can be removed (from both lists)
 * or clicked to toggle its selection; "Analyze" navigates only with a
 * non-empty selection; once every card is removed the list can be restored.
 */
module Competitors {
  import opened Wrappers

  datatype Competitor = Competitor(id: int, name: string, description: string)

  /** The six built-in entries the page starts from and restores. */
  const MockCompetitors: seq<Competitor> := [
    Competitor(1, "TechCorp Solutions", "Enterprise software and cloud services"),
    Competitor(2, "InnovateLab", "AI-powered business automation"),
    Competitor(3, "MarketLeader Inc", "Industry-leading SaaS platform"),
    Competitor(4, "CompetitorX", "Digital transformation consultancy"),
    Competitor(5, "RivalCorp", "B2B marketplace solutions"),
    Competitor(6, "AlternativeData Co", "Data analytics and insights")
  ]

  function Ids(cs: seq<Competitor>): (r: seq<int>)
    ensures |r| == |cs|
    ensures forall i :: 0 <= i < |cs| ==> r[i] == cs[i].id
  {
    if cs == [] then [] else [cs[0].id] + Ids(cs[1..])
  }

  /** `filter(x => x !== id)` on the selection. */
  function Without(s: seq<int>, id: int): (r: seq<int>)
    ensures forall x :: x in r <==> x in s && x != id
    ensures |r| <= |s|
    ensures NoDuplicates(s) ==> NoDuplicates(r)
  {
    if s == [] then []
    else if s[0] == id then Without(s[1..], id)
    else
      var rest := Without(s[1..], id);
      if NoDuplicates(s) then
        assert forall j :: 0 <= j < |s[1..]| ==> s[1..][j] == s[j + 1] != s[0];
        PrependKeepsDistinct(s[0], rest);
        [s[0]] + rest
      else [s[0]] + rest
  }

  lemma PrependKeepsDistinct(x: int, t: seq<int>)
    requires x !in t && NoDuplicates(t)
    ensures NoDuplicates([x] + t)
  {
    forall i, j | 0 <= i < j < |[x] + t|
      ensures ([x] + t)[i] != ([x] + t)[j]
    {
      if i > 0 {
        assert ([x] + t)[i] == t[i - 1] && ([x] + t)[j] == t[j - 1];
      } else {
        assert ([x] + t)[j] == t[j - 1];
      }
    }
  }

  /** `filter(comp => comp.id !== id)` on the competitor list. */
  function DropCompetitor(cs: seq<Competitor>, id: int): (r: seq<Competitor>)
    ensures forall c :: c in r <==> c in cs && c.id != id
  {
    if cs == [] then []
    else if cs[0].id == id then DropCompetitor(cs[1..], id)
    else [cs[0]] + DropCompetitor(cs[1..], id)
  }

  /** The two filters agree: the ids left are the ids with `id` removed. */
  lemma {:induction false} DropCompetitorIds(cs: seq<Competitor>, id: int)
    ensures Ids(DropCompetitor(cs, id)) == Without(Ids(cs), id)
  {
    if cs != [] {
      DropCompetitorIds(cs[1..], id);
      assert Ids(cs)[1..] == Ids(cs[1..]);
    }
  }

  /**
   * Filtering keeps the others in their order: on a duplicate-free list it
   * deletes the one position holding `id`, and leaves a list without `id` alone.
   */
  lemma {:induction false} WithoutDeletesPosition(s: seq<int>, id: int, k: int)
    requires NoDuplicates(s)
    requires 0 <= k < |s| && s[k] == id
    ensures Without(s, id) == s[..k] + s[k + 1..]
  {
    if k == 0 {
      WithoutAbsent(s[1..], id);
    } else {
      WithoutDeletesPosition(s[1..], id, k - 1);
      assert s[..k] + s[k + 1..] == [s[0]] + (s[1..][..k - 1] + s[1..][k..]);
    }
  }

  lemma {:induction false} WithoutAbsent(s: seq<int>, id: int)
    requires id !in s
    ensures Without(s, id) == s
  {
    if s != [] {
      WithoutAbsent(s[1..], id);
      assert s == [s[0]] + s[1..];
    }
  }

  /** `toggleSelection`: remove `id` if selected, otherwise append it. */
  function Toggle(sel: seq<int>, id: int): (r: seq<int>)
    ensures id in r <==> id !in sel
    ensures forall x :: x != id ==> (x in r <==> x in sel)
    ensures NoDuplicates(sel) ==> NoDuplicates(r)
    ensures id !in sel ==> r == sel + [id]
  {
    if id in sel then Without(sel, id) else sel + [id]
  }

  /**
   * Toggling twice restores the selection exactly when `id` was not
   * selected; when it was, the same ids come back, with `id` moved last.
   */
  lemma ToggleTwiceAbsent(sel: seq<int>, id: int)
    requires id !in sel
    ensures Toggle(Toggle(sel, id), id) == sel
  {
    var once := sel + [id];
    assert id in once;
    WithoutAbsent(sel, id);
    WithoutAppended(sel, id);
  }

  lemma {:induction false} WithoutAppended(s: seq<int>, id: int)
    requires id !in s
    ensures Without(s + [id], id) == s
  {
    if s == [] {
      assert [] + [id] == [id];
    } else {
      assert (s + [id])[1..] == s[1..] + [id];
      WithoutAppended(s[1..], id);
      assert s == [s[0]] + s[1..];
    }
  }

  lemma ToggleTwicePresent(sel: seq<int>, id: int, k: int)
    requires NoDuplicates(sel)
    requires 0 <= k < |sel| && sel[k] == id
    ensures Toggle(Toggle(sel, id), id) == sel[..k] + sel[k + 1..] + [id]
    ensures multiset(Toggle(Toggle(sel, id), id)) == multiset(sel)
  {
    WithoutDeletesPosition(sel, id, k);
    var once := sel[..k] + sel[k + 1..];
    assert Toggle(sel, id) == once;
    assert id !in once;
    assert sel == sel[..k] + [id] + sel[k + 1..];
    assert multiset(sel) == multiset(sel[..k]) + multiset([id]) + multiset(sel[k + 1..]);
  }

  /** The order can change: selecting 1 and 2 and then toggling 1 twice gives [2, 1]. */
  lemma ToggleTwiceReorders()
    ensures Toggle(Toggle([1, 2], 1), 1) == [2, 1]
  {
    assert Without([1, 2], 1) == [2];
  }

  /** Every entry of `sel` occurs in `ids`. */
  predicate AllIn(sel: seq<int>, ids: seq<int>) {
    forall i :: 0 <= i < |sel| ==> sel[i] in ids
  }

  lemma AllInMembers(sel: seq<int>, ids: seq<int>)
    ensures AllIn(sel, ids) <==> forall x :: x in sel ==> x in ids
  {
    if AllIn(sel, ids) {
      forall x | x in sel ensures x in ids {
        var i :| 0 <= i < |sel| && sel[i] == x;
      }
    }
    if forall x :: x in sel ==> x in ids {
      forall i | 0 <= i < |sel| ensures sel[i] in ids {
        assert sel[i] in sel;
      }
    }
  }

  /** With no card listed, nothing can be selected. */
  lemma NothingListedNothingSelected(sel: seq<int>, ids: seq<int>)
    requires AllIn(sel, ids)
    ensures ids == [] ==> sel == []
  {
    if sel != [] {
      assert sel[0] in ids;
    }
  }

  /** The page's two pieces of state. */
  class CompetitorPicker {
    var competitors: seq<Competitor>
    var selectedIds: seq<int>

    /** Distinct cards, distinct selected ids, and only listed ids selected. */
    ghost predicate Valid()
      reads this
    {
      && NoDuplicates(Ids(competitors))
      && NoDuplicates(selectedIds)
      && AllIn(selectedIds, Ids(competitors))
    }

    constructor ()
      ensures competitors == MockCompetitors && selectedIds == []
      ensures Valid()
    {
      competitors := MockCompetitors;
      selectedIds := [];
    }

    /** `removeCompetitor`: the id leaves both lists; nothing else does. */
    method RemoveCompetitor(id: int)
      requires Valid()
      modifies this
      ensures competitors == DropCompetitor(old(competitors), id)
      ensures selectedIds == Without(old(selectedIds), id)
      ensures id !in Ids(competitors) && id !in selectedIds
      ensures Valid()
    {
      DropCompetitorIds(competitors, id);
      AllInMembers(selectedIds, Ids(competitors));
      AllInMembers(Without(selectedIds, id), Without(Ids(competitors), id));
      competitors := DropCompetitor(competitors, id);
      selectedIds := Without(selectedIds, id);
    }

    /** `toggleSelection`, reached only by clicking a listed card. */
    method ToggleSelection(id: int)
      requires Valid() && id in Ids(competitors)
      modifies this`selectedIds
      ensures selectedIds == Toggle(old(selectedIds), id)
      ensures Valid()
    {
      AllInMembers(selectedIds, Ids(competitors));
      AllInMembers(Toggle(selectedIds, id), Ids(competitors));
      if id in selectedIds {
        selectedIds := Without(selectedIds, id);
      } else {
        selectedIds := selectedIds + [id];
      }
    }

    /** `handleAnalyze`: navigate to the analysis page only with a selection. */
    method HandleAnalyze() returns (navigate: bool)
      ensures navigate <==> selectedIds != []
    {
      navigate := |selectedIds| > 0;
    }

    /** "Restore Competitors", offered only once the list is empty; the selection is kept. */
    method Restore()
      requires Valid() && competitors == []
      modifies this`competitors
      ensures competitors == MockCompetitors
      ensures selectedIds == old(selectedIds) == []
      ensures Valid()
    {
      NothingListedNothingSelected(selectedIds, Ids(competitors));
      competitors := MockCompetitors;
    }
  }
}
