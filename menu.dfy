/**
 * The menu catalogue's records and the search filter `filtrarItems`
 * (src/App.tsx:14-19, 27, 167-174).
 */
module Menu {
  import Seqs

  /** `Categoria`: the four tabs of the menu. */
  datatype Category = Tortas | Tacos | Bebidas | Extras

  /** `MenuItem`. Every catalogue price is a whole, non-negative amount. */
  datatype MenuItem = MenuItem(id: int, name: string, description: string, price: nat)

  /** Lower-casing of one character; only the ASCII letters A-Z are mapped. */
  function LowerChar(c: char): (r: char)
    ensures 'A' <= c <= 'Z' ==> 'a' <= r <= 'z' && r as int - c as int == 32
    ensures !('A' <= c <= 'Z') ==> r == c
  {
    if 'A' <= c <= 'Z' then (c as int + 32) as char else c
  }

  /** `String.prototype.toLowerCase`, restricted to ASCII letters. */
  function Lower(s: string): string
  {
    Seqs.Map(LowerChar, s)
  }

  /** Lower-cased text has no upper-case ASCII letter, and lower-casing it again changes nothing. */
  lemma LowerIsLower(s: string)
    ensures |Lower(s)| == |s|
    ensures forall i :: 0 <= i < |s| ==> !('A' <= Lower(s)[i] <= 'Z')
    ensures Lower(Lower(s)) == Lower(s)
  {
  }

  /** `text.includes(query)`: `query` starts at some position of `text`. */
  function Contains(text: string, query: string): bool
    decreases |text|
  {
    query <= text || (text != [] && Contains(text[1..], query))
  }

  /** `query` occurs in `text` starting at index `i`. */
  ghost predicate OccursAt(text: string, query: string, i: int)
  {
    0 <= i && i + |query| <= |text| && text[i..i + |query|] == query
  }

  /** `Contains` finds `query` exactly when it occurs somewhere in `text`. */
  lemma {:induction false} ContainsIff(text: string, query: string)
    ensures Contains(text, query) <==> exists i :: OccursAt(text, query, i)
    decreases |text|
  {
    if query <= text {
      assert OccursAt(text, query, 0);
    } else if text == [] {
      assert forall i :: !OccursAt(text, query, i);
    } else {
      ContainsIff(text[1..], query);
      if exists i :: OccursAt(text[1..], query, i) {
        var i :| OccursAt(text[1..], query, i);
        assert text[1..][i..i + |query|] == text[i + 1..i + 1 + |query|];
        assert OccursAt(text, query, i + 1);
      }
      if exists i :: OccursAt(text, query, i) {
        var i :| OccursAt(text, query, i);
        assert i != 0;
        assert text[1..][i - 1..i - 1 + |query|] == text[i..i + |query|];
        assert OccursAt(text[1..], query, i - 1);
      }
    }
  }

  /** The test `filtrarItems` applies to each item: the query, lower-cased, is in the lower-cased name or description. */
  predicate MatchesQuery(query: string, item: MenuItem)
  {
    Contains(Lower(item.name), Lower(query)) || Contains(Lower(item.description), Lower(query))
  }

  function Matcher(query: string): MenuItem -> bool
  {
    (item: MenuItem) => MatchesQuery(query, item)
  }

  /** `filtrarItems(items)` with `busqueda == query`. */
  function FilterItems(items: seq<MenuItem>, query: string): (r: seq<MenuItem>)
    ensures query != "" ==> forall i :: 0 <= i < |r| ==> MatchesQuery(query, r[i])
    ensures |r| <= |items|
  {
    if query == "" then items else Seqs.Filter(Matcher(query), items)
  }

  /**
   * The search result: everything for the empty query; otherwise exactly the
   * items that match, each as often as in the input, in catalogue order.
   */
  lemma FilterItemsSpec(items: seq<MenuItem>, query: string)
    ensures query == "" ==> FilterItems(items, query) == items
    ensures Seqs.IsSubsequence(FilterItems(items, query), items)
    ensures forall x :: x in FilterItems(items, query) <==> x in items && (query == "" || MatchesQuery(query, x))
    ensures forall x :: multiset(FilterItems(items, query))[x] ==
                        if query == "" || MatchesQuery(query, x) then multiset(items)[x] else 0
  {
    if query == "" {
      Seqs.SubsequenceReflexive(items);
    } else {
      Seqs.FilterIsSubsequence(Matcher(query), items);
      Seqs.FilterMultiset(Matcher(query), items);
      forall x | x in items && MatchesQuery(query, x)
        ensures x in FilterItems(items, query)
      {
        Seqs.FilterKeepsPassing(Matcher(query), items, x);
      }
    }
  }
}
