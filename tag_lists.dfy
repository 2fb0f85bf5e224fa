/** List operations the client components perform on their tag lists:
    `filter(t => t !== x)`, append-if-absent, the checkbox toggle, dropping
    the last element, the suggestion filter, and insertion-ordered
    de-duplication (a JavaScript `Set` turned back into an array). */
module TagLists {
  import opened Text

  /** A tag as the client holds it. */
  type Tag = string

  predicate Distinct<T(==)>(xs: seq<T>) {
    forall i, j :: 0 <= i < j < |xs| ==> xs[i] != xs[j]
  }

  /** `xs` can be obtained from `ys` by deleting elements (order kept). */
  predicate IsSubsequence<T(==)>(xs: seq<T>, ys: seq<T>)
    decreases |ys|
  {
    xs == [] || (ys != [] && if xs[0] == ys[0] then IsSubsequence(xs[1..], ys[1..]) else IsSubsequence(xs, ys[1..]))
  }

  /** `xs.filter(t => t !== x)`. */
  function RemoveAll(xs: seq<Tag>, x: Tag): (r: seq<Tag>)
    ensures x !in r
    ensures forall y :: y in r <==> y in xs && y != x
  {
    if xs == [] then [] else (if xs[0] == x then [] else [xs[0]]) + RemoveAll(xs[1..], x)
  }

  /** `RemoveAll` deletes every occurrence of `x` and nothing else: the result
      is a subsequence of `xs` holding every other element as often as `xs`
      does. */
  lemma {:induction false} RemoveAllKeepsRest(xs: seq<Tag>, x: Tag)
    ensures IsSubsequence(RemoveAll(xs, x), xs)
    ensures forall y :: y != x ==> multiset(RemoveAll(xs, x))[y] == multiset(xs)[y]
  {
    if xs != [] {
      RemoveAllKeepsRest(xs[1..], x);
      var r := RemoveAll(xs, x);
      var r' := RemoveAll(xs[1..], x);
      assert xs == [xs[0]] + xs[1..];
      if xs[0] == x {
        assert r == r';
        assert r' == [] || r'[0] != xs[0];
      } else {
        assert r == [xs[0]] + r';
        assert r[1..] == r';
      }
    }
  }

  /** Removing an element that was just appended to a list without it gives the list back. */
  lemma {:induction false} RemoveAppended(xs: seq<Tag>, x: Tag)
    requires x !in xs
    ensures RemoveAll(xs + [x], x) == xs
  {
    if xs == [] {
      assert RemoveAll([x], x) == [] + RemoveAll([x][1..], x);
    } else {
      assert (xs + [x])[1..] == xs[1..] + [x];
      RemoveAppended(xs[1..], x);
      assert xs == [xs[0]] + xs[1..];
    }
  }

  /** Filtering keeps a list duplicate-free. */
  lemma {:induction false} RemoveAllDistinct(xs: seq<Tag>, x: Tag)
    requires Distinct(xs)
    ensures Distinct(RemoveAll(xs, x))
  {
    if xs != [] {
      assert Distinct(xs[1..]);
      RemoveAllDistinct(xs[1..], x);
      assert xs[0] !in xs[1..];
    }
  }

  /** `if (!xs.includes(x)) xs = [...xs, x]`. */
  function AppendIfAbsent(xs: seq<Tag>, x: Tag): (r: seq<Tag>)
    ensures x in r
    ensures xs <= r && |r| <= |xs| + 1
    ensures forall y :: y in r <==> y in xs || y == x
    ensures x in xs ==> r == xs
    ensures x !in xs ==> r == xs + [x]
  {
    if x in xs then xs else xs + [x]
  }

  /** Appending only absent elements keeps a list duplicate-free. */
  lemma AppendIfAbsentDistinct(xs: seq<Tag>, x: Tag)
    requires Distinct(xs)
    ensures Distinct(AppendIfAbsent(xs, x))
  {
  }

  /** The checkbox toggle: remove `x` if selected, append it otherwise. */
  function Toggle(xs: seq<Tag>, x: Tag): (r: seq<Tag>)
  {
    if x in xs then RemoveAll(xs, x) else xs + [x]
  }

  /** Toggling flips membership of `x` and of nothing else. */
  lemma ToggleFlips(xs: seq<Tag>, x: Tag)
    ensures x in Toggle(xs, x) <==> x !in xs
    ensures forall y :: y != x ==> (y in Toggle(xs, x) <==> y in xs)
  {
  }

  /** Toggling an unselected element twice gives the list back. */
  lemma ToggleTwiceRestores(xs: seq<Tag>, x: Tag)
    requires x !in xs
    ensures Toggle(Toggle(xs, x), x) == xs
  {
    RemoveAppended(xs, x);
  }

  /** Toggling a selected element twice moves it to the end instead: the
      order is not restored. */
  lemma ToggleTwiceMovesSelected(xs: seq<Tag>, x: Tag)
    requires x in xs
    ensures Toggle(Toggle(xs, x), x) == RemoveAll(xs, x) + [x]
  {
    assert x !in RemoveAll(xs, x);
  }

  /** `xs.slice(0, -1)`: every element but the last. */
  function DropLast(xs: seq<Tag>): (r: seq<Tag>)
    requires xs != []
    ensures r + [xs[|xs| - 1]] == xs
  {
    xs[..|xs| - 1]
  }

  /** `xs.filter(t => !selected.includes(t))`. */
  function Unselected(xs: seq<Tag>, selected: seq<Tag>): (r: seq<Tag>)
    ensures forall t :: t in r <==> t in xs && t !in selected
  {
    if xs == [] then []
    else (if xs[0] in selected then [] else [xs[0]]) + Unselected(xs[1..], selected)
  }

  /** The unselected elements keep their order and every occurrence. */
  lemma {:induction false} UnselectedOrdered(xs: seq<Tag>, selected: seq<Tag>)
    ensures IsSubsequence(Unselected(xs, selected), xs)
    ensures forall t :: t !in selected ==> multiset(Unselected(xs, selected))[t] == multiset(xs)[t]
  {
    if xs != [] {
      UnselectedOrdered(xs[1..], selected);
      var r := Unselected(xs, selected);
      var r' := Unselected(xs[1..], selected);
      assert xs == [xs[0]] + xs[1..];
      if xs[0] !in selected {
        assert r == [xs[0]] + r';
        assert r[1..] == r';
      } else {
        assert r == r';
        assert r' == [] || r'[0] != xs[0];
      }
    }
  }

  /** With nothing selected every element is kept. */
  lemma {:induction false} UnselectedNothing(xs: seq<Tag>)
    ensures Unselected(xs, []) == xs
  {
    if xs != [] {
      UnselectedNothing(xs[1..]);
      assert [xs[0]] + xs[1..] == xs;
    }
  }

  /** The suggestion test of both link forms: not yet selected and, while
      something is typed, containing the typed text case-insensitively. */
  predicate Suggestible(tag: string, selected: seq<string>, typed: string) {
    tag !in selected && (typed != [] ==> Contains(Lower(tag), Lower(typed)))
  }

  /** `existingTags.filter(tag => !tags.includes(tag) && (currentTag ?
      tag.toLowerCase().includes(currentTag.toLowerCase()) : true))`. */
  function FilteredSuggestions(existing: seq<string>, selected: seq<string>, typed: string): (r: seq<string>)
    ensures forall t :: t in r <==> t in existing && Suggestible(t, selected, typed)
  {
    if existing == [] then []
    else
      (if Suggestible(existing[0], selected, typed) then [existing[0]] else [])
      + FilteredSuggestions(existing[1..], selected, typed)
  }

  /** The suggestions are an order-preserving selection from `existing`
      holding each suggestible tag as often as `existing` does. */
  lemma {:induction false} SuggestionsOrdered(existing: seq<string>, selected: seq<string>, typed: string)
    ensures IsSubsequence(FilteredSuggestions(existing, selected, typed), existing)
    ensures forall t :: Suggestible(t, selected, typed) ==>
      multiset(FilteredSuggestions(existing, selected, typed))[t] == multiset(existing)[t]
  {
    if existing != [] {
      SuggestionsOrdered(existing[1..], selected, typed);
      var r := FilteredSuggestions(existing, selected, typed);
      var r' := FilteredSuggestions(existing[1..], selected, typed);
      assert existing == [existing[0]] + existing[1..];
      if Suggestible(existing[0], selected, typed) {
        assert r == [existing[0]] + r';
        assert r[1..] == r';
      } else {
        assert r == r';
        assert r' == [] || r'[0] != existing[0];
      }
    }
  }

  /** With nothing typed the suggestions are the unselected existing tags;
      a selected tag is never suggested. */
  lemma SuggestionsWithoutTyping(existing: seq<string>, selected: seq<string>)
    ensures forall t :: t in FilteredSuggestions(existing, selected, []) <==> t in existing && t !in selected
  {
  }

  /** The list shown under a tag input (`currentTag &&
      filteredSuggestions.length > 0`): nothing while the input is empty,
      otherwise the existing tags that are not selected and contain the
      typed text, ignoring case. */
  function ShownSuggestions(existing: seq<Tag>, selected: seq<Tag>, typed: string): (r: seq<Tag>)
    ensures typed == "" ==> r == []
    ensures forall t :: t in r <==>
      (typed != "" && t in existing && t !in selected && Contains(Lower(t), Lower(typed)))
  {
    if typed != "" then FilteredSuggestions(existing, selected, typed) else []
  }

  /** Position of the first occurrence of `x`. */
  function IndexOf(xs: seq<Tag>, x: Tag): (k: nat)
    requires x in xs
    ensures k < |xs| && xs[k] == x
    ensures forall i :: 0 <= i < k ==> xs[i] != x
  {
    if xs[0] == x then 0 else 1 + IndexOf(xs[1..], x)
  }

  /** The elements of `xs` in order of first appearance, each once: what
      filling a `Set` element by element and reading it back yields. */
  function Dedup(xs: seq<Tag>): (r: seq<Tag>)
    decreases |xs|
  {
    if xs == [] then []
    else
      var r := Dedup(xs[..|xs| - 1]);
      var x := xs[|xs| - 1];
      if x in r then r else r + [x]
  }

  /** `Dedup` keeps exactly the elements of `xs`, each once, ordered by where
      they first appear in `xs`. */
  lemma {:induction false} DedupSpec(xs: seq<Tag>)
    ensures forall y :: y in Dedup(xs) <==> y in xs
    ensures Distinct(Dedup(xs))
    ensures forall i, j :: 0 <= i < j < |Dedup(xs)| ==> IndexOf(xs, Dedup(xs)[i]) < IndexOf(xs, Dedup(xs)[j])
    decreases |xs|
  {
    if xs != [] {
      var ys := xs[..|xs| - 1];
      var x := xs[|xs| - 1];
      DedupSpec(ys);
      assert xs == ys + [x];
      var r' := Dedup(ys);
      forall y | y in ys ensures IndexOf(xs, y) == IndexOf(ys, y) {
        IndexOfPrefix(ys, x, y);
      }
      if x !in r' {
        assert x !in ys;
        assert IndexOf(xs, x) == |ys|;
      }
    }
  }

  lemma {:induction false} IndexOfPrefix(ys: seq<Tag>, x: Tag, y: Tag)
    requires y in ys
    ensures IndexOf(ys + [x], y) == IndexOf(ys, y)
  {
    if ys[0] != y {
      assert (ys + [x])[1..] == ys[1..] + [x];
      IndexOfPrefix(ys[1..], x, y);
    }
  }
}
