/** The category checkboxes (src/components/Filter/Filter.tsx). Each render
    builds a Set from the current filters; toggleCheckbox deletes or adds
    the category in that Set in place, snapshots it with Array.from and hands
    the snapshot to filterProducts. A JavaScript Set iterates in insertion
    order, so its contents are a duplicate-free sequence here. */
module Filter {

  /** No category occurs twice. */
  predicate NoDuplicates(s: seq<string>) {
    forall i, j :: 0 <= i < j < |s| ==> s[i] != s[j]
  }

  /** `new Set(xs)` read back in iteration order: the first occurrence of
      each category, in the order of first occurrence. */
  function Dedup(xs: seq<string>): (r: seq<string>)
    ensures NoDuplicates(r)
    ensures forall x :: x in r <==> x in xs
    ensures NoDuplicates(xs) ==> r == xs
    decreases |xs|
  {
    if xs == [] then []
    else
      var init := xs[..|xs| - 1];
      assert xs == init + [xs[|xs| - 1]];
      var d := Dedup(init);
      if xs[|xs| - 1] in d then d else d + [xs[|xs| - 1]]
  }

  /** `set.delete(x)`: x is gone, every other category stays, in order. */
  function Delete(s: seq<string>, x: string): (r: seq<string>)
    ensures forall y :: y in r <==> y in s && y != x
    ensures NoDuplicates(s) ==> NoDuplicates(r)
  {
    if s == [] then []
    else if s[0] == x then Delete(s[1..], x)
    else
      assert NoDuplicates(s) ==> s[0] !in s[1..] && NoDuplicates(s[1..]);
      [s[0]] + Delete(s[1..], x)
  }

  /** Deleting a category that sits at index k of a duplicate-free list
      closes the gap: the categories before and after it keep their order. */
  lemma {:induction false} DeleteAt(s: seq<string>, k: nat)
    requires NoDuplicates(s) && k < |s|
    ensures Delete(s, s[k]) == s[..k] + s[k+1..]
  {
    if k == 0 {
      assert s[0] !in s[1..];
      DeleteAbsent(s[1..], s[0]);
    } else {
      assert s[1..][k-1] == s[k];
      DeleteAt(s[1..], k - 1);
      assert s[..k] == [s[0]] + s[1..][..k-1];
      assert s[k+1..] == s[1..][k..];
    }
  }

  /** Deleting an absent category changes nothing. */
  lemma {:induction false} DeleteAbsent(s: seq<string>, x: string)
    requires x !in s
    ensures Delete(s, x) == s
  {
    if s != [] {
      DeleteAbsent(s[1..], x);
      assert [s[0]] + s[1..] == s;
    }
  }

  /** The toggle rule on the Set's contents: a selected category leaves, an
      unselected one joins at the end, and every other category keeps its
      membership. */
  function Toggled(s: seq<string>, category: string): (r: seq<string>)
    ensures category in s ==> category !in r
    ensures category !in s ==> category in r && r == s + [category]
    ensures forall y :: y != category ==> (y in r <==> y in s)
    ensures NoDuplicates(s) ==> NoDuplicates(r)
  {
    if category in s then Delete(s, category) else s + [category]
  }

  /** Toggling the same category twice restores the same set of labels. */
  lemma ToggleTwiceSameLabels(s: seq<string>, category: string)
    ensures forall y :: y in Toggled(Toggled(s, category), category) <==> y in s
  {
  }

  /** ... but not necessarily the same order: a selected category that is
      removed and added again moves to the end, behind the others. */
  lemma ToggleTwiceMovesToEnd(s: seq<string>, category: string)
    requires category in s
    ensures Toggled(Toggled(s, category), category) == Delete(s, category) + [category]
  {
  }

  /** For instance, toggling "a" twice in ["a", "b"] gives ["b", "a"]. */
  lemma ToggleTwiceMayReorder()
    ensures Toggled(Toggled(["a", "b"], "a"), "a") == ["b", "a"]
  {
  }

  /** One render's Set of selected checkboxes, and the calls it has made to
      filterProducts. */
  class CheckboxSelection {
    var selected: seq<string>
    var emitted: seq<seq<string>>

    ghost predicate Valid()
      reads this
    {
      NoDuplicates(selected)
    }

    /** `const selectedCheckboxes = new Set(filters)`: duplicates in the
        incoming filters collapse. */
    constructor (filters: seq<string>)
      ensures Valid()
      ensures selected == Dedup(filters) && emitted == []
    {
      var contents := [];
      for i := 0 to |filters|
        invariant contents == Dedup(filters[..i])
      {
        assert filters[..i + 1][..i] == filters[..i];
        if filters[i] !in contents {
          contents := contents + [filters[i]];
        }
      }
      assert filters[..|filters|] == filters;
      selected := contents;
      emitted := [];
    }

    /** toggleCheckbox: update the Set in place, then call filterProducts
        once with its snapshot, which has no duplicates. */
    method ToggleCheckbox(category: string) returns (filters: seq<string>)
      requires Valid()
      modifies this
      ensures Valid()
      ensures selected == Toggled(old(selected), category)
      ensures filters == selected && NoDuplicates(filters)
      ensures emitted == old(emitted) + [filters]
    {
      if category in selected {
        selected := Delete(selected, category);
      } else {
        selected := selected + [category];
      }
      filters := selected;
      emitted := emitted + [filters];
    }
  }
}
