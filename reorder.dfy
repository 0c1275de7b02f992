/**
 * The list surgery the drag-and-drop handlers perform with `splice`: take
 * the element at the source index out, put an element in at the destination
 * index, and renumber every element's `order` to its position.
 */
module Reorder {
  import opened Wrappers
  import opened ClientTypes

  /** `s.splice(i, 1)` for an index in range: the list without its `i`-th element. */
  function RemoveAt<T>(s: seq<T>, i: nat): (r: seq<T>)
    requires i < |s|
    ensures |r| == |s| - 1
    ensures forall k :: 0 <= k < i ==> r[k] == s[k]
    ensures forall k :: i <= k < |r| ==> r[k] == s[k + 1]
  {
    s[..i] + s[i + 1..]
  }

  /** Where `splice(i, 0, x)` inserts into a list of length `n`: indices past the end append. */
  function Clamp(i: nat, n: nat): (j: nat)
    ensures j <= n && (i <= n ==> j == i) && (i > n ==> j == n)
  {
    if i <= n then i else n
  }

  /** `s.splice(i, 0, x)`: `x` inserted before position `i`, or appended when `i` is past the end. */
  function InsertAt<T>(s: seq<T>, i: nat, x: T): (r: seq<T>)
    ensures |r| == |s| + 1
    ensures r[Clamp(i, |s|)] == x
    ensures forall k :: 0 <= k < Clamp(i, |s|) ==> r[k] == s[k]
    ensures forall k :: Clamp(i, |s|) < k < |r| ==> r[k] == s[k - 1]
  {
    var j := Clamp(i, |s|);
    s[..j] + [x] + s[j..]
  }

  /** A drag within one list: the element at `from` taken out and put back in at `to`. */
  function Move<T>(s: seq<T>, from: nat, to: nat): seq<T>
    requires from < |s|
  {
    InsertAt(RemoveAt(s, from), to, s[from])
  }

  lemma {:induction false} RemoveAtMultiset<T>(s: seq<T>, i: nat)
    requires i < |s|
    ensures multiset(RemoveAt(s, i)) + multiset{s[i]} == multiset(s)
  {
    assert s == s[..i] + [s[i]] + s[i + 1..];
  }

  lemma {:induction false} InsertAtMultiset<T>(s: seq<T>, i: nat, x: T)
    ensures multiset(InsertAt(s, i, x)) == multiset(s) + multiset{x}
  {
    var j := Clamp(i, |s|);
    assert s == s[..j] + s[j..];
  }

  /** Taking out what was just put in gives the list back. */
  lemma {:induction false} RemoveInserted<T>(s: seq<T>, i: nat, x: T)
    ensures RemoveAt(InsertAt(s, i, x), Clamp(i, |s|)) == s
  {
  }

  /** Putting an element back where it was taken from gives the list back. */
  lemma {:induction false} InsertRemoved<T>(s: seq<T>, i: nat)
    requires i < |s|
    ensures InsertAt(RemoveAt(s, i), i, s[i]) == s
  {
  }

  /**
   * A move is a permutation of the same length that puts the moved element
   * at the destination (clamped to the last position); the other elements
   * keep their relative order; dropping where the drag started changes
   * nothing; and moving back from the destination undoes the move.
   */
  lemma {:induction false} MoveIsPermutation<T>(s: seq<T>, from: nat, to: nat)
    requires from < |s|
    ensures |Move(s, from, to)| == |s|
    ensures multiset(Move(s, from, to)) == multiset(s)
    ensures Move(s, from, to)[Clamp(to, |s| - 1)] == s[from]
    ensures RemoveAt(Move(s, from, to), Clamp(to, |s| - 1)) == RemoveAt(s, from)
    ensures Move(s, from, from) == s
    ensures Move(Move(s, from, to), Clamp(to, |s| - 1), from) == s
  {
    var rest := RemoveAt(s, from);
    RemoveAtMultiset(s, from);
    InsertAtMultiset(rest, to, s[from]);
    RemoveInserted(rest, to, s[from]);
    InsertRemoved(s, from);
  }

  /** A drag into another list: the moved element inserted at the destination. */
  lemma {:induction false} InsertIsExtension<T>(dest: seq<T>, to: nat, x: T)
    ensures |InsertAt(dest, to, x)| == |dest| + 1
    ensures multiset(InsertAt(dest, to, x)) == multiset(dest) + multiset{x}
    ensures RemoveAt(InsertAt(dest, to, x), Clamp(to, |dest|)) == dest
  {
    InsertAtMultiset(dest, to, x);
    RemoveInserted(dest, to, x);
  }

  // ---------------------------------------------------------------------------
  // Renumbering (`list.map((x, index) => ({ ...x, order: index }))`)
  // ---------------------------------------------------------------------------

  function RenumberCategories(cs: seq<Category>): (r: seq<Category>)
    ensures |r| == |cs|
    ensures forall i :: 0 <= i < |r| ==> r[i].order == i
    ensures forall i :: 0 <= i < |r| ==> r[i].(order := cs[i].order) == cs[i]
  {
    seq(|cs|, i requires 0 <= i < |cs| => cs[i].(order := i))
  }

  function RenumberItems(items: seq<Item>): (r: seq<Item>)
    ensures |r| == |items|
    ensures forall i :: 0 <= i < |r| ==> r[i].order == i
    ensures forall i :: 0 <= i < |r| ==> r[i].(order := items[i].order) == items[i]
  {
    seq(|items|, i requires 0 <= i < |items| => items[i].(order := i))
  }

  /** Renumbering that also stamps every item with the destination category. */
  function RenumberItemsInto(items: seq<Item>, categoryId: string): (r: seq<Item>)
    ensures |r| == |items|
    ensures forall i :: 0 <= i < |r| ==> r[i].order == i && r[i].categoryId == categoryId
    ensures forall i :: 0 <= i < |r| ==> r[i].(order := items[i].order, categoryId := items[i].categoryId) == items[i]
  {
    seq(|items|, i requires 0 <= i < |items| => items[i].(order := i, categoryId := categoryId))
  }

  function CategoryIds(cs: seq<Category>): (ids: seq<string>)
    ensures |ids| == |cs| && forall i :: 0 <= i < |cs| ==> ids[i] == cs[i].id
  {
    seq(|cs|, i requires 0 <= i < |cs| => cs[i].id)
  }

  function ItemIds(items: seq<Item>): (ids: seq<string>)
    ensures |ids| == |items| && forall i :: 0 <= i < |items| ==> ids[i] == items[i].id
  {
    seq(|items|, i requires 0 <= i < |items| => items[i].id)
  }

  /** Renumbering keeps the ids in place, and a move moves the ids the same way. */
  lemma {:induction false} CategoryIdsFollowMove(cs: seq<Category>, from: nat, to: nat)
    requires from < |cs|
    ensures CategoryIds(RenumberCategories(cs)) == CategoryIds(cs)
    ensures CategoryIds(Move(cs, from, to)) == Move(CategoryIds(cs), from, to)
  {
    var m := Move(cs, from, to);
    var n := Move(CategoryIds(cs), from, to);
    assert |CategoryIds(m)| == |n|;
    forall k | 0 <= k < |n| ensures CategoryIds(m)[k] == n[k] {
      var j := Clamp(to, |cs| - 1);
      if k < j && k < from {
      } else if k < j {
      } else if k == j {
      } else if k <= from {
      } else {
      }
    }
  }

  lemma {:induction false} ItemIdsFollowMove(items: seq<Item>, from: nat, to: nat)
    requires from < |items|
    ensures ItemIds(RenumberItems(items)) == ItemIds(items)
    ensures ItemIds(Move(items, from, to)) == Move(ItemIds(items), from, to)
  {
    var m := Move(items, from, to);
    var n := Move(ItemIds(items), from, to);
    assert |ItemIds(m)| == |n|;
    forall k | 0 <= k < |n| ensures ItemIds(m)[k] == n[k] {
      var j := Clamp(to, |items| - 1);
      if k < j && k < from {
      } else if k < j {
      } else if k == j {
      } else if k <= from {
      } else {
      }
    }
  }

  /**
   * A category drag submits a permutation of the menu's categories with the
   * dragged one at the drop position; dropping it where it started submits
   * the list unchanged but renumbered.
   */
  lemma {:induction false} CategoryDragPermutes(cs: seq<Category>, from: nat, to: nat)
    requires from < |cs|
    ensures |RenumberCategories(Move(cs, from, to))| == |cs|
    ensures multiset(CategoryIds(RenumberCategories(Move(cs, from, to)))) == multiset(CategoryIds(cs))
    ensures RenumberCategories(Move(cs, from, to))[Clamp(to, |cs| - 1)].id == cs[from].id
    ensures from == to ==> RenumberCategories(Move(cs, from, to)) == RenumberCategories(cs)
  {
    MoveIsPermutation(cs, from, to);
    CategoryIdsFollowMove(cs, from, to);
    CategoryIdsFollowMove(Move(cs, from, to), 0, 0);
    MoveIsPermutation(CategoryIds(cs), from, to);
  }

  /** The same for an item drag within one category. */
  lemma {:induction false} ItemDragPermutes(items: seq<Item>, from: nat, to: nat)
    requires from < |items|
    ensures |RenumberItems(Move(items, from, to))| == |items|
    ensures multiset(ItemIds(RenumberItems(Move(items, from, to)))) == multiset(ItemIds(items))
    ensures RenumberItems(Move(items, from, to))[Clamp(to, |items| - 1)].id == items[from].id
    ensures from == to ==> RenumberItems(Move(items, from, to)) == RenumberItems(items)
  {
    MoveIsPermutation(items, from, to);
    ItemIdsFollowMove(items, from, to);
    ItemIdsFollowMove(Move(items, from, to), 0, 0);
    MoveIsPermutation(ItemIds(items), from, to);
  }

  /** `i` is the first position holding a category with the id. */
  ghost predicate FirstWithId(cs: seq<Category>, id: string, i: int) {
    0 <= i < |cs| && cs[i].id == id && forall j :: 0 <= j < i ==> cs[j].id != id
  }

  /** `list.find(c => c.id === id)`: the first category with the id. */
  function FindById(cs: seq<Category>, id: string): (r: Option<Category>)
    ensures r.None? <==> forall i :: 0 <= i < |cs| ==> cs[i].id != id
    ensures r.Some? ==> exists i :: FirstWithId(cs, id, i) && cs[i] == r.value
    decreases |cs|
  {
    if cs == [] then None
    else if cs[0].id == id then (assert FirstWithId(cs, id, 0); Some(cs[0]))
    else
      var r := FindById(cs[1..], id);
      FirstWithIdStep(cs, id, r);
      r
  }

  lemma FirstWithIdStep(cs: seq<Category>, id: string, r: Option<Category>)
    requires |cs| > 0 && cs[0].id != id
    requires r.Some? ==> exists i :: FirstWithId(cs[1..], id, i) && cs[1..][i] == r.value
    ensures r.Some? ==> exists i :: FirstWithId(cs, id, i) && cs[i] == r.value
  {
    if r.Some? {
      var i :| FirstWithId(cs[1..], id, i) && cs[1..][i] == r.value;
      assert FirstWithId(cs, id, i + 1);
    }
  }
}
