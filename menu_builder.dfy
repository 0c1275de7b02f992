/**
 * The menu builder's drag handler: the same move-and-renumber as the
 * organizer, except that a drag from the list with droppable id
 * "categories" is a category drag whatever its type, and a cross-category
 * drag rewrites the category of the moved item only.
 */
module MenuBuilder {
  import opened Wrappers
  import opened ClientTypes
  import opened Reorder

  const CategoriesDroppable := "categories"

  /** The library's guarantee: the source index names an element of the list dragged from. */
  predicate SourceInRange(menu: Menu, result: DropResult) {
    result.destination.Some? ==>
      if result.source.droppableId == CategoriesDroppable then result.source.index < |menu.categories|
      else
        var source := FindById(menu.categories, result.source.droppableId);
        var dest := FindById(menu.categories, result.destination.value.droppableId);
        source.Some? && dest.Some? ==> result.source.index < |source.value.items|
  }

  /** What a cross-category drag submits: only the moved item is given the destination category. */
  function MovedIntoCategory(dest: Category, to: nat, moved: Item): seq<Item> {
    RenumberItems(InsertAt(dest.items, to, moved.(categoryId := dest.id)))
  }

  /**
   * `handleDragEnd`.  No destination, or an unknown source or destination
   * category: no mutation.  A drag from "categories" submits the moved
   * category list, a drag within one category its moved items, and a drag
   * across categories the destination's items with the moved one inserted;
   * every list is renumbered 0..n-1.
   */
  method HandleDragEnd(menu: Menu, result: DropResult) returns (m: Option<Mutation>)
    requires SourceInRange(menu, result)
    ensures result.destination.None? ==> m.None?
    ensures result.destination.Some? && result.source.droppableId == CategoriesDroppable ==>
      m == Some(UpdateCategoriesOrder(menu.id,
        RenumberCategories(Move(menu.categories, result.source.index, result.destination.value.index))))
    ensures result.destination.Some? && result.source.droppableId != CategoriesDroppable ==>
      (m.None? <==>
        FindById(menu.categories, result.source.droppableId).None? || FindById(menu.categories, result.destination.value.droppableId).None?)
    ensures (result.destination.Some? && result.source.droppableId != CategoriesDroppable && m.Some?
             && result.source.droppableId == result.destination.value.droppableId) ==>
      var items := FindById(menu.categories, result.source.droppableId).value.items;
      m == Some(UpdateItemsOrder(menu.id, RenumberItems(Move(items, result.source.index, result.destination.value.index))))
    ensures (result.destination.Some? && result.source.droppableId != CategoriesDroppable && m.Some?
             && result.source.droppableId != result.destination.value.droppableId) ==>
      var moved := FindById(menu.categories, result.source.droppableId).value.items[result.source.index];
      var dest := FindById(menu.categories, result.destination.value.droppableId).value;
      m == Some(UpdateItemsOrder(menu.id, MovedIntoCategory(dest, result.destination.value.index, moved)))
  {
    if result.destination.None? {
      return None;
    }
    var sourceDroppableId := result.source.droppableId;
    var destinationDroppableId := result.destination.value.droppableId;
    if sourceDroppableId == CategoriesDroppable {
      var categories := menu.categories;
      var reorderedCategory := categories[result.source.index];
      categories := RemoveAt(categories, result.source.index);
      categories := InsertAt(categories, result.destination.value.index, reorderedCategory);
      m := Some(UpdateCategoriesOrder(menu.id, RenumberCategories(categories)));
    } else {
      var sourceCategory := FindById(menu.categories, sourceDroppableId);
      var destinationCategory := FindById(menu.categories, destinationDroppableId);
      m := None;
      if sourceCategory.Some? && destinationCategory.Some? {
        var sourceItems := sourceCategory.value.items;
        var movedItem := sourceItems[result.source.index];
        sourceItems := RemoveAt(sourceItems, result.source.index);
        if sourceDroppableId == destinationDroppableId {
          sourceItems := InsertAt(sourceItems, result.destination.value.index, movedItem);
          m := Some(UpdateItemsOrder(menu.id, RenumberItems(sourceItems)));
        } else {
          var destinationItems := destinationCategory.value.items;
          destinationItems := InsertAt(destinationItems, result.destination.value.index,
            movedItem.(categoryId := destinationCategory.value.id));
          m := Some(UpdateItemsOrder(menu.id, RenumberItems(destinationItems)));
        }
      }
    }
  }

  /**
   * A cross-category drag submits the destination's items, each copied with
   * only its order renumbered (so each keeps its own category id), and the
   * moved item at the drop position with the destination's category id.
   */
  lemma {:induction false} MovedIntoCategoryKeepsOthers(dest: Category, to: nat, moved: Item)
    ensures |MovedIntoCategory(dest, to, moved)| == |dest.items| + 1
    ensures MovedIntoCategory(dest, to, moved)[Clamp(to, |dest.items|)] ==
      moved.(categoryId := dest.id, order := Clamp(to, |dest.items|))
    ensures forall k :: 0 <= k < Clamp(to, |dest.items|) ==> MovedIntoCategory(dest, to, moved)[k] == dest.items[k].(order := k)
    ensures forall k :: Clamp(to, |dest.items|) < k < |dest.items| + 1 ==>
      MovedIntoCategory(dest, to, moved)[k] == dest.items[k - 1].(order := k)
  {
    var inserted := InsertAt(dest.items, to, moved.(categoryId := dest.id));
    var j := Clamp(to, |dest.items|);
    forall k | 0 <= k < |inserted|
      ensures MovedIntoCategory(dest, to, moved)[k] == inserted[k].(order := k)
    {
    }
  }
}
