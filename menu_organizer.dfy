/**
 * The menu organizer's drag handler and its set of expanded categories.  A
 * drag ends in at most one reorder mutation; the mutation's contents are the
 * list after the splices, renumbered.
 */
module MenuOrganizer {
  import opened Wrappers
  import opened ClientTypes
  import opened Reorder

  const CategoryType := "category"
  const ItemType := "item"

  /**
   * The library's guarantee about a drop this handler splices: the source
   * index names an element of the list it was dragged from.
   */
  predicate SourceInRange(menu: Menu, result: DropResult) {
    result.destination.Some? ==>
      && (result.dragType == CategoryType ==> result.source.index < |menu.categories|)
      && (result.dragType == ItemType ==>
            var source := FindById(menu.categories, result.source.droppableId);
            var dest := FindById(menu.categories, result.destination.value.droppableId);
            source.Some? && dest.Some? ==> result.source.index < |source.value.items|)
  }

  /**
   * `handleDragEnd`.  No destination, an unknown drag type, or an unknown
   * source or destination category: no mutation.  A category drag submits
   * the moved category list; an item drag within one category submits that
   * category's moved items; an item drag across categories submits the
   * destination's items with the moved item inserted, every one of them
   * stamped with the destination category, and leaves the source category's
   * remaining items out.  Every submitted list is renumbered 0..n-1.
   */
  method HandleDragEnd(menu: Menu, result: DropResult) returns (m: Option<Mutation>)
    requires SourceInRange(menu, result)
    ensures result.destination.None? ==> m.None?
    ensures result.dragType != CategoryType && result.dragType != ItemType ==> m.None?
    ensures result.destination.Some? && result.dragType == CategoryType ==>
      m == Some(UpdateCategoriesOrder(menu.id,
        RenumberCategories(Move(menu.categories, result.source.index, result.destination.value.index))))
    ensures result.destination.Some? && result.dragType == ItemType ==>
      (m.None? <==>
        FindById(menu.categories, result.source.droppableId).None? || FindById(menu.categories, result.destination.value.droppableId).None?)
    ensures (result.destination.Some? && result.dragType == ItemType && m.Some?
             && result.source.droppableId == result.destination.value.droppableId) ==>
      var items := FindById(menu.categories, result.source.droppableId).value.items;
      m == Some(UpdateItemsOrder(menu.id, RenumberItems(Move(items, result.source.index, result.destination.value.index))))
    ensures (result.destination.Some? && result.dragType == ItemType && m.Some?
             && result.source.droppableId != result.destination.value.droppableId) ==>
      var moved := FindById(menu.categories, result.source.droppableId).value.items[result.source.index];
      var dest := FindById(menu.categories, result.destination.value.droppableId).value;
      m == Some(UpdateItemsOrder(menu.id, CrossCategoryItems(dest, result.destination.value.index, moved)))
  {
    if result.destination.None? {
      return None;
    }
    var source, destination := result.source, result.destination.value;
    if result.dragType == CategoryType {
      var categories := menu.categories;
      var removed := categories[source.index];
      categories := RemoveAt(categories, source.index);
      categories := InsertAt(categories, destination.index, removed);
      m := Some(UpdateCategoriesOrder(menu.id, RenumberCategories(categories)));
    } else if result.dragType == ItemType {
      var sourceCategory := FindById(menu.categories, source.droppableId);
      var destCategory := FindById(menu.categories, destination.droppableId);
      if sourceCategory.None? || destCategory.None? {
        return None;
      }
      var sourceItems := sourceCategory.value.items;
      var removed := sourceItems[source.index];
      sourceItems := RemoveAt(sourceItems, source.index);
      if source.droppableId == destination.droppableId {
        sourceItems := InsertAt(sourceItems, destination.index, removed);
        m := Some(UpdateItemsOrder(menu.id, RenumberItems(sourceItems)));
      } else {
        var destItems := destCategory.value.items;
        destItems := InsertAt(destItems, destination.index, removed.(categoryId := destCategory.value.id));
        m := Some(UpdateItemsOrder(menu.id, RenumberItemsInto(destItems, destCategory.value.id)));
      }
    } else {
      m := None;
    }
  }

  /** What a cross-category drag submits: the destination's items with the moved one inserted, all stamped with the destination. */
  function CrossCategoryItems(dest: Category, to: nat, moved: Item): seq<Item> {
    RenumberItemsInto(InsertAt(dest.items, to, moved.(categoryId := dest.id)), dest.id)
  }

  /**
   * A cross-category drag submits one more item than the destination holds,
   * all of them in the destination category: the destination's own items
   * and the moved one at the drop position, and none of the source
   * category's remaining items.
   */
  lemma {:induction false} CrossCategoryDragInserts(dest: Category, to: nat, moved: Item)
    ensures |CrossCategoryItems(dest, to, moved)| == |dest.items| + 1
    ensures forall i :: 0 <= i < |CrossCategoryItems(dest, to, moved)| ==> CrossCategoryItems(dest, to, moved)[i].categoryId == dest.id
    ensures multiset(ItemIds(CrossCategoryItems(dest, to, moved))) == multiset(ItemIds(dest.items)) + multiset{moved.id}
    ensures CrossCategoryItems(dest, to, moved)[Clamp(to, |dest.items|)].id == moved.id
  {
    var ids := ItemIds(CrossCategoryItems(dest, to, moved));
    assert ids == InsertAt(ItemIds(dest.items), to, moved.id);
    InsertAtMultiset(ItemIds(dest.items), to, moved.id);
  }

  /** `toggleCategory` flips exactly the given id. */
  function Toggled(expanded: set<string>, id: string): (r: set<string>)
    ensures id in r <==> id !in expanded
    ensures forall x :: x != id ==> (x in r <==> x in expanded)
  {
    if id in expanded then expanded - {id} else expanded + {id}
  }

  /** Toggling twice restores the set. */
  lemma ToggleTwice(expanded: set<string>, id: string)
    ensures Toggled(Toggled(expanded, id), id) == expanded
  {
  }

  /** The component state `toggleCategory` updates. */
  class OrganizerState {
    var expandedCategories: set<string>

    /** Every category of the menu starts expanded. */
    constructor (menu: Menu)
      ensures expandedCategories == set i | 0 <= i < |menu.categories| :: menu.categories[i].id
    {
      expandedCategories := set i | 0 <= i < |menu.categories| :: menu.categories[i].id;
    }

    /** `toggleCategory`: collapse an expanded category, expand a collapsed one. */
    method ToggleCategory(categoryId: string)
      modifies this
      ensures expandedCategories == Toggled(old(expandedCategories), categoryId)
    {
      var newExpanded := expandedCategories;
      if categoryId in newExpanded {
        newExpanded := newExpanded - {categoryId};
      } else {
        newExpanded := newExpanded + {categoryId};
      }
      expandedCategories := newExpanded;
    }
  }
}
