/**
 * The client's view of a menu, as the drag-and-drop components receive it:
 * a menu with its categories, each with its items, and the react-beautiful-dnd
 * drop result and the reorder mutations the components issue.
 */
module ClientTypes {
  import opened Wrappers

  datatype Item = Item(
    id: string,
    name: string,
    description: Option<string>,
    price: real,
    imageUrl: Option<string>,
    categoryId: string,
    order: int,
    isAvailable: bool)

  datatype Category = Category(
    id: string,
    name: string,
    description: Option<string>,
    menuId: string,
    order: int,
    items: seq<Item>)

  datatype Menu = Menu(
    id: string,
    name: string,
    description: Option<string>,
    restaurantId: string,
    isActive: bool,
    categories: seq<Category>)

  /** One end of a drag: the list it is in and the position in that list. */
  datatype DraggableLocation = DraggableLocation(droppableId: string, index: nat)

  /** What the library reports when a drag ends; no destination when dropped outside every list. */
  datatype DropResult = DropResult(source: DraggableLocation, destination: Option<DraggableLocation>, dragType: string)

  /** The reorder request a drag submits. */
  datatype Mutation =
    | UpdateCategoriesOrder(menuId: string, categories: seq<Category>)
    | UpdateItemsOrder(menuId: string, items: seq<Item>)
}
