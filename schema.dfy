/**
 * The database the initial migration creates: six tables keyed by uuid,
 * a UNIQUE e-mail column, and foreign keys that all cascade on delete
 * (users <- restaurants <- menus <- categories <- items, and
 * restaurants <- analytics).  The tables are the id-keyed maps of the
 * `Database` class; the foreign keys and the unique e-mail are its
 * invariant `Valid()`, and the cascading deletes are its delete methods.
 */
module Schema {
  import opened Wrappers
  import opened Entities

  /** The tables of the initial migration. */
  datatype Table = Users | Restaurants | Menus | Categories | Items | AnalyticsTable

  /** The table that a table's foreign key refers to, if it has one. */
  function Parent(t: Table): Option<Table> {
    match t
    case Users => None
    case Restaurants => Some(Users)
    case Menus => Some(Restaurants)
    case Categories => Some(Menus)
    case Items => Some(Categories)
    case AnalyticsTable => Some(Restaurants)
  }

  /** The order in which `up` creates the tables. */
  const CreateOrder: seq<Table> := [Users, Restaurants, Menus, Categories, Items, AnalyticsTable]

  /** The order in which `down` drops the tables. */
  const DropOrder: seq<Table> := [AnalyticsTable, Items, Categories, Menus, Restaurants, Users]

  /**
   * `up` creates every table once, each after the table it refers to, and
   * `down` drops every table once, each before the table it refers to.
   */
  lemma MigrationOrder()
    ensures forall t: Table :: t in CreateOrder && t in DropOrder
    ensures |CreateOrder| == |DropOrder| == 6
    ensures forall i, j :: 0 <= i < |CreateOrder| && 0 <= j < |CreateOrder| && Parent(CreateOrder[i]) == Some(CreateOrder[j]) ==> j < i
    ensures forall i, j :: 0 <= i < |DropOrder| && 0 <= j < |DropOrder| && Parent(DropOrder[i]) == Some(DropOrder[j]) ==> i < j
  {
    forall t: Table ensures t in CreateOrder && t in DropOrder {
      match t
      case Users => assert CreateOrder[0] == t && DropOrder[5] == t;
      case Restaurants => assert CreateOrder[1] == t && DropOrder[4] == t;
      case Menus => assert CreateOrder[2] == t && DropOrder[3] == t;
      case Categories => assert CreateOrder[3] == t && DropOrder[2] == t;
      case Items => assert CreateOrder[4] == t && DropOrder[1] == t;
      case AnalyticsTable => assert CreateOrder[5] == t && DropOrder[0] == t;
    }
  }

  // The row-level constraints of each table, stated over the maps.

  ghost predicate UserRows(users: map<Id, User>) {
    forall k :: k in users ==> users[k].id == k
  }

  /** The UNIQUE constraint on users.email. */
  ghost predicate UniqueEmails(users: map<Id, User>) {
    forall a, b :: a in users && b in users && users[a].email == users[b].email ==> a == b
  }

  /** Every restaurant is stored under its own id. */
  ghost predicate RestaurantKeys(restaurants: map<Id, Restaurant>) {
    forall k :: k in restaurants ==> restaurants[k].id == k
  }

  ghost predicate RestaurantRows(restaurants: map<Id, Restaurant>, users: map<Id, User>) {
    forall k :: k in restaurants ==> restaurants[k].id == k && restaurants[k].userId in users
  }

  ghost predicate MenuRows(menus: map<Id, Menu>, restaurants: map<Id, Restaurant>) {
    forall k :: k in menus ==> menus[k].id == k && menus[k].restaurantId in restaurants
  }

  ghost predicate CategoryRows(categories: map<Id, Category>, menus: map<Id, Menu>) {
    forall k :: k in categories ==> categories[k].id == k && categories[k].menuId in menus
  }

  ghost predicate ItemRows(items: map<Id, Item>, categories: map<Id, Category>) {
    forall k :: k in items ==> items[k].id == k && items[k].categoryId in categories
  }

  ghost predicate AnalyticsRows(analytics: map<Id, Analytics>, restaurants: map<Id, Restaurant>) {
    forall k :: k in analytics ==> analytics[k].id == k && analytics[k].restaurantId in restaurants
  }

  /** Every key of a table is a uuid in the form the database writes it (the primary keys are uuid columns). */
  ghost predicate UuidKeys<T>(table: map<Id, T>) {
    forall k :: k in table ==> UuidText(k)
  }

  // ON DELETE CASCADE, one level at a time: the rows whose parent row survives.

  function LiveRestaurants(restaurants: map<Id, Restaurant>, users: map<Id, User>): map<Id, Restaurant> {
    map k | k in restaurants && restaurants[k].userId in users :: restaurants[k]
  }

  function LiveMenus(menus: map<Id, Menu>, restaurants: map<Id, Restaurant>): map<Id, Menu> {
    map k | k in menus && menus[k].restaurantId in restaurants :: menus[k]
  }

  function LiveCategories(categories: map<Id, Category>, menus: map<Id, Menu>): map<Id, Category> {
    map k | k in categories && categories[k].menuId in menus :: categories[k]
  }

  function LiveItems(items: map<Id, Item>, categories: map<Id, Category>): map<Id, Item> {
    map k | k in items && items[k].categoryId in categories :: items[k]
  }

  function LiveAnalytics(analytics: map<Id, Analytics>, restaurants: map<Id, Restaurant>): map<Id, Analytics> {
    map k | k in analytics && analytics[k].restaurantId in restaurants :: analytics[k]
  }

  /** The repositories: one id-keyed map per table. */
  class Database {
    var users: map<Id, User>
    var restaurants: map<Id, Restaurant>
    var menus: map<Id, Menu>
    var categories: map<Id, Category>
    var items: map<Id, Item>
    var analytics: map<Id, Analytics>

    /** Every row is stored under its own uuid, every foreign key resolves, and e-mails are unique. */
    ghost predicate Valid()
      reads this
    {
      && UuidKeys(users) && UuidKeys(restaurants) && UuidKeys(menus)
      && UuidKeys(categories) && UuidKeys(items) && UuidKeys(analytics)
      && UserRows(users)
      && UniqueEmails(users)
      && RestaurantRows(restaurants, users)
      && MenuRows(menus, restaurants)
      && CategoryRows(categories, menus)
      && ItemRows(items, categories)
      && AnalyticsRows(analytics, restaurants)
    }

    /** The state right after the migration's `up`: six empty tables. */
    constructor ()
      ensures Valid()
      ensures users == map[] && restaurants == map[] && menus == map[]
      ensures categories == map[] && items == map[] && analytics == map[]
    {
      users, restaurants, menus := map[], map[], map[];
      categories, items, analytics := map[], map[], map[];
    }

    // The ancestor chain item -> category -> menu -> restaurant -> user.

    ghost function RestaurantOfMenu(k: Id): Id
      reads this
      requires Valid() && k in menus
    {
      menus[k].restaurantId
    }

    ghost function RestaurantOfCategory(k: Id): Id
      reads this
      requires Valid() && k in categories
    {
      RestaurantOfMenu(categories[k].menuId)
    }

    ghost function RestaurantOfItem(k: Id): Id
      reads this
      requires Valid() && k in items
    {
      RestaurantOfCategory(items[k].categoryId)
    }

    /** `itemRepository.remove`: an item has no dependants. */
    method DeleteItemRow(id: Id)
      requires Valid()
      modifies this
      ensures Valid()
      ensures items == old(items) - {id}
      ensures unchanged(this`users, this`restaurants, this`menus, this`categories, this`analytics)
    {
      items := items - {id};
      assert ItemRows(items, categories) && UuidKeys(items);
    }

    /** Deleting a category deletes its items. */
    method DeleteCategoryRow(id: Id)
      requires Valid()
      modifies this
      ensures Valid()
      ensures categories == old(categories) - {id}
      ensures forall k :: k in items <==> k in old(items) && old(items[k].categoryId) != id
      ensures forall k :: k in items ==> items[k] == old(items[k])
      ensures unchanged(this`users, this`restaurants, this`menus, this`analytics)
    {
      categories := categories - {id};
      items := LiveItems(items, categories);
    }

    /** Deleting a menu deletes its categories and their items. */
    method DeleteMenuRow(id: Id)
      requires Valid()
      modifies this
      ensures Valid()
      ensures menus == old(menus) - {id}
      ensures forall k :: k in categories <==> k in old(categories) && old(categories[k].menuId) != id
      ensures forall k :: k in items <==> k in old(items) && old(categories[items[k].categoryId].menuId) != id
      ensures forall k :: k in categories ==> categories[k] == old(categories[k])
      ensures forall k :: k in items ==> items[k] == old(items[k])
      ensures unchanged(this`users, this`restaurants, this`analytics)
    {
      menus := menus - {id};
      categories := LiveCategories(categories, menus);
      items := LiveItems(items, categories);
    }

    /** Deleting a restaurant deletes its menus (and everything under them) and its analytics rows. */
    method DeleteRestaurantRow(id: Id)
      requires Valid()
      modifies this
      ensures Valid()
      ensures restaurants == old(restaurants) - {id}
      ensures forall k :: k in menus <==> k in old(menus) && old(RestaurantOfMenu(k)) != id
      ensures forall k :: k in categories <==> k in old(categories) && old(RestaurantOfCategory(k)) != id
      ensures forall k :: k in items <==> k in old(items) && old(RestaurantOfItem(k)) != id
      ensures forall k :: k in analytics <==> k in old(analytics) && old(analytics[k].restaurantId) != id
      ensures forall k :: k in menus ==> menus[k] == old(menus[k])
      ensures forall k :: k in categories ==> categories[k] == old(categories[k])
      ensures forall k :: k in items ==> items[k] == old(items[k])
      ensures forall k :: k in analytics ==> analytics[k] == old(analytics[k])
      ensures users == old(users)
    {
      restaurants := restaurants - {id};
      menus := LiveMenus(menus, restaurants);
      categories := LiveCategories(categories, menus);
      items := LiveItems(items, categories);
      analytics := LiveAnalytics(analytics, restaurants);
    }

    /** Deleting a user deletes the user's restaurants and everything under them. */
    method DeleteUserRow(id: Id)
      requires Valid()
      modifies this
      ensures Valid()
      ensures users == old(users) - {id}
      ensures forall k :: k in restaurants <==> k in old(restaurants) && old(restaurants[k].userId) != id
      ensures forall k :: k in menus <==> k in old(menus) && old(restaurants[RestaurantOfMenu(k)].userId) != id
      ensures forall k :: k in categories <==> k in old(categories) && old(restaurants[RestaurantOfCategory(k)].userId) != id
      ensures forall k :: k in items <==> k in old(items) && old(restaurants[RestaurantOfItem(k)].userId) != id
      ensures forall k :: k in analytics <==> k in old(analytics) && old(restaurants[analytics[k].restaurantId].userId) != id
      ensures forall k :: k in restaurants ==> restaurants[k] == old(restaurants[k])
      ensures forall k :: k in menus ==> menus[k] == old(menus[k])
      ensures forall k :: k in categories ==> categories[k] == old(categories[k])
      ensures forall k :: k in items ==> items[k] == old(items[k])
      ensures forall k :: k in analytics ==> analytics[k] == old(analytics[k])
    {
      users := users - {id};
      restaurants := LiveRestaurants(restaurants, users);
      menus := LiveMenus(menus, restaurants);
      categories := LiveCategories(categories, menus);
      items := LiveItems(items, categories);
      analytics := LiveAnalytics(analytics, restaurants);
    }
  }
}
