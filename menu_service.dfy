/**
 * The menu service: menus, categories and items, each created behind the
 * restaurant guard of `RestaurantService.FindOne`, the order a new category
 * or item receives, the bulk reorders and the deletion of an item.
 */
module MenuService {
  import opened Wrappers
  import opened Entities
  import opened Schema
  import opened StorageService
  import opened RestaurantService

  datatype CreateMenuDto = CreateMenuDto(name: string, description: Option<string>, restaurantId: Id)

  /** `order` is any JavaScript number: the dto checks only that it is a number. */
  datatype CreateCategoryDto = CreateCategoryDto(name: string, description: Option<string>, menuId: Id, order: Option<real>)

  datatype CreateItemDto = CreateItemDto(
    name: string,
    description: Option<string>,
    price: real,
    categoryId: Id,
    image: Option<File>,
    order: Option<real>,
    isAvailable: Option<bool>)

  /** One entry of a bulk reorder request; the request body is not validated. */
  datatype OrderUpdate = OrderUpdate(id: Id, order: real)

  const MenuNotFound := NotFound("Menu not found")
  const CategoryNotFound := NotFound("Category not found")
  const ItemNotFound := NotFound("Item not found")

  // ---------------------------------------------------------------------------
  // Lookups behind the restaurant guard
  // ---------------------------------------------------------------------------

  /**
   * `findMenu`: the query fails on an id that is not a uuid, NotFound for an
   * unknown menu, otherwise the guard on its restaurant decides.
   */
  function FindMenu(menus: map<Id, Menu>, restaurants: map<Id, Restaurant>, id: Id, actor: Actor): (r: Result<Menu>)
    ensures !UuidText(id) ==> r == Err(DatabaseError)
    ensures UuidText(id) && id !in menus ==> r == Err(MenuNotFound)
    ensures UuidText(id) && id in menus ==> var guard := FindOne(restaurants, menus[id].restaurantId, actor);
      (r.Ok? <==> guard.Ok?) && (guard.Err? ==> r == Err(guard.error))
    ensures r.Ok? ==> UuidText(id) && id in menus && r.value == menus[id]
  {
    if !UuidText(id) then Err(DatabaseError)
    else if id !in menus then Err(MenuNotFound)
    else
      var guard := FindOne(restaurants, menus[id].restaurantId, actor);
      if guard.Err? then Err(guard.error) else Ok(menus[id])
  }

  /**
   * `findCategory`: the query fails on an id that is not a uuid, NotFound
   * for an unknown category, otherwise the guard on the restaurant of the
   * category's menu (which the foreign key guarantees).
   */
  function FindCategory(categories: map<Id, Category>, menus: map<Id, Menu>, restaurants: map<Id, Restaurant>,
                        id: Id, actor: Actor): (r: Result<Category>)
    requires UuidText(id) && id in categories ==> categories[id].menuId in menus
    ensures !UuidText(id) ==> r == Err(DatabaseError)
    ensures UuidText(id) && id !in categories ==> r == Err(CategoryNotFound)
    ensures UuidText(id) && id in categories ==> var guard := FindOne(restaurants, menus[categories[id].menuId].restaurantId, actor);
      (r.Ok? <==> guard.Ok?) && (guard.Err? ==> r == Err(guard.error))
    ensures r.Ok? ==> UuidText(id) && id in categories && r.value == categories[id]
  {
    if !UuidText(id) then Err(DatabaseError)
    else if id !in categories then Err(CategoryNotFound)
    else
      var guard := FindOne(restaurants, menus[categories[id].menuId].restaurantId, actor);
      if guard.Err? then Err(guard.error) else Ok(categories[id])
  }

  /** On a consistent database the lookups succeed exactly for the owner of the ancestor restaurant, or an admin. */
  lemma LookupsFollowOwnership(db: Database, id: Id, actor: Actor)
    requires db.Valid()
    ensures FindMenu(db.menus, db.restaurants, id, actor).Ok? <==>
      id in db.menus && MayAccess(db.restaurants[db.RestaurantOfMenu(id)], actor)
    ensures FindCategory(db.categories, db.menus, db.restaurants, id, actor).Ok? <==>
      id in db.categories && MayAccess(db.restaurants[db.RestaurantOfCategory(id)], actor)
  {
    if id in db.menus {
      assert UuidText(id) && db.menus[id].restaurantId in db.restaurants;
    }
    if id in db.categories {
      var m := db.categories[id].menuId;
      assert UuidText(id) && m in db.menus && db.menus[m].restaurantId in db.restaurants;
    }
  }

  // ---------------------------------------------------------------------------
  // The order a new category or item receives
  // ---------------------------------------------------------------------------

  /** The order of the row a `findOne` ordered by `order DESC` returns: the largest, or none. */
  function LastOrder(orders: set<int>): (last: Option<int>)
    ensures last.None? <==> orders == {}
    ensures last.Some? ==> last.value in orders && forall o :: o in orders ==> o <= last.value
  {
    if orders == {} then None
    else
      MaxExists(orders);
      Some(var m :| m in orders && forall o :: o in orders ==> o <= m; m)
  }

  lemma {:induction false} MaxExists(orders: set<int>)
    requires orders != {}
    ensures exists m :: m in orders && forall o :: o in orders ==> o <= m
  {
    NonEmptyHasMember(orders);
    var x :| x in orders;
    if orders == {x} {
      assert forall o :: o in orders ==> o <= x;
    } else {
      var rest := orders - {x};
      assert rest != {} by { assert orders == rest + {x}; }
      MaxExists(rest);
      var m :| m in rest && forall o :: o in rest ==> o <= m;
      assert forall o :: o in orders ==> o == x || o in rest;
      if x <= m {
        assert m in orders;
      } else {
        assert x in orders;
      }
    }
  }

  lemma NonEmptyHasMember(s: set<int>)
    requires s != {}
    ensures exists x :: x in s
  {
    if forall x :: x !in s {
      assert false;
    }
  }

  /** `dto.order ?? (last?.order ?? 0) + 1`, a JavaScript number. */
  function AssignedOrder(explicit: Option<real>, last: Option<int>): real {
    if explicit.Some? then explicit.value else ((if last.Some? then last.value else 0) + 1) as real
  }

  /**
   * Without an explicit order a new row goes after every sibling, and the
   * first row of an empty parent gets 1; an explicit order is kept as given.
   * Among siblings the INTEGER column holds, the appended order fits the
   * column unless a sibling already has the largest one.
   */
  lemma AssignedOrderAppends(orders: set<int>, explicit: Option<real>)
    ensures explicit.Some? ==> AssignedOrder(explicit, LastOrder(orders)) == explicit.value
    ensures explicit.None? ==> forall o :: o in orders ==> o as real < AssignedOrder(explicit, LastOrder(orders))
    ensures explicit.None? && orders == {} ==> AssignedOrder(explicit, LastOrder(orders)) == 1.0
    ensures explicit.None? && orders != {} ==> AssignedOrder(explicit, LastOrder(orders)).Floor - 1 in orders
    ensures explicit.None? && (forall o :: o in orders ==> MinInt32 <= o <= MaxInt32) ==>
      (IntegerColumn(AssignedOrder(explicit, LastOrder(orders))) <==> forall o :: o in orders ==> o < MaxInt32)
  {
  }

  /** The orders of the categories of one menu. */
  function CategoryOrders(categories: map<Id, Category>, menuId: Id): (orders: set<int>)
    ensures forall k :: k in categories && categories[k].menuId == menuId ==> categories[k].order in orders
    ensures forall o :: o in orders ==> exists k :: k in categories && categories[k].menuId == menuId && categories[k].order == o
  {
    set k | k in categories && categories[k].menuId == menuId :: categories[k].order
  }

  /** The orders of the items of one category. */
  function ItemOrders(items: map<Id, Item>, categoryId: Id): (orders: set<int>)
    ensures forall k :: k in items && items[k].categoryId == categoryId ==> items[k].order in orders
    ensures forall o :: o in orders ==> exists k :: k in items && items[k].categoryId == categoryId && items[k].order == o
  {
    set k | k in items && items[k].categoryId == categoryId :: items[k].order
  }

  // ---------------------------------------------------------------------------
  // Creation
  // ---------------------------------------------------------------------------

  /** `createMenu`: the guard on the target restaurant, then a new active menu. */
  method CreateMenu(db: Database, dto: CreateMenuDto, actor: Actor, newId: Id) returns (r: Result<Menu>)
    requires db.Valid() && UuidText(newId) && newId !in db.menus
    modifies db
    ensures db.Valid()
    ensures FindOne(old(db.restaurants), dto.restaurantId, actor).Err? ==>
      r == Err(FindOne(old(db.restaurants), dto.restaurantId, actor).error) && unchanged(db)
    ensures r.Ok? <==> FindOne(old(db.restaurants), dto.restaurantId, actor).Ok?
    ensures r.Ok? ==> r.value == Menu(newId, dto.name, dto.description, dto.restaurantId, DefaultIsActive)
    ensures r.Ok? ==> db.menus == old(db.menus)[newId := r.value]
    ensures unchanged(db`users, db`restaurants, db`categories, db`items, db`analytics)
  {
    var guard := FindOne(db.restaurants, dto.restaurantId, actor);
    if guard.Err? {
      return Err(guard.error);
    }
    var menu := Menu(newId, dto.name, dto.description, dto.restaurantId, DefaultIsActive);
    db.menus := db.menus[newId := menu];
    r := Ok(menu);
  }

  /**
   * `createCategory`: the menu lookup, then a category placed after its
   * siblings unless an order is given; the insert fails when that order is
   * not a whole number the INTEGER column holds.
   */
  method CreateCategory(db: Database, dto: CreateCategoryDto, actor: Actor, newId: Id) returns (r: Result<Category>)
    requires db.Valid() && UuidText(newId) && newId !in db.categories
    modifies db
    ensures db.Valid()
    ensures FindMenu(old(db.menus), old(db.restaurants), dto.menuId, actor).Err? ==>
      r == Err(FindMenu(old(db.menus), old(db.restaurants), dto.menuId, actor).error) && unchanged(db)
    ensures r.Ok? <==>
      FindMenu(old(db.menus), old(db.restaurants), dto.menuId, actor).Ok?
      && IntegerColumn(AssignedOrder(dto.order, LastOrder(CategoryOrders(old(db.categories), dto.menuId))))
    ensures FindMenu(old(db.menus), old(db.restaurants), dto.menuId, actor).Ok? && r.Err? ==>
      r == Err(DatabaseError) && unchanged(db)
    ensures r.Ok? ==> r.value == Category(newId, dto.name, dto.description, dto.menuId,
      AssignedOrder(dto.order, LastOrder(CategoryOrders(old(db.categories), dto.menuId))).Floor)
    ensures r.Ok? ==> db.categories == old(db.categories)[newId := r.value]
    ensures unchanged(db`users, db`restaurants, db`menus, db`items, db`analytics)
  {
    var menu := FindMenu(db.menus, db.restaurants, dto.menuId, actor);
    if menu.Err? {
      return Err(menu.error);
    }
    var last := LastOrder(CategoryOrders(db.categories, menu.value.id));
    var order := AssignedOrder(dto.order, last);
    if !IntegerColumn(order) {
      return Err(DatabaseError);
    }
    var category := Category(newId, dto.name, dto.description, dto.menuId, order.Floor);
    db.categories := db.categories[newId := category];
    r := Ok(category);
  }

  /**
   * `createItem`: the category lookup, then the image upload if an image is
   * given (a failed upload throws and nothing is stored), then an item placed
   * after its siblings unless an order is given, available unless stated.
   * The insert, after the upload, fails when the order is not a whole number
   * the INTEGER column holds or the price does not fit DECIMAL(10,2); the
   * stored price is rounded to cents, the returned one is the price given.
   */
  method CreateItem(db: Database, dto: CreateItemDto, actor: Actor, newId: Id, upload: UploadReply)
    returns (r: Result<Item>, uploadCalled: bool)
    requires db.Valid() && UuidText(newId) && newId !in db.items
    modifies db
    ensures db.Valid()
    ensures FindCategory(old(db.categories), old(db.menus), old(db.restaurants), dto.categoryId, actor).Err? ==>
      r == Err(FindCategory(old(db.categories), old(db.menus), old(db.restaurants), dto.categoryId, actor).error)
      && !uploadCalled && unchanged(db)
    ensures uploadCalled <==>
      FindCategory(old(db.categories), old(db.menus), old(db.restaurants), dto.categoryId, actor).Ok? && dto.image.Some?
    ensures uploadCalled && upload.UploadFailed? ==> r == Err(UpstreamFailure) && unchanged(db)
    ensures r.Ok? <==>
      FindCategory(old(db.categories), old(db.menus), old(db.restaurants), dto.categoryId, actor).Ok?
      && (dto.image.Some? ==> upload.Uploaded?)
      && IntegerColumn(AssignedOrder(dto.order, LastOrder(ItemOrders(old(db.items), dto.categoryId))))
      && PriceColumn(dto.price)
    ensures r.Err? ==> unchanged(db)
    ensures r.Err? && uploadCalled && upload.Uploaded? ==> r == Err(DatabaseError)
    ensures r.Ok? ==> r.value == Item(newId, dto.name, dto.description, dto.price,
      (if dto.image.Some? then Some(upload.location) else None), dto.categoryId,
      AssignedOrder(dto.order, LastOrder(ItemOrders(old(db.items), dto.categoryId))).Floor,
      dto.isAvailable.GetOr(DefaultIsAvailable))
    ensures r.Ok? ==> db.items == old(db.items)[newId := r.value.(price := StoredPrice(dto.price))]
    ensures unchanged(db`users, db`restaurants, db`menus, db`categories, db`analytics)
  {
    uploadCalled := false;
    var category := FindCategory(db.categories, db.menus, db.restaurants, dto.categoryId, actor);
    if category.Err? {
      return Err(category.error), uploadCalled;
    }
    assert dto.categoryId in db.categories;
    var last := LastOrder(ItemOrders(db.items, category.value.id));
    var imageUrl: Option<string> := None;
    if dto.image.Some? {
      uploadCalled := true;
      if upload.UploadFailed? {
        return Err(UpstreamFailure), uploadCalled;
      }
      imageUrl := Some(upload.location);
    }
    var order := AssignedOrder(dto.order, last);
    if !IntegerColumn(order) || !PriceColumn(dto.price) {
      return Err(DatabaseError), uploadCalled;
    }
    var item := Item(newId, dto.name, dto.description, dto.price, imageUrl, dto.categoryId,
      order.Floor, dto.isAvailable.GetOr(DefaultIsAvailable));
    db.items := db.items[newId := item.(price := StoredPrice(dto.price))];
    r := Ok(item);
  }

  // ---------------------------------------------------------------------------
  // Bulk reorders
  // ---------------------------------------------------------------------------

  /**
   * Whether the database runs an entry's `update(id, { order })`: the id
   * must be a uuid and the order a whole number the INTEGER column holds;
   * otherwise that one query fails.
   */
  predicate Accepted(u: OrderUpdate) {
    UuidText(u.id) && IntegerColumn(u.order)
  }

  /** Whether the database runs every entry of a request. */
  predicate AllAccepted(updates: seq<OrderUpdate>) {
    forall i :: 0 <= i < |updates| ==> Accepted(updates[i])
  }

  /**
   * The item table after `update(id, { order })` for each entry in turn; an
   * entry the database refuses changes nothing, and an id with no row
   * matches nothing.  The entries are not restricted to the category the
   * request names.
   */
  function ApplyItemOrders(items: map<Id, Item>, updates: seq<OrderUpdate>): map<Id, Item>
    decreases |updates|
  {
    if updates == [] then items
    else
      var u := updates[|updates| - 1];
      var before := ApplyItemOrders(items, updates[..|updates| - 1]);
      if Accepted(u) && u.id in before then before[u.id := before[u.id].(order := u.order.Floor)] else before
  }

  /** The category table after the same per-entry updates. */
  function ApplyCategoryOrders(categories: map<Id, Category>, updates: seq<OrderUpdate>): map<Id, Category>
    decreases |updates|
  {
    if updates == [] then categories
    else
      var u := updates[|updates| - 1];
      var before := ApplyCategoryOrders(categories, updates[..|updates| - 1]);
      if Accepted(u) && u.id in before then before[u.id := before[u.id].(order := u.order.Floor)] else before
  }

  /** Entry `i` of a reorder applied to the table after the entries before it. */
  lemma ItemOrdersStep(items: map<Id, Item>, updates: seq<OrderUpdate>, i: nat)
    requires i < |updates|
    ensures var before, u := ApplyItemOrders(items, updates[..i]), updates[i];
      ApplyItemOrders(items, updates[..i + 1]) ==
        if Accepted(u) && u.id in before then before[u.id := before[u.id].(order := u.order.Floor)] else before
  {
    assert updates[..i + 1][..i] == updates[..i];
  }

  /** The same step for the category reorder. */
  lemma CategoryOrdersStep(categories: map<Id, Category>, updates: seq<OrderUpdate>, i: nat)
    requires i < |updates|
    ensures var before, u := ApplyCategoryOrders(categories, updates[..i]), updates[i];
      ApplyCategoryOrders(categories, updates[..i + 1]) ==
        if Accepted(u) && u.id in before then before[u.id := before[u.id].(order := u.order.Floor)] else before
  {
    assert updates[..i + 1][..i] == updates[..i];
  }

  /** A reorder keeps the row constraints of the item table. */
  lemma ItemOrdersKeepRows(items: map<Id, Item>, categories: map<Id, Category>, updates: seq<OrderUpdate>)
    requires ItemRows(items, categories) && UuidKeys(items)
    ensures ItemRows(ApplyItemOrders(items, updates), categories) && UuidKeys(ApplyItemOrders(items, updates))
  {
    ItemOrdersFrame(items, updates);
  }

  /** A reorder keeps the row constraints of the category table and of the items that refer to it. */
  lemma CategoryOrdersKeepRows(categories: map<Id, Category>, menus: map<Id, Menu>, items: map<Id, Item>, updates: seq<OrderUpdate>)
    requires CategoryRows(categories, menus) && UuidKeys(categories) && ItemRows(items, categories)
    ensures CategoryRows(ApplyCategoryOrders(categories, updates), menus) && UuidKeys(ApplyCategoryOrders(categories, updates))
    ensures ItemRows(items, ApplyCategoryOrders(categories, updates))
  {
    CategoryOrdersFrame(categories, updates);
  }

  /** A request is accepted up to entry `i` exactly when it is up to `i - 1` and entry `i` is. */
  lemma AllAcceptedStep(updates: seq<OrderUpdate>, i: nat)
    requires i < |updates|
    ensures AllAccepted(updates[..i + 1]) <==> AllAccepted(updates[..i]) && Accepted(updates[i])
  {
    assert updates[..i + 1][i] == updates[i];
    assert forall j :: 0 <= j < i ==> updates[..i + 1][j] == updates[..i][j];
  }

  /** Whether an entry the database runs names the row `k`. */
  ghost predicate Named(updates: seq<OrderUpdate>, k: Id) {
    exists i :: 0 <= i < |updates| && updates[i].id == k && Accepted(updates[i])
  }

  ghost predicate DistinctIds(updates: seq<OrderUpdate>) {
    forall i, j :: 0 <= i < j < |updates| ==> updates[i].id != updates[j].id
  }

  /**
   * A reorder keeps every row and changes nothing but `order`, and a row no
   * accepted entry names is untouched.
   */
  lemma {:induction false} ItemOrdersFrame(items: map<Id, Item>, updates: seq<OrderUpdate>)
    ensures ApplyItemOrders(items, updates).Keys == items.Keys
    ensures forall k :: k in items ==> ApplyItemOrders(items, updates)[k] == items[k].(order := ApplyItemOrders(items, updates)[k].order)
    ensures forall k :: k in items && !Named(updates, k) ==> ApplyItemOrders(items, updates)[k] == items[k]
    decreases |updates|
  {
    if updates != [] {
      var n := |updates| - 1;
      var prefix := updates[..n];
      ItemOrdersFrame(items, prefix);
      forall k | Named(prefix, k) ensures Named(updates, k) {
        var i :| 0 <= i < |prefix| && prefix[i].id == k && Accepted(prefix[i]);
        assert updates[i] == prefix[i];
      }
    }
  }

  /** With distinct ids, every row an accepted entry names takes the order that entry gives. */
  lemma {:induction false} ItemOrdersEffect(items: map<Id, Item>, updates: seq<OrderUpdate>, i: nat)
    requires DistinctIds(updates) && i < |updates| && updates[i].id in items && Accepted(updates[i])
    ensures updates[i].id in ApplyItemOrders(items, updates)
    ensures ApplyItemOrders(items, updates)[updates[i].id].order == updates[i].order.Floor
    decreases |updates|
  {
    var n := |updates| - 1;
    var prefix := updates[..n];
    if i == n {
      ItemOrdersFrame(items, prefix);
    } else {
      assert prefix[i] == updates[i] && updates[i].id != updates[n].id;
      assert DistinctIds(prefix) by {
        forall j, k | 0 <= j < k < |prefix| ensures prefix[j].id != prefix[k].id {
          assert prefix[j] == updates[j] && prefix[k] == updates[k];
        }
      }
      ItemOrdersEffect(items, prefix, i);
    }
  }

  /** The same frame for the category reorder. */
  lemma {:induction false} CategoryOrdersFrame(categories: map<Id, Category>, updates: seq<OrderUpdate>)
    ensures ApplyCategoryOrders(categories, updates).Keys == categories.Keys
    ensures forall k :: k in categories ==> ApplyCategoryOrders(categories, updates)[k] == categories[k].(order := ApplyCategoryOrders(categories, updates)[k].order)
    ensures forall k :: k in categories && !Named(updates, k) ==> ApplyCategoryOrders(categories, updates)[k] == categories[k]
    decreases |updates|
  {
    if updates != [] {
      var n := |updates| - 1;
      var prefix := updates[..n];
      CategoryOrdersFrame(categories, prefix);
      forall k | Named(prefix, k) ensures Named(updates, k) {
        var i :| 0 <= i < |prefix| && prefix[i].id == k && Accepted(prefix[i]);
        assert updates[i] == prefix[i];
      }
    }
  }

  /** The same effect for the category reorder. */
  lemma {:induction false} CategoryOrdersEffect(categories: map<Id, Category>, updates: seq<OrderUpdate>, i: nat)
    requires DistinctIds(updates) && i < |updates| && updates[i].id in categories && Accepted(updates[i])
    ensures updates[i].id in ApplyCategoryOrders(categories, updates)
    ensures ApplyCategoryOrders(categories, updates)[updates[i].id].order == updates[i].order.Floor
    decreases |updates|
  {
    var n := |updates| - 1;
    var prefix := updates[..n];
    if i == n {
      CategoryOrdersFrame(categories, prefix);
    } else {
      assert prefix[i] == updates[i] && updates[i].id != updates[n].id;
      assert DistinctIds(prefix) by {
        forall j, k | 0 <= j < k < |prefix| ensures prefix[j].id != prefix[k].id {
          assert prefix[j] == updates[j] && prefix[k] == updates[k];
        }
      }
      CategoryOrdersEffect(categories, prefix, i);
    }
  }

  /**
   * `updateItemOrder`: the category lookup, then one update per entry.  Every
   * entry's query runs, and the request fails when any one of them fails;
   * the entries the database accepts are applied all the same.  The
   * entries run one after another here; the source issues them concurrently.
   */
  method UpdateItemOrder(db: Database, categoryId: Id, updates: seq<OrderUpdate>, actor: Actor) returns (r: Result<()>)
    requires db.Valid()
    modifies db
    ensures db.Valid()
    ensures r.Ok? <==>
      FindCategory(old(db.categories), old(db.menus), old(db.restaurants), categoryId, actor).Ok? && AllAccepted(updates)
    ensures FindCategory(old(db.categories), old(db.menus), old(db.restaurants), categoryId, actor).Err? ==>
      r == Err(FindCategory(old(db.categories), old(db.menus), old(db.restaurants), categoryId, actor).error) && unchanged(db)
    ensures FindCategory(old(db.categories), old(db.menus), old(db.restaurants), categoryId, actor).Ok? ==>
      db.items == ApplyItemOrders(old(db.items), updates) && (r.Err? ==> r == Err(DatabaseError))
    ensures unchanged(db`users, db`restaurants, db`menus, db`categories, db`analytics)
  {
    var category := FindCategory(db.categories, db.menus, db.restaurants, categoryId, actor);
    if category.Err? {
      return Err(category.error);
    }
    var failed := false;
    var i := 0;
    while i < |updates|
      invariant 0 <= i <= |updates|
      invariant db.items == ApplyItemOrders(old(db.items), updates[..i])
      invariant failed <==> !AllAccepted(updates[..i])
      invariant unchanged(db`users, db`restaurants, db`menus, db`categories, db`analytics)
    {
      ItemOrdersStep(old(db.items), updates, i);
      AllAcceptedStep(updates, i);
      var u := updates[i];
      if !Accepted(u) {
        failed := true;
      } else if u.id in db.items {
        db.items := db.items[u.id := db.items[u.id].(order := u.order.Floor)];
      }
      i := i + 1;
    }
    assert updates[..i] == updates;
    ItemOrdersKeepRows(old(db.items), db.categories, updates);
    r := if failed then Err(DatabaseError) else Ok(());
  }

  /** `updateCategoryOrder`: the menu lookup, then one update per entry, failing as `updateItemOrder` does. */
  method UpdateCategoryOrder(db: Database, menuId: Id, updates: seq<OrderUpdate>, actor: Actor) returns (r: Result<()>)
    requires db.Valid()
    modifies db
    ensures db.Valid()
    ensures r.Ok? <==> FindMenu(old(db.menus), old(db.restaurants), menuId, actor).Ok? && AllAccepted(updates)
    ensures FindMenu(old(db.menus), old(db.restaurants), menuId, actor).Err? ==>
      r == Err(FindMenu(old(db.menus), old(db.restaurants), menuId, actor).error) && unchanged(db)
    ensures FindMenu(old(db.menus), old(db.restaurants), menuId, actor).Ok? ==>
      db.categories == ApplyCategoryOrders(old(db.categories), updates) && (r.Err? ==> r == Err(DatabaseError))
    ensures unchanged(db`users, db`restaurants, db`menus, db`items, db`analytics)
  {
    var menu := FindMenu(db.menus, db.restaurants, menuId, actor);
    if menu.Err? {
      return Err(menu.error);
    }
    var failed := false;
    var i := 0;
    while i < |updates|
      invariant 0 <= i <= |updates|
      invariant db.categories == ApplyCategoryOrders(old(db.categories), updates[..i])
      invariant failed <==> !AllAccepted(updates[..i])
      invariant unchanged(db`users, db`restaurants, db`menus, db`items, db`analytics)
    {
      CategoryOrdersStep(old(db.categories), updates, i);
      AllAcceptedStep(updates, i);
      var u := updates[i];
      if !Accepted(u) {
        failed := true;
      } else if u.id in db.categories {
        db.categories := db.categories[u.id := db.categories[u.id].(order := u.order.Floor)];
      }
      i := i + 1;
    }
    assert updates[..i] == updates;
    CategoryOrdersKeepRows(old(db.categories), db.menus, db.items, updates);
    r := if failed then Err(DatabaseError) else Ok(());
  }

  /** A uuid for the rows of the counterexamples below. */
  const SampleId := "00000000-0000-4000-8000-000000000001"

  /**
   * As written, a caller may reorder any category's items: authorised for
   * category "c1" only, an entry naming an item of category "c2" still moves it.
   */
  lemma ItemReorderEscapesCategory()
    ensures var items := map[SampleId := Item(SampleId, "Soup", None, 5.0, None, "c2", 1, true)];
      var after := ApplyItemOrders(items, [OrderUpdate(SampleId, 7.0)]);
      SampleId in after && after[SampleId].order == 7 && items[SampleId].categoryId != "c1"
  {
    assert UuidText(SampleId);
    assert [OrderUpdate(SampleId, 7.0)][..0] == [];
  }

  /** As written, the same holds for the categories of another menu. */
  lemma CategoryReorderEscapesMenu()
    ensures var categories := map[SampleId := Category(SampleId, "Drinks", None, "m2", 1)];
      var after := ApplyCategoryOrders(categories, [OrderUpdate(SampleId, 7.0)]);
      SampleId in after && after[SampleId].order == 7 && categories[SampleId].menuId != "m1"
  {
    assert UuidText(SampleId);
    assert [OrderUpdate(SampleId, 7.0)][..0] == [];
  }

  /** The intended item reorder: entries naming an item of another category are ignored. */
  function ApplyScopedItemOrders(items: map<Id, Item>, categoryId: Id, updates: seq<OrderUpdate>): map<Id, Item>
    decreases |updates|
  {
    if updates == [] then items
    else
      var u := updates[|updates| - 1];
      var before := ApplyScopedItemOrders(items, categoryId, updates[..|updates| - 1]);
      if Accepted(u) && u.id in before && before[u.id].categoryId == categoryId then before[u.id := before[u.id].(order := u.order.Floor)]
      else before
  }

  /** The intended category reorder: entries naming a category of another menu are ignored. */
  function ApplyScopedCategoryOrders(categories: map<Id, Category>, menuId: Id, updates: seq<OrderUpdate>): map<Id, Category>
    decreases |updates|
  {
    if updates == [] then categories
    else
      var u := updates[|updates| - 1];
      var before := ApplyScopedCategoryOrders(categories, menuId, updates[..|updates| - 1]);
      if Accepted(u) && u.id in before && before[u.id].menuId == menuId then before[u.id := before[u.id].(order := u.order.Floor)]
      else before
  }

  /**
   * The scoped item reorder keeps every item, leaves every item outside the
   * authorised category as it was, and changes only `order` inside it.
   */
  lemma {:induction false} ScopedItemOrdersStayInCategory(items: map<Id, Item>, categoryId: Id, updates: seq<OrderUpdate>)
    ensures ApplyScopedItemOrders(items, categoryId, updates).Keys == items.Keys
    ensures forall k :: k in items ==>
      ApplyScopedItemOrders(items, categoryId, updates)[k] == items[k].(order := ApplyScopedItemOrders(items, categoryId, updates)[k].order)
    ensures forall k :: k in items && items[k].categoryId != categoryId ==> ApplyScopedItemOrders(items, categoryId, updates)[k] == items[k]
    decreases |updates|
  {
    if updates != [] {
      ScopedItemOrdersStayInCategory(items, categoryId, updates[..|updates| - 1]);
    }
  }

  /** When every entry names an item of the authorised category, the scoped reorder is the reorder as written. */
  lemma {:induction false} ScopedItemOrdersAgree(items: map<Id, Item>, categoryId: Id, updates: seq<OrderUpdate>)
    requires forall i :: 0 <= i < |updates| && updates[i].id in items ==> items[updates[i].id].categoryId == categoryId
    ensures ApplyScopedItemOrders(items, categoryId, updates) == ApplyItemOrders(items, updates)
    decreases |updates|
  {
    if updates != [] {
      var prefix := updates[..|updates| - 1];
      assert forall i :: 0 <= i < |prefix| ==> prefix[i] == updates[i];
      ScopedItemOrdersAgree(items, categoryId, prefix);
      ItemOrdersFrame(items, prefix);
    }
  }

  /**
   * The scoped category reorder keeps every category, leaves every category
   * outside the authorised menu as it was, and changes only `order` inside it.
   */
  lemma {:induction false} ScopedCategoryOrdersStayInMenu(categories: map<Id, Category>, menuId: Id, updates: seq<OrderUpdate>)
    ensures ApplyScopedCategoryOrders(categories, menuId, updates).Keys == categories.Keys
    ensures forall k :: k in categories ==>
      ApplyScopedCategoryOrders(categories, menuId, updates)[k] == categories[k].(order := ApplyScopedCategoryOrders(categories, menuId, updates)[k].order)
    ensures forall k :: k in categories && categories[k].menuId != menuId ==>
      ApplyScopedCategoryOrders(categories, menuId, updates)[k] == categories[k]
    decreases |updates|
  {
    if updates != [] {
      ScopedCategoryOrdersStayInMenu(categories, menuId, updates[..|updates| - 1]);
    }
  }

  /** When every entry names a category of the authorised menu, the scoped reorder is the reorder as written. */
  lemma {:induction false} ScopedCategoryOrdersAgree(categories: map<Id, Category>, menuId: Id, updates: seq<OrderUpdate>)
    requires forall i :: 0 <= i < |updates| && updates[i].id in categories ==> categories[updates[i].id].menuId == menuId
    ensures ApplyScopedCategoryOrders(categories, menuId, updates) == ApplyCategoryOrders(categories, updates)
    decreases |updates|
  {
    if updates != [] {
      var prefix := updates[..|updates| - 1];
      assert forall i :: 0 <= i < |prefix| ==> prefix[i] == updates[i];
      ScopedCategoryOrdersAgree(categories, menuId, prefix);
      CategoryOrdersFrame(categories, prefix);
    }
  }

  // ---------------------------------------------------------------------------
  // Deletion
  // ---------------------------------------------------------------------------

  /**
   * `deleteItem`: the query fails on an id that is not a uuid, NotFound for
   * an unknown item, then the guard on the item's
   * restaurant, then the deletion of a truthy image URL from storage, whose
   * failure throws and keeps the row, then the row itself.
   */
  method DeleteItem(db: Database, id: Id, actor: Actor, deleteOk: bool) returns (r: Result<()>, deletedUrl: Option<string>)
    requires db.Valid()
    modifies db
    ensures db.Valid()
    ensures !UuidText(id) ==> r == Err(DatabaseError) && deletedUrl == None && unchanged(db)
    ensures UuidText(id) && id !in old(db.items) ==> r == Err(ItemNotFound) && deletedUrl == None && unchanged(db)
    ensures id in old(db.items) ==>
      var guard := FindOne(old(db.restaurants), old(db.RestaurantOfItem(id)), actor);
      && (guard.Err? ==> r == Err(guard.error) && deletedUrl == None && unchanged(db))
      && (deletedUrl.Some? <==> guard.Ok? && Truthy(old(db.items[id].imageUrl)))
      && (r.Ok? <==> guard.Ok? && (deletedUrl.Some? ==> deleteOk))
    ensures deletedUrl.Some? ==> deletedUrl == old(db.items[id].imageUrl)
    ensures r.Err? ==> unchanged(db)
    ensures r.Ok? ==> db.items == old(db.items) - {id}
    ensures unchanged(db`users, db`restaurants, db`menus, db`categories, db`analytics)
  {
    deletedUrl := None;
    if !UuidText(id) {
      return Err(DatabaseError), deletedUrl;
    }
    if id !in db.items {
      return Err(ItemNotFound), deletedUrl;
    }
    var item := db.items[id];
    var menu := db.menus[db.categories[item.categoryId].menuId];
    var guard := FindOne(db.restaurants, menu.restaurantId, actor);
    if guard.Err? {
      return Err(guard.error), deletedUrl;
    }
    if Truthy(item.imageUrl) {
      deletedUrl := item.imageUrl;
      if !deleteOk {
        return Err(UpstreamFailure), deletedUrl;
      }
    }
    db.DeleteItemRow(id);
    r := Ok(());
  }
}
