/**
 * The restaurant service: creation with an optional logo, the owner-or-admin
 * guard `FindOne` on which every other service builds, the owner's listing,
 * update, removal (cascading through the foreign keys), lookup by Stripe
 * customer id and the plain `Save` the subscription service uses.
 */
module RestaurantService {
  import opened Wrappers
  import opened Entities
  import opened Schema
  import opened StorageService

  /** The fields of a restaurant creation request. */
  datatype CreateRestaurantDto = CreateRestaurantDto(name: string, description: Option<string>, logo: Option<File>)

  /** A partial update: absent fields are not assigned. */
  datatype UpdateRestaurantDto = UpdateRestaurantDto(name: Option<string>, description: Option<string>, logo: Option<File>)

  const RestaurantNotFound := NotFound("Restaurant not found")
  const NotAuthorized := Unauthorized("Not authorized to access this restaurant")

  /**
   * `findOne`: the query fails when the id is not a uuid, NotFound when no
   * restaurant has the id, Unauthorized when the actor is neither its owner
   * nor an admin, otherwise the stored row.
   */
  function FindOne(restaurants: map<Id, Restaurant>, id: Id, actor: Actor): (r: Result<Restaurant>)
    ensures r == Err(DatabaseError) <==> !UuidText(id)
    ensures r == Err(RestaurantNotFound) <==> UuidText(id) && id !in restaurants
    ensures r == Err(NotAuthorized) <==> UuidText(id) && id in restaurants && !MayAccess(restaurants[id], actor)
    ensures r.Ok? <==> UuidText(id) && id in restaurants && MayAccess(restaurants[id], actor)
    ensures r.Ok? ==> r.value == restaurants[id]
  {
    if !UuidText(id) then Err(DatabaseError)
    else if id !in restaurants then Err(RestaurantNotFound)
    else if restaurants[id].userId != actor.id && actor.role != AdminRole then Err(NotAuthorized)
    else Ok(restaurants[id])
  }

  /** An admin passes the guard for every existing restaurant; anyone else only for their own. */
  lemma FindOneOwnerOrAdmin(restaurants: map<Id, Restaurant>, id: Id, actor: Actor)
    requires UuidKeys(restaurants) && id in restaurants
    ensures actor.role == AdminRole ==> FindOne(restaurants, id, actor).Ok?
    ensures actor.role != AdminRole ==> (FindOne(restaurants, id, actor).Ok? <==> restaurants[id].userId == actor.id)
  {
  }

  /** `findAll`: exactly the restaurants whose owner is the actor. */
  function FindAll(restaurants: map<Id, Restaurant>, actor: Actor): (rs: set<Restaurant>)
    ensures forall r :: r in rs ==> r in restaurants.Values && r.userId == actor.id
    ensures forall k :: k in restaurants && restaurants[k].userId == actor.id ==> restaurants[k] in rs
  {
    set r | r in restaurants.Values && r.userId == actor.id
  }

  /**
   * Everything `findAll` lists passes `findOne`, but the listing has no admin
   * bypass: an admin does not see the restaurants of other users, although
   * `findOne` lets the admin open every one of them.
   */
  lemma FindAllWithinFindOne(restaurants: map<Id, Restaurant>, actor: Actor)
    requires RestaurantKeys(restaurants) && UuidKeys(restaurants)
    ensures forall r :: r in FindAll(restaurants, actor) ==> FindOne(restaurants, r.id, actor) == Ok(r)
    ensures forall k :: k in restaurants && restaurants[k].userId != actor.id ==>
      restaurants[k] !in FindAll(restaurants, actor)
  {
    forall r | r in FindAll(restaurants, actor)
      ensures FindOne(restaurants, r.id, actor) == Ok(r)
    {
      var k :| k in restaurants && restaurants[k] == r;
    }
  }

  /** The row `create` builds: the dto's fields, the actor as owner, the column defaults. */
  function NewRestaurant(id: Id, dto: CreateRestaurantDto, actor: Actor, logoUrl: Option<string>): Restaurant {
    Restaurant(id, dto.name, dto.description, logoUrl, actor.id, DefaultSubscriptionStatus, None, None)
  }

  /**
   * `create`.  The logo, if any, is uploaded first (`upload` is the storage
   * reply); a failed upload throws and nothing is stored.  The insert fails
   * when the acting user's id is not a uuid, and on the foreign key when the
   * acting user has no row.  `newId` is the uuid the database generates.
   */
  method Create(db: Database, dto: CreateRestaurantDto, actor: Actor, newId: Id, upload: UploadReply)
    returns (r: Result<Restaurant>, uploadCalled: bool)
    requires db.Valid() && UuidText(newId) && newId !in db.restaurants
    modifies db
    ensures db.Valid()
    ensures uploadCalled <==> dto.logo.Some?
    ensures dto.logo.Some? && upload.UploadFailed? ==> r == Err(UpstreamFailure)
    ensures (dto.logo.Some? ==> upload.Uploaded?) && !UuidText(actor.id) ==> r == Err(DatabaseError)
    ensures r.Ok? <==> (dto.logo.Some? ==> upload.Uploaded?) && actor.id in old(db.users)
    ensures r.Ok? ==> r.value.userId == actor.id && r.value.subscriptionStatus == DefaultSubscriptionStatus
    ensures r.Ok? ==> r.value.logoUrl == (if dto.logo.Some? then Some(upload.location) else None)
    ensures r.Ok? ==> r.value == NewRestaurant(newId, dto, actor, r.value.logoUrl)
    ensures r.Ok? ==> db.restaurants == old(db.restaurants)[newId := r.value]
    ensures r.Err? ==> db.restaurants == old(db.restaurants)
    ensures unchanged(db`users, db`menus, db`categories, db`items, db`analytics)
  {
    var logoUrl: Option<string> := None;
    uploadCalled := dto.logo.Some?;
    if dto.logo.Some? {
      if upload.UploadFailed? {
        return Err(UpstreamFailure), uploadCalled;
      }
      logoUrl := Some(upload.location);
    }
    if !UuidText(actor.id) {
      return Err(DatabaseError), uploadCalled;
    }
    if actor.id !in db.users {
      return Err(ForeignKeyViolation), uploadCalled;
    }
    var restaurant := NewRestaurant(newId, dto, actor, logoUrl);
    db.restaurants := db.restaurants[newId := restaurant];
    r := Ok(restaurant);
  }

  /** `Object.assign(restaurant, dto)` for the column fields the dto may carry. */
  function Assign(restaurant: Restaurant, dto: UpdateRestaurantDto): (r: Restaurant)
    ensures r.name == dto.name.GetOr(restaurant.name)
    ensures r.description == (if dto.description.Some? then dto.description else restaurant.description)
    ensures r.(name := restaurant.name, description := restaurant.description) == restaurant
  {
    restaurant.(
      name := dto.name.GetOr(restaurant.name),
      description := if dto.description.Some? then dto.description else restaurant.description)
  }

  /**
   * `update`.  After the guard, a new logo replaces the old one: a truthy old
   * `logoUrl` is deleted first (`deleteOk` is the storage reply), then the new
   * file is uploaded; either failure throws before anything is saved.
   */
  method Update(db: Database, id: Id, dto: UpdateRestaurantDto, actor: Actor, upload: UploadReply, deleteOk: bool)
    returns (r: Result<Restaurant>, deletedLogo: Option<string>)
    requires db.Valid()
    modifies db
    ensures db.Valid()
    ensures FindOne(old(db.restaurants), id, actor).Err? ==>
      r == Err(FindOne(old(db.restaurants), id, actor).error) && deletedLogo == None
    ensures deletedLogo.Some? <==>
      FindOne(old(db.restaurants), id, actor).Ok? && dto.logo.Some? && Truthy(old(db.restaurants[id].logoUrl))
    ensures deletedLogo.Some? ==> deletedLogo == old(db.restaurants[id].logoUrl)
    ensures r.Ok? <==> FindOne(old(db.restaurants), id, actor).Ok? && (deletedLogo.Some? ==> deleteOk) && (dto.logo.Some? ==> upload.Uploaded?)
    ensures FindOne(old(db.restaurants), id, actor).Ok? && r.Err? ==> r == Err(UpstreamFailure)
    ensures r.Ok? ==> r.value.logoUrl == (if dto.logo.Some? then Some(upload.location) else old(db.restaurants[id].logoUrl))
    ensures r.Ok? ==> r.value == Assign(old(db.restaurants[id]).(logoUrl := r.value.logoUrl), dto)
    ensures r.Ok? ==> db.restaurants == old(db.restaurants)[id := r.value]
    ensures r.Err? ==> db.restaurants == old(db.restaurants)
    ensures unchanged(db`users, db`menus, db`categories, db`items, db`analytics)
  {
    deletedLogo := None;
    var found := FindOne(db.restaurants, id, actor);
    if found.Err? {
      return Err(found.error), deletedLogo;
    }
    var restaurant := found.value;
    if dto.logo.Some? {
      if Truthy(restaurant.logoUrl) {
        deletedLogo := restaurant.logoUrl;
        if !deleteOk {
          return Err(UpstreamFailure), deletedLogo;
        }
      }
      if upload.UploadFailed? {
        return Err(UpstreamFailure), deletedLogo;
      }
      restaurant := restaurant.(logoUrl := Some(upload.location));
    }
    restaurant := Assign(restaurant, dto);
    db.restaurants := db.restaurants[id := restaurant];
    r := Ok(restaurant);
  }

  /**
   * `remove`.  The guard runs before anything is deleted; a truthy logo is
   * deleted from storage, then the row, and with it (ON DELETE CASCADE) its
   * menus, their categories and items, and its analytics rows.
   */
  method Remove(db: Database, id: Id, actor: Actor, deleteOk: bool) returns (r: Result<()>, deletedLogo: Option<string>)
    requires db.Valid()
    modifies db
    ensures db.Valid()
    ensures FindOne(old(db.restaurants), id, actor).Err? ==>
      r == Err(FindOne(old(db.restaurants), id, actor).error) && unchanged(db) && deletedLogo == None
    ensures deletedLogo.Some? <==> FindOne(old(db.restaurants), id, actor).Ok? && Truthy(old(db.restaurants[id].logoUrl))
    ensures deletedLogo.Some? ==> deletedLogo == old(db.restaurants[id].logoUrl)
    ensures r.Ok? <==> FindOne(old(db.restaurants), id, actor).Ok? && (deletedLogo.Some? ==> deleteOk)
    ensures r.Err? ==> unchanged(db)
    ensures r.Ok? ==> db.restaurants == old(db.restaurants) - {id}
    ensures r.Ok? ==> forall k :: k in db.menus <==> k in old(db.menus) && old(db.RestaurantOfMenu(k)) != id
    ensures r.Ok? ==> forall k :: k in db.categories <==> k in old(db.categories) && old(db.RestaurantOfCategory(k)) != id
    ensures r.Ok? ==> forall k :: k in db.items <==> k in old(db.items) && old(db.RestaurantOfItem(k)) != id
    ensures r.Ok? ==> forall k :: k in db.analytics <==> k in old(db.analytics) && old(db.analytics[k].restaurantId) != id
    ensures r.Ok? ==> forall k :: k in db.menus ==> db.menus[k] == old(db.menus[k])
    ensures r.Ok? ==> forall k :: k in db.categories ==> db.categories[k] == old(db.categories[k])
    ensures r.Ok? ==> forall k :: k in db.items ==> db.items[k] == old(db.items[k])
    ensures r.Ok? ==> forall k :: k in db.analytics ==> db.analytics[k] == old(db.analytics[k])
    ensures db.users == old(db.users)
  {
    deletedLogo := None;
    var found := FindOne(db.restaurants, id, actor);
    if found.Err? {
      return Err(found.error), deletedLogo;
    }
    if Truthy(found.value.logoUrl) {
      deletedLogo := found.value.logoUrl;
      if !deleteOk {
        return Err(UpstreamFailure), deletedLogo;
      }
    }
    db.DeleteRestaurantRow(id);
    r := Ok(());
  }

  /**
   * `findByStripeCustomerId`: no ownership check; `None` exactly when no
   * restaurant has that customer id, otherwise one that has it (the column is
   * not unique, and the query takes whichever row the database returns).
   */
  method FindByStripeCustomerId(restaurants: map<Id, Restaurant>, customerId: string) returns (r: Option<Restaurant>)
    ensures r.None? <==> forall k :: k in restaurants ==> restaurants[k].stripeCustomerId != Some(customerId)
    ensures r.Some? ==> r.value in restaurants.Values && r.value.stripeCustomerId == Some(customerId)
  {
    if exists k :: k in restaurants && restaurants[k].stripeCustomerId == Some(customerId) {
      var k :| k in restaurants && restaurants[k].stripeCustomerId == Some(customerId);
      r := Some(restaurants[k]);
    } else {
      r := None;
    }
  }

  /**
   * `save` of a restaurant row: insert or overwrite under its id.  The query
   * fails when the id or the owner's id is not a uuid, and on the foreign key
   * when the owner has no row.
   */
  method Save(db: Database, restaurant: Restaurant) returns (r: Result<Restaurant>)
    requires db.Valid()
    modifies db
    ensures db.Valid()
    ensures r.Ok? <==> UuidText(restaurant.id) && restaurant.userId in old(db.users)
    ensures r.Ok? ==> r.value == restaurant && db.restaurants == old(db.restaurants)[restaurant.id := restaurant]
    ensures !UuidText(restaurant.id) || !UuidText(restaurant.userId) ==> r == Err(DatabaseError)
    ensures r.Err? && UuidText(restaurant.id) && UuidText(restaurant.userId) ==> r == Err(ForeignKeyViolation)
    ensures r.Err? ==> db.restaurants == old(db.restaurants)
    ensures unchanged(db`users, db`menus, db`categories, db`items, db`analytics)
  {
    if !UuidText(restaurant.id) || !UuidText(restaurant.userId) {
      return Err(DatabaseError);
    }
    if restaurant.userId !in db.users {
      return Err(ForeignKeyViolation);
    }
    db.restaurants := db.restaurants[restaurant.id := restaurant];
    r := Ok(restaurant);
  }
}
