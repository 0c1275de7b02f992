/**
 * The rows of the six tables created by the initial migration, with the
 * column defaults that migration declares.  Ids are the uuid strings the
 * database generates; nullable columns are `Option`s.  The column types the
 * database enforces on every value it is sent (uuid, INTEGER, DECIMAL(10,2))
 * are predicates on the values the services pass.
 */
module Entities {
  import opened Wrappers

  type Id = string

  /** The role that bypasses restaurant ownership checks. */
  const AdminRole := "admin"

  /** Column defaults of the initial migration. */
  const DefaultRole := "user"
  const DefaultSubscriptionStatus := "free"
  const DefaultOrder := 0
  const DefaultIsActive := true
  const DefaultIsAvailable := true

  // ---------------------------------------------------------------------------
  // Column types
  // ---------------------------------------------------------------------------

  /** A lower-case hexadecimal digit. */
  predicate HexDigit(c: char) {
    '0' <= c <= '9' || 'a' <= c <= 'f'
  }

  /**
   * The text form in which the database writes a uuid: 32 hex digits in
   * groups of 8, 4, 4, 4 and 12, separated by hyphens.  A value compared
   * with a uuid column that is not in this form makes the query fail.
   */
  predicate UuidText(s: string) {
    |s| == 36 && forall i :: 0 <= i < |s| ==>
      if i == 8 || i == 13 || i == 18 || i == 23 then s[i] == '-' else HexDigit(s[i])
  }

  /** The range of an INTEGER column. */
  const MinInt32 := -0x8000_0000
  const MaxInt32 := 0x7FFF_FFFF

  /** A JavaScript number an INTEGER column accepts: a whole number within 32 bits. */
  predicate IntegerColumn(x: real) {
    x.Floor as real == x && MinInt32 <= x.Floor <= MaxInt32
  }

  /** A number rounded to cents, halves away from zero, as a DECIMAL(_, 2) column stores it. */
  function Cents(x: real): int {
    if x >= 0.0 then (x * 100.0 + 0.5).Floor else -((-x * 100.0 + 0.5).Floor)
  }

  /** The value a DECIMAL(10,2) column stores for `x`. */
  function StoredPrice(x: real): real {
    Cents(x) as real / 100.0
  }

  /** A number a DECIMAL(10,2) column accepts: at most eight digits before the point once rounded. */
  predicate PriceColumn(x: real) {
    -10_000_000_000 < Cents(x) < 10_000_000_000
  }

  /** Cents(x) is the whole number of cents nearest to x. */
  lemma CentsNearest(x: real)
    ensures Cents(x) as real - 0.5 <= x * 100.0 <= Cents(x) as real + 0.5
  {
    if x >= 0.0 {
      var y := x * 100.0 + 0.5;
      assert y.Floor as real <= y < y.Floor as real + 1.0;
    } else {
      var y := -x * 100.0 + 0.5;
      assert y.Floor as real <= y < y.Floor as real + 1.0;
    }
  }

  /** The cents of a whole number of cents are that number. */
  lemma CentsOfWhole(n: int)
    ensures Cents(n as real / 100.0) == n
  {
    var x := n as real / 100.0;
    assert x * 100.0 == n as real;
    if x >= 0.0 {
      assert (x * 100.0 + 0.5).Floor == n;
    } else {
      assert (-x * 100.0 + 0.5).Floor == -n;
    }
  }

  /**
   * The stored price is within half a cent of the one given, storing it
   * again changes nothing, and a price given in whole cents is stored as is.
   */
  lemma StoredPriceRounds(x: real)
    ensures -0.005 <= StoredPrice(x) - x <= 0.005
    ensures StoredPrice(StoredPrice(x)) == StoredPrice(x)
    ensures (x * 100.0).Floor as real == x * 100.0 ==> StoredPrice(x) == x
  {
    CentsNearest(x);
    CentsOfWhole(Cents(x));
    if (x * 100.0).Floor as real == x * 100.0 {
      var n := (x * 100.0).Floor;
      assert x == n as real / 100.0;
      CentsOfWhole(n);
    }
  }

  /** A row of "users" (columns taken from the migration). */
  datatype User = User(id: Id, email: string, password: string, name: string, role: string)

  /**
   * The acting user a request carries: the columns `validateUser` selects,
   * so the password hash is not part of it.
   */
  datatype Actor = Actor(id: Id, email: string, name: string, role: string)

  /** A row of "restaurants"; `subscriptionStatus` is a free-form Stripe status string. */
  datatype Restaurant = Restaurant(
    id: Id,
    name: string,
    description: Option<string>,
    logoUrl: Option<string>,
    userId: Id,
    subscriptionStatus: string,
    subscriptionId: Option<string>,
    stripeCustomerId: Option<string>)

  /** A row of "menus". */
  datatype Menu = Menu(id: Id, name: string, description: Option<string>, restaurantId: Id, isActive: bool)

  /** A row of "categories"; `order` is the sort key among the categories of one menu. */
  datatype Category = Category(id: Id, name: string, description: Option<string>, menuId: Id, order: int)

  /** A row of "items"; `order` is the sort key among the items of one category. */
  datatype Item = Item(
    id: Id,
    name: string,
    description: Option<string>,
    price: real,
    imageUrl: Option<string>,
    categoryId: Id,
    order: int,
    isAvailable: bool)

  /** A row of "analytics" (the JSON payload column is not modelled). */
  datatype Analytics = Analytics(id: Id, restaurantId: Id, eventType: string)

  /** JavaScript truthiness of a nullable string: null, undefined and "" are all false. */
  predicate Truthy(s: Option<string>) {
    s.Some? && s.value != ""
  }

  /** The ownership rule of `RestaurantService.findOne`: the owner or an admin. */
  predicate MayAccess(restaurant: Restaurant, actor: Actor) {
    restaurant.userId == actor.id || actor.role == AdminRole
  }
}
