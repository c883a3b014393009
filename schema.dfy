/** The record shapes of the shared schema: one row datatype per table, one
    insert datatype per insert schema, and the tables' column defaults.
    A nullable column is an Option; money is in cents and ratings/weights in
    hundredths (decimal columns of scale 2); a timestamp is an integer
    (milliseconds). Serialized lists (dealer specialties, product images)
    stay opaque text, as the columns store them. */
module Schema {
  import opened Wrappers

  type Timestamp = int
  type Cents = int
  type Hundredths = int

  // ---- users -------------------------------------------------------------

  datatype User = User(
    id: int, username: string, email: string, password: string,
    firstName: string, lastName: string,
    phone: Option<string>, address: Option<string>, city: Option<string>,
    isActive: Option<bool>, createdAt: Option<Timestamp>)

  /** The user insert schema omits `id` and `createdAt`. */
  datatype InsertUser = InsertUser(
    username: string, email: string, password: string,
    firstName: string, lastName: string,
    phone: Option<string>, address: Option<string>, city: Option<string>,
    isActive: Option<bool>)

  function UserOf(id: int, ins: InsertUser, createdAt: Option<Timestamp>): (u: User)
    ensures u.id == id && u.createdAt == createdAt
  {
    User(id, ins.username, ins.email, ins.password, ins.firstName, ins.lastName,
         ins.phone, ins.address, ins.city, ins.isActive, createdAt)
  }

  /** The insert part of a user: everything but the omitted columns. */
  function InsertOfUser(u: User): (ins: InsertUser)
    ensures UserOf(u.id, ins, u.createdAt) == u
  {
    InsertUser(u.username, u.email, u.password, u.firstName, u.lastName,
               u.phone, u.address, u.city, u.isActive)
  }

  /** Column defaults of the users table: `isActive` is true. */
  function UserDefaults(ins: InsertUser): (r: InsertUser)
    ensures r.isActive == if ins.isActive.Some? then ins.isActive else Some(true)
    ensures r.(isActive := ins.isActive) == ins
  {
    ins.(isActive := Some(OrDefault(ins.isActive, true)))
  }

  // ---- categories ----------------------------------------------------------

  datatype Category = Category(
    id: int, name: string, description: Option<string>, icon: Option<string>,
    parentId: Option<int>, currentPrice: Option<Cents>,
    priceUnit: Option<string>, isActive: Option<bool>)

  /** The category insert schema omits only `id`. */
  datatype InsertCategory = InsertCategory(
    name: string, description: Option<string>, icon: Option<string>,
    parentId: Option<int>, currentPrice: Option<Cents>,
    priceUnit: Option<string>, isActive: Option<bool>)

  function CategoryOf(id: int, ins: InsertCategory): (c: Category)
    ensures c.id == id
  {
    Category(id, ins.name, ins.description, ins.icon, ins.parentId,
             ins.currentPrice, ins.priceUnit, ins.isActive)
  }

  function InsertOfCategory(c: Category): (ins: InsertCategory)
    ensures CategoryOf(c.id, ins) == c
  {
    InsertCategory(c.name, c.description, c.icon, c.parentId,
                   c.currentPrice, c.priceUnit, c.isActive)
  }

  /** Column defaults of the categories table: unit "kg", active. */
  function CategoryDefaults(ins: InsertCategory): (r: InsertCategory)
    ensures r.priceUnit == if ins.priceUnit.Some? then ins.priceUnit else Some("kg")
    ensures r.isActive == if ins.isActive.Some? then ins.isActive else Some(true)
    ensures r.(priceUnit := ins.priceUnit, isActive := ins.isActive) == ins
  {
    ins.(priceUnit := Some(OrDefault(ins.priceUnit, "kg")),
         isActive := Some(OrDefault(ins.isActive, true)))
  }

  // ---- price history (a table without an insert schema or store operation) --

  datatype PriceHistory = PriceHistory(
    id: int, categoryId: int, price: Cents, date: Option<Timestamp>)

  // ---- bookings ------------------------------------------------------------

  datatype Booking = Booking(
    id: int, userId: int, serviceType: string, categoryId: Option<int>,
    estimatedWeight: Option<Hundredths>, scheduledDate: Option<Timestamp>,
    scheduledTime: Option<string>, address: Option<string>, phone: Option<string>,
    status: Option<string>, notes: Option<string>, createdAt: Option<Timestamp>)

  /** The booking insert schema omits `id` and `createdAt`. */
  datatype InsertBooking = InsertBooking(
    userId: int, serviceType: string, categoryId: Option<int>,
    estimatedWeight: Option<Hundredths>, scheduledDate: Option<Timestamp>,
    scheduledTime: Option<string>, address: Option<string>, phone: Option<string>,
    status: Option<string>, notes: Option<string>)

  function BookingOf(id: int, ins: InsertBooking, createdAt: Option<Timestamp>): (b: Booking)
    ensures b.id == id && b.createdAt == createdAt
  {
    Booking(id, ins.userId, ins.serviceType, ins.categoryId, ins.estimatedWeight,
            ins.scheduledDate, ins.scheduledTime, ins.address, ins.phone,
            ins.status, ins.notes, createdAt)
  }

  function InsertOfBooking(b: Booking): (ins: InsertBooking)
    ensures BookingOf(b.id, ins, b.createdAt) == b
  {
    InsertBooking(b.userId, b.serviceType, b.categoryId, b.estimatedWeight,
                  b.scheduledDate, b.scheduledTime, b.address, b.phone,
                  b.status, b.notes)
  }

  const PendingStatus := "pending"

  /** The status values the schema documents. */
  predicate IsBookingStatus(s: string) {
    s == "pending" || s == "confirmed" || s == "completed" || s == "cancelled"
  }

  /** Column defaults of the bookings table: status "pending". */
  function BookingDefaults(ins: InsertBooking): (r: InsertBooking)
    ensures r.status.Some?
    ensures ins.status.Some? ==> r.status == ins.status
    ensures ins.status.None? ==> r.status == Some(PendingStatus) && IsBookingStatus(r.status.value)
    ensures r.(status := ins.status) == ins
  {
    ins.(status := Some(OrDefault(ins.status, PendingStatus)))
  }

  // ---- dealers -------------------------------------------------------------

  datatype Dealer = Dealer(
    id: int, name: string, address: string, phone: string, email: Option<string>,
    city: string, rating: Option<Hundredths>, isActive: Option<bool>,
    specialties: Option<string>)

  /** The dealer insert schema omits only `id`. */
  datatype InsertDealer = InsertDealer(
    name: string, address: string, phone: string, email: Option<string>,
    city: string, rating: Option<Hundredths>, isActive: Option<bool>,
    specialties: Option<string>)

  function DealerOf(id: int, ins: InsertDealer): (d: Dealer)
    ensures d.id == id
  {
    Dealer(id, ins.name, ins.address, ins.phone, ins.email, ins.city,
           ins.rating, ins.isActive, ins.specialties)
  }

  function InsertOfDealer(d: Dealer): (ins: InsertDealer)
    ensures DealerOf(d.id, ins) == d
  {
    InsertDealer(d.name, d.address, d.phone, d.email, d.city,
                 d.rating, d.isActive, d.specialties)
  }

  /** Column defaults of the dealers table: active. */
  function DealerDefaults(ins: InsertDealer): (r: InsertDealer)
    ensures r.isActive == if ins.isActive.Some? then ins.isActive else Some(true)
    ensures r.(isActive := ins.isActive) == ins
  {
    ins.(isActive := Some(OrDefault(ins.isActive, true)))
  }

  // ---- products ------------------------------------------------------------

  datatype Product = Product(
    id: int, sellerId: int, title: string, description: Option<string>,
    price: Cents, category: string, condition: string, images: Option<string>,
    location: Option<string>, isAvailable: Option<bool>, isRecycled: Option<bool>,
    createdAt: Option<Timestamp>)

  /** The product insert schema omits `id` and `createdAt`. */
  datatype InsertProduct = InsertProduct(
    sellerId: int, title: string, description: Option<string>,
    price: Cents, category: string, condition: string, images: Option<string>,
    location: Option<string>, isAvailable: Option<bool>, isRecycled: Option<bool>)

  function ProductOf(id: int, ins: InsertProduct, createdAt: Option<Timestamp>): (p: Product)
    ensures p.id == id && p.createdAt == createdAt
  {
    Product(id, ins.sellerId, ins.title, ins.description, ins.price, ins.category,
            ins.condition, ins.images, ins.location, ins.isAvailable, ins.isRecycled,
            createdAt)
  }

  function InsertOfProduct(p: Product): (ins: InsertProduct)
    ensures ProductOf(p.id, ins, p.createdAt) == p
  {
    InsertProduct(p.sellerId, p.title, p.description, p.price, p.category,
                  p.condition, p.images, p.location, p.isAvailable, p.isRecycled)
  }

  /** The product conditions the schema documents. */
  predicate IsProductCondition(s: string) {
    s == "new" || s == "like-new" || s == "good" || s == "fair" || s == "poor"
  }

  /** Column defaults of the products table: available, not recycled. */
  function ProductDefaults(ins: InsertProduct): (r: InsertProduct)
    ensures r.isAvailable == if ins.isAvailable.Some? then ins.isAvailable else Some(true)
    ensures r.isRecycled == if ins.isRecycled.Some? then ins.isRecycled else Some(false)
    ensures r.(isAvailable := ins.isAvailable, isRecycled := ins.isRecycled) == ins
  {
    ins.(isAvailable := Some(OrDefault(ins.isAvailable, true)),
         isRecycled := Some(OrDefault(ins.isRecycled, false)))
  }

  // ---- cart items ----------------------------------------------------------

  datatype CartItem = CartItem(
    id: int, userId: int, productId: int, quantity: Option<int>,
    addedAt: Option<Timestamp>)

  /** The cart item insert schema omits `id` and `addedAt`. */
  datatype InsertCartItem = InsertCartItem(
    userId: int, productId: int, quantity: Option<int>)

  function CartItemOf(id: int, ins: InsertCartItem, addedAt: Option<Timestamp>): (c: CartItem)
    ensures c.id == id && c.addedAt == addedAt
  {
    CartItem(id, ins.userId, ins.productId, ins.quantity, addedAt)
  }

  function InsertOfCartItem(c: CartItem): (ins: InsertCartItem)
    ensures CartItemOf(c.id, ins, c.addedAt) == c
  {
    InsertCartItem(c.userId, c.productId, c.quantity)
  }

  /** Column defaults of the cart_items table: quantity 1. */
  function CartItemDefaults(ins: InsertCartItem): (r: InsertCartItem)
    ensures r.quantity == if ins.quantity.Some? then ins.quantity else Some(1)
    ensures r.(quantity := ins.quantity) == ins
  {
    ins.(quantity := Some(OrDefault(ins.quantity, 1)))
  }

  // ---- notifications -------------------------------------------------------

  /** `type` is a Dafny keyword, so the notification's `type` column is
      called `kind` here. */
  datatype Notification = Notification(
    id: int, userId: int, title: string, message: string, kind: string,
    isRead: Option<bool>, createdAt: Option<Timestamp>)

  /** The notification insert schema omits `id` and `createdAt`. */
  datatype InsertNotification = InsertNotification(
    userId: int, title: string, message: string, kind: string,
    isRead: Option<bool>)

  function NotificationOf(id: int, ins: InsertNotification, createdAt: Option<Timestamp>): (n: Notification)
    ensures n.id == id && n.createdAt == createdAt
  {
    Notification(id, ins.userId, ins.title, ins.message, ins.kind, ins.isRead, createdAt)
  }

  function InsertOfNotification(n: Notification): (ins: InsertNotification)
    ensures NotificationOf(n.id, ins, n.createdAt) == n
  {
    InsertNotification(n.userId, n.title, n.message, n.kind, n.isRead)
  }

  /** Column defaults of the notifications table: unread. */
  function NotificationDefaults(ins: InsertNotification): (r: InsertNotification)
    ensures r.isRead == if ins.isRead.Some? then ins.isRead else Some(false)
    ensures r.(isRead := ins.isRead) == ins
  {
    ins.(isRead := Some(OrDefault(ins.isRead, false)))
  }

  // ---- helpers -------------------------------------------------------------

  function OrDefault<T>(o: Option<T>, d: T): T {
    match o
    case Some(v) => v
    case None => d
  }

  /** Filling in column defaults a second time changes nothing, and a
      supplied value is never replaced. */
  lemma DefaultsIdempotent(u: InsertUser, c: InsertCategory, b: InsertBooking, d: InsertDealer,
                           p: InsertProduct, ci: InsertCartItem, n: InsertNotification)
    ensures UserDefaults(UserDefaults(u)) == UserDefaults(u)
    ensures CategoryDefaults(CategoryDefaults(c)) == CategoryDefaults(c)
    ensures BookingDefaults(BookingDefaults(b)) == BookingDefaults(b)
    ensures DealerDefaults(DealerDefaults(d)) == DealerDefaults(d)
    ensures ProductDefaults(ProductDefaults(p)) == ProductDefaults(p)
    ensures CartItemDefaults(CartItemDefaults(ci)) == CartItemDefaults(ci)
    ensures NotificationDefaults(NotificationDefaults(n)) == NotificationDefaults(n)
    ensures b.status.Some? ==> BookingDefaults(b) == b
  {
  }

  /** Creating from an insert and erasing again gives back the insert. */
  lemma InsertRoundTrips(id: int, t: Option<Timestamp>,
                         u: InsertUser, c: InsertCategory, b: InsertBooking, d: InsertDealer,
                         p: InsertProduct, ci: InsertCartItem, n: InsertNotification)
    ensures InsertOfUser(UserOf(id, u, t)) == u
    ensures InsertOfCategory(CategoryOf(id, c)) == c
    ensures InsertOfBooking(BookingOf(id, b, t)) == b
    ensures InsertOfDealer(DealerOf(id, d)) == d
    ensures InsertOfProduct(ProductOf(id, p, t)) == p
    ensures InsertOfCartItem(CartItemOf(id, ci, t)) == ci
    ensures InsertOfNotification(NotificationOf(id, n, t)) == n
  {
  }
}
