/** The in-memory implementation of the storage contract: one insertion-
    ordered map per entity and a single identity counter shared by all of
    them. Every lookup returns the absence value for an unknown id; every
    list is a linear scan of one map's values in insertion order. */
module Storage {
  import opened Wrappers
  import opened Schema
  import opened OrderedMaps
  import Seqs

  /** The whole state of a store, so that a mutator can say in one line
      which parts change. */
  datatype StoreState = StoreState(
    users: OrderedMap<User>, categories: OrderedMap<Category>,
    bookings: OrderedMap<Booking>, dealers: OrderedMap<Dealer>,
    products: OrderedMap<Product>, cartItems: OrderedMap<CartItem>,
    notifications: OrderedMap<Notification>, currentId: int)

  /** Each record is stored under its own id, and every id is below `bound`. */
  ghost predicate Keyed<V>(m: OrderedMap<V>, id: V -> int, bound: int) {
    Valid(m) && forall k :: k in m.rows ==> id(m.rows[k]) == k && k < bound
  }

  /** No id of any kind reaches `bound`. */
  ghost predicate IdsBelow(s: StoreState, bound: int) {
    && (forall k :: k in s.users.rows ==> k < bound)
    && (forall k :: k in s.categories.rows ==> k < bound)
    && (forall k :: k in s.bookings.rows ==> k < bound)
    && (forall k :: k in s.dealers.rows ==> k < bound)
    && (forall k :: k in s.products.rows ==> k < bound)
    && (forall k :: k in s.cartItems.rows ==> k < bound)
    && (forall k :: k in s.notifications.rows ==> k < bound)
  }

  // ---- per-operation rules, stated on values -----------------------------

  /** `updateUser`'s partial record, restricted to the non-id columns (a
      nullable column takes an Option of its Option). */
  datatype UserPatch = UserPatch(
    username: Option<string>, email: Option<string>, password: Option<string>,
    firstName: Option<string>, lastName: Option<string>,
    phone: Option<Option<string>>, address: Option<Option<string>>,
    city: Option<Option<string>>, isActive: Option<Option<bool>>,
    createdAt: Option<Option<Timestamp>>)

  const NoChanges := UserPatch(None, None, None, None, None, None, None, None, None, None)

  /** `{ ...user, ...updates }`: supplied columns win, the id never changes. */
  function ApplyUserPatch(u: User, p: UserPatch): (r: User)
    ensures r.id == u.id
    ensures r.username == OrDefault(p.username, u.username)
    ensures r.email == OrDefault(p.email, u.email)
    ensures r.password == OrDefault(p.password, u.password)
    ensures r.firstName == OrDefault(p.firstName, u.firstName)
    ensures r.lastName == OrDefault(p.lastName, u.lastName)
    ensures r.phone == OrDefault(p.phone, u.phone)
    ensures r.address == OrDefault(p.address, u.address)
    ensures r.city == OrDefault(p.city, u.city)
    ensures r.isActive == OrDefault(p.isActive, u.isActive)
    ensures r.createdAt == OrDefault(p.createdAt, u.createdAt)
    ensures p == NoChanges ==> r == u
  {
    User(u.id,
         OrDefault(p.username, u.username), OrDefault(p.email, u.email),
         OrDefault(p.password, u.password), OrDefault(p.firstName, u.firstName),
         OrDefault(p.lastName, u.lastName), OrDefault(p.phone, u.phone),
         OrDefault(p.address, u.address), OrDefault(p.city, u.city),
         OrDefault(p.isActive, u.isActive), OrDefault(p.createdAt, u.createdAt))
  }

  /** Applying the same partial record twice is applying it once. */
  lemma ApplyUserPatchIdempotent(u: User, p: UserPatch)
    ensures ApplyUserPatch(ApplyUserPatch(u, p), p) == ApplyUserPatch(u, p)
  {
  }

  /** `!notification.isRead`: a null read flag counts as unread. */
  predicate IsUnreadFor(n: Notification, userId: int) {
    n.userId == userId && n.isRead != Some(true)
  }

  function MarkRead(n: Notification): (r: Notification)
    ensures r.isRead == Some(true)
    ensures r.(isRead := n.isRead) == n
    ensures r.id == n.id && r.userId == n.userId
  {
    n.(isRead := Some(true))
  }

  /** The notifications after marking all of `userId`'s as read: keys and
      order unchanged, that user's records read, everyone else's untouched. */
  function MarkAllRead(m: OrderedMap<Notification>, userId: int): (r: OrderedMap<Notification>)
    requires Valid(m)
    ensures Valid(r) && r.keys == m.keys
    ensures forall k :: k in r.rows <==> k in m.rows
    ensures forall k :: k in m.rows ==>
      r.rows[k] == if m.rows[k].userId == userId then MarkRead(m.rows[k]) else m.rows[k]
    ensures forall k :: k in r.rows ==> !IsUnreadFor(r.rows[k], userId)
  {
    OrderedMap(m.keys, map k | k in m.rows :: if m.rows[k].userId == userId then MarkRead(m.rows[k]) else m.rows[k])
  }

  /** The ids of the cart items that belong to `userId`. */
  ghost function CartKeysOf(m: OrderedMap<CartItem>, userId: int): (ks: set<int>)
    ensures forall k :: k in ks <==> k in m.rows && m.rows[k].userId == userId
  {
    set k | k in m.rows && m.rows[k].userId == userId
  }

  /** The cart after clearing `userId`'s items. */
  ghost function ClearedCart(m: OrderedMap<CartItem>, userId: int): (r: OrderedMap<CartItem>)
    requires Valid(m)
    ensures Valid(r)
    ensures forall k :: k in r.rows <==> k in m.rows && m.rows[k].userId != userId
    ensures forall k :: k in r.rows ==> r.rows[k] == m.rows[k]
    ensures Seqs.IsSubsequence(r.keys, m.keys)
  {
    RemoveKeys(m, CartKeysOf(m, userId))
  }

  /** Clearing one user's cart leaves every other user's cart as it was, in
      the same order. */
  lemma ClearedCartKeepsOthers(m: OrderedMap<CartItem>, userId: int, other: int)
    requires Valid(m) && forall k :: k in m.rows ==> m.rows[k].id == k
    requires other != userId
    ensures Seqs.Filter(Values(ClearedCart(m, userId)), (c: CartItem) => c.userId == other)
         == Seqs.Filter(Values(m), (c: CartItem) => c.userId == other)
  {
    var gone := CartKeysOf(m, userId);
    var keep := (c: CartItem) => c.id !in gone;
    ValuesRemoveKeys(m, gone, (c: CartItem) => c.id, keep);
    var vs := Values(m);
    Seqs.FilterFilter(vs, keep, (c: CartItem) => c.userId == other,
                      (c: CartItem) => c.id !in gone && c.userId == other);
    forall i | 0 <= i < |vs|
      ensures (vs[i].id !in gone && vs[i].userId == other) == (vs[i].userId == other)
    {
      assert vs[i] == m.rows[m.keys[i]];
    }
    Seqs.FilterCongruence(vs, (c: CartItem) => c.id !in gone && c.userId == other,
                          (c: CartItem) => c.userId == other);
  }

  /** Marking one user's notifications leaves every other user's list as it
      was. */
  lemma MarkAllReadKeepsOthers(m: OrderedMap<Notification>, userId: int, other: int)
    requires Valid(m)
    requires other != userId
    ensures Seqs.Filter(Values(MarkAllRead(m, userId)), (n: Notification) => n.userId == other)
         == Seqs.Filter(Values(m), (n: Notification) => n.userId == other)
  {
    var r := MarkAllRead(m, userId);
    var vr, vm := Values(r), Values(m);
    forall i | 0 <= i < |vr|
      ensures vr[i].userId == other <==> vm[i].userId == other
      ensures vr[i].userId == other ==> vr[i] == vm[i]
    {
      var k := m.keys[i];
      assert vr[i] == r.rows[k] && vm[i] == m.rows[k];
      if m.rows[k].userId == userId {
        assert vr[i] == MarkRead(vm[i]) && vr[i].userId == userId;
      }
    }
    assert |vr| == |vm|;
    Seqs.FilterPointwise(vr, vm, (n: Notification) => n.userId == other);
  }

  /** Usernames and emails are each unique across users (the unique
      constraints of the users table; the in-memory store does not check them). */
  ghost predicate UniqueLogins(users: OrderedMap<User>) {
    forall j, k :: j in users.rows && k in users.rows && j != k ==>
      users.rows[j].username != users.rows[k].username && users.rows[j].email != users.rows[k].email
  }

  /** Storing a user under a fresh id keeps the logins unique exactly when
      its username and email are both unused. */
  lemma StoreUserUnique(users: OrderedMap<User>, u: User)
    requires Valid(users) && UniqueLogins(users) && u.id !in users.rows
    ensures UniqueLogins(Put(users, u.id, u)) <==>
            forall k :: k in users.rows ==> users.rows[k].username != u.username && users.rows[k].email != u.email
  {
    var r := Put(users, u.id, u);
    if UniqueLogins(r) {
      forall k | k in users.rows
        ensures users.rows[k].username != u.username && users.rows[k].email != u.email
      {
        assert k in r.rows && u.id in r.rows && k != u.id;
        assert r.rows[k] == users.rows[k] && r.rows[u.id] == u;
      }
    }
  }

  /** With unique emails, a lookup by email finds the one user with it. */
  lemma UniqueEmailLookup(users: OrderedMap<User>, k: int)
    requires Valid(users) && UniqueLogins(users) && k in users.rows
    ensures Seqs.Find(Values(users), (u: User) => u.email == users.rows[k].email) == Some(users.rows[k])
  {
    var e := users.rows[k].email;
    var r := Seqs.Find(Values(users), (u: User) => u.email == e);
    Listed(users, k);
    var j := KeyOf(users, r.value);
    assert users.rows[j].email == e;
  }

  /** A value listed by a keyed map is stored under its own id. */
  lemma KeyedValue<V(!new)>(m: OrderedMap<V>, id: V -> int, bound: int, v: V)
    requires Keyed(m, id, bound) && v in Values(m)
    ensures id(v) in m.rows && m.rows[id(v)] == v
  {
    var k := KeyOf(m, v);
  }

  lemma KeyOf<V(!new)>(m: OrderedMap<V>, v: V) returns (k: int)
    requires Valid(m) && v in Values(m)
    ensures k in m.rows && m.rows[k] == v
  {
    assert Holds(m, v);
    k :| k in m.rows && m.rows[k] == v;
  }

  /** What a filtering scan of a keyed map returns: records stored under
      their own ids that pass the filter, and every such record. */
  lemma ScanFacts<V(!new)>(m: OrderedMap<V>, id: V -> int, bound: int, p: V -> bool, items: seq<V>)
    requires Keyed(m, id, bound)
    requires items == Seqs.Filter(Values(m), p)
    ensures forall j :: 0 <= j < |items| ==>
      id(items[j]) in m.rows && m.rows[id(items[j])] == items[j] && p(items[j])
    ensures forall k :: k in m.rows && p(m.rows[k]) ==> m.rows[k] in items
  {
    forall j | 0 <= j < |items|
      ensures id(items[j]) in m.rows && m.rows[id(items[j])] == items[j]
    {
      KeyedValue(m, id, bound, items[j]);
    }
    forall k | k in m.rows && p(m.rows[k]) ensures m.rows[k] in items {
      Listed(m, k);
    }
  }

  lemma RemoveKeysKeyed<V>(m: OrderedMap<V>, ks: set<int>, id: V -> int, bound: int)
    requires Keyed(m, id, bound)
    ensures Keyed(RemoveKeys(m, ks), id, bound)
  {
  }

  /** After clearing, the user has no cart items left. */
  lemma ClearedCartEmpty(m: OrderedMap<CartItem>, userId: int)
    requires Valid(m)
    ensures Seqs.Filter(Values(ClearedCart(m, userId)), (c: CartItem) => c.userId == userId) == []
  {
  }

  /** The notifications with the records under `ks` marked read. */
  ghost function MarkKeys(m: OrderedMap<Notification>, ks: set<int>): OrderedMap<Notification> {
    OrderedMap(m.keys, map k | k in m.rows :: if k in ks then MarkRead(m.rows[k]) else m.rows[k])
  }

  lemma MarkKeysStep(m: OrderedMap<Notification>, ks: set<int>, k: int)
    requires Valid(m) && k in m.rows
    ensures Valid(MarkKeys(m, ks))
    ensures Put(MarkKeys(m, ks), k, MarkRead(m.rows[k])) == MarkKeys(m, ks + {k})
  {
    var a, b := Put(MarkKeys(m, ks), k, MarkRead(m.rows[k])), MarkKeys(m, ks + {k});
    assert a.rows.Keys == b.rows.Keys;
  }

  lemma MarkKeysNone(m: OrderedMap<Notification>)
    ensures MarkKeys(m, {}) == m
  {
    assert MarkKeys(m, {}).rows == m.rows;
  }

  lemma MarkKeysAll(m: OrderedMap<Notification>, userId: int, ks: set<int>)
    requires Valid(m)
    requires forall k :: k in m.rows ==> (k in ks <==> m.rows[k].userId == userId)
    ensures MarkKeys(m, ks) == MarkAllRead(m, userId)
  {
    var a, b := MarkKeys(m, ks), MarkAllRead(m, userId);
    assert a.rows.Keys == b.rows.Keys;
    forall k | k in a.rows ensures a.rows[k] == b.rows[k] {
    }
    assert a.rows == b.rows;
  }

  lemma MarkAllReadKeyed(m: OrderedMap<Notification>, userId: int, bound: int)
    requires Keyed(m, (n: Notification) => n.id, bound)
    ensures Keyed(MarkAllRead(m, userId), (n: Notification) => n.id, bound)
  {
    var r := MarkAllRead(m, userId);
    forall k | k in r.rows ensures r.rows[k].id == k {
      assert m.rows[k].id == k;
    }
  }

  /** After marking all as read, the user has no unread notification left. */
  lemma MarkAllReadNoUnread(m: OrderedMap<Notification>, userId: int)
    requires Valid(m)
    ensures Seqs.Filter(Values(MarkAllRead(m, userId)), (n: Notification) => IsUnreadFor(n, userId)) == []
  {
  }

  /** Deletes, one by one, the items a scan of `m` for `userId` returns:
      the loop of `clearCart`. */
  method DeleteUserItems(m: OrderedMap<CartItem>, userId: int, bound: int) returns (r: OrderedMap<CartItem>)
    requires Keyed(m, (c: CartItem) => c.id, bound)
    ensures r == ClearedCart(m, userId)
  {
    var items := Seqs.Filter(Values(m), (c: CartItem) => c.userId == userId);
    ScanFacts(m, (c: CartItem) => c.id, bound, (c: CartItem) => c.userId == userId, items);
    r := m;
    ghost var done: set<int> := {};
    for i := 0 to |items|
      invariant forall j :: 0 <= j < i ==> items[j].id in done
      invariant forall k :: k in done ==> k in m.rows && m.rows[k].userId == userId
      invariant r == RemoveKeys(m, done)
    {
      r := DeleteOne(m, done, r, items[i].id);
      ghost var before := done;
      done := done + {items[i].id};
      forall j | 0 <= j < i + 1 ensures items[j].id in done {
        if j < i {
          assert items[j].id in before;
        }
      }
    }
    DeletedAllScanned(m, userId, bound, items, done);
  }

  /** One step of the loop: deleting the item stored under `k`. */
  method DeleteOne(m: OrderedMap<CartItem>, ghost done: set<int>, r: OrderedMap<CartItem>, k: int)
    returns (r': OrderedMap<CartItem>)
    requires Valid(m) && r == RemoveKeys(m, done)
    ensures r' == RemoveKeys(m, done + {k})
  {
    RemoveKeysTwice(m, done, {k});
    r' := Delete(r, k);
  }

  /** Once every scanned item is deleted, and only those, the cart is the
      one `ClearedCart` describes. */
  lemma DeletedAllScanned(m: OrderedMap<CartItem>, userId: int, bound: int, items: seq<CartItem>, done: set<int>)
    requires Keyed(m, (c: CartItem) => c.id, bound)
    requires items == Seqs.Filter(Values(m), (c: CartItem) => c.userId == userId)
    requires forall j :: 0 <= j < |items| ==> items[j].id in done
    requires forall k :: k in done ==> k in m.rows && m.rows[k].userId == userId
    ensures RemoveKeys(m, done) == ClearedCart(m, userId)
  {
    forall k | k in m.rows && m.rows[k].userId == userId ensures k in done {
      Listed(m, k);
      var j :| 0 <= j < |items| && items[j] == m.rows[k];
    }
    ghost var ks := CartKeysOf(m, userId);
    assert forall k :: k in ks <==> k in done;
    assert done == ks;
  }

  /** Stores, one by one, a read copy of each notification a scan of `m`
      for `userId` returns: the loop of `markAllNotificationsAsRead`. */
  method MarkUserNotifications(m: OrderedMap<Notification>, userId: int, bound: int) returns (r: OrderedMap<Notification>)
    requires Keyed(m, (n: Notification) => n.id, bound)
    ensures r == MarkAllRead(m, userId)
  {
    var items := Seqs.Filter(Values(m), (n: Notification) => n.userId == userId);
    ScanFacts(m, (n: Notification) => n.id, bound, (n: Notification) => n.userId == userId, items);
    r := m;
    ghost var done: set<int> := {};
    MarkKeysNone(m);
    for i := 0 to |items|
      invariant forall j :: 0 <= j < i ==> items[j].id in done
      invariant forall k :: k in done ==> k in m.rows && m.rows[k].userId == userId
      invariant r == MarkKeys(m, done)
    {
      var n := items[i];
      r := StoreRead(m, done, r, n);
      ghost var before := done;
      done := done + {n.id};
      forall j | 0 <= j < i + 1 ensures items[j].id in done {
        if j < i {
          assert items[j].id in before;
        }
      }
    }
    MarkedAllScanned(m, userId, bound, items, done);
  }

  /** One step of the loop: storing a read copy of the stored record `n`. */
  method StoreRead(m: OrderedMap<Notification>, ghost done: set<int>, r: OrderedMap<Notification>, n: Notification)
    returns (r': OrderedMap<Notification>)
    requires Valid(m) && n.id in m.rows && m.rows[n.id] == n
    requires r == MarkKeys(m, done)
    ensures r' == MarkKeys(m, done + {n.id})
  {
    MarkKeysStep(m, done, n.id);
    r' := Put(r, n.id, MarkRead(n));
  }

  /** Once every scanned notification is marked, and only those, the map is
      the one `MarkAllRead` describes. */
  lemma MarkedAllScanned(m: OrderedMap<Notification>, userId: int, bound: int, items: seq<Notification>, done: set<int>)
    requires Keyed(m, (n: Notification) => n.id, bound)
    requires items == Seqs.Filter(Values(m), (n: Notification) => n.userId == userId)
    requires forall j :: 0 <= j < |items| ==> items[j].id in done
    requires forall k :: k in done ==> k in m.rows && m.rows[k].userId == userId
    ensures MarkKeys(m, done) == MarkAllRead(m, userId)
  {
    forall k | k in m.rows && m.rows[k].userId == userId ensures k in done {
      Listed(m, k);
      var j :| 0 <= j < |items| && items[j] == m.rows[k];
    }
    MarkKeysAll(m, userId, done);
  }

  /** The map that inserting `seeds` one by one, each under its position
      counted from 1, produces from an empty map. */
  ghost function FromSeeds<V>(seeds: seq<V>): OrderedMap<V> {
    OrderedMap(seq(|seeds|, j => j + 1), map k | 1 <= k <= |seeds| :: SeedAt(seeds, k))
  }

  function SeedAt<V>(seeds: seq<V>, k: int): V
    requires 1 <= k <= |seeds|
  {
    seeds[k - 1]
  }

  lemma FromSeedsFacts<V>(seeds: seq<V>)
    ensures var m := FromSeeds(seeds);
      && Valid(m) && |m.keys| == |seeds|
      && (forall j :: 0 <= j < |seeds| ==> m.keys[j] == j + 1)
      && (forall k :: k in m.rows <==> 1 <= k <= |seeds|)
      && (forall k :: k in m.rows ==> m.rows[k] == seeds[k - 1])
  {
    var m := FromSeeds(seeds);
    forall k | 1 <= k <= |seeds| ensures k in m.keys {
      assert m.keys[k - 1] == k;
    }
  }

  lemma FromSeedsSnoc<V>(seeds: seq<V>, x: V)
    ensures Valid(FromSeeds(seeds))
    ensures FromSeeds(seeds + [x]) == Put(FromSeeds(seeds), |seeds| + 1, x)
  {
    FromSeedsFacts(seeds);
    FromSeedsFacts(seeds + [x]);
    var a, b := FromSeeds(seeds + [x]), Put(FromSeeds(seeds), |seeds| + 1, x);
    assert a.keys == b.keys;
    forall k | k in a.rows ensures k in b.rows && a.rows[k] == b.rows[k] {
      if k <= |seeds| {
        assert (seeds + [x])[k - 1] == seeds[k - 1];
      }
    }
    assert a.rows == b.rows;
  }

  /** The map lists exactly the seeds, in order, under keys 1..|seeds|. */
  lemma FromSeedsLists<V(!new)>(seeds: seq<V>)
    ensures Valid(FromSeeds(seeds)) && Values(FromSeeds(seeds)) == seeds
    ensures forall k :: k in FromSeeds(seeds).rows <==> 1 <= k <= |seeds|
  {
    var m := FromSeeds(seeds);
    FromSeedsFacts(seeds);
    var vs := Values(m);
    forall j | 0 <= j < |seeds| ensures vs[j] == seeds[j] {
      assert m.keys[j] == j + 1;
    }
  }

  /** Seeds numbered 1, 2, 3, ... give a map with every record under its id. */
  lemma FromSeedsKeyed<V>(seeds: seq<V>, id: V -> int, bound: int)
    requires forall j :: 0 <= j < |seeds| ==> id(seeds[j]) == j + 1
    requires |seeds| < bound
    ensures Keyed(FromSeeds(seeds), id, bound)
  {
    var m := FromSeeds(seeds);
    FromSeedsFacts(seeds);
    forall k | k in m.rows ensures id(m.rows[k]) == k {
      assert m.rows[k] == seeds[k - 1];
    }
  }

  /** `seeds.forEach(x => map.set(x.id, x))` on an empty map, for seeds
      numbered 1, 2, 3, ... */
  method InsertAll<V>(m0: OrderedMap<V>, seeds: seq<V>, id: V -> int) returns (m: OrderedMap<V>)
    requires m0 == Empty()
    requires forall j :: 0 <= j < |seeds| ==> id(seeds[j]) == j + 1
    ensures m == FromSeeds(seeds)
  {
    m := m0;
    assert FromSeeds(seeds[..0]).rows == map[];
    for i := 0 to |seeds|
      invariant m == FromSeeds(seeds[..i])
    {
      FromSeedsSnoc(seeds[..i], seeds[i]);
      assert seeds[..i + 1] == seeds[..i] + [seeds[i]];
      m := Put(m, id(seeds[i]), seeds[i]);
    }
    assert seeds[..|seeds|] == seeds;
  }

  // ---- the store --------------------------------------------------------

  /** The state of a fresh store: the seeded categories, dealers and products
      and nothing else, with the counter at 100. */
  ghost function InitialState(now: Timestamp): StoreState {
    StoreState(Empty(), FromSeeds(SeedCategories()), Empty(), FromSeeds(SeedDealers()),
               FromSeeds(SeedProducts(now)), Empty(), Empty(), 100)
  }

  /** Every seeded id is below the first one handed out. */
  lemma InitialStateValid(now: Timestamp)
    ensures var s := InitialState(now);
      && Keyed(s.users, (u: User) => u.id, s.currentId)
      && Keyed(s.categories, (c: Category) => c.id, s.currentId)
      && Keyed(s.bookings, (b: Booking) => b.id, s.currentId)
      && Keyed(s.dealers, (d: Dealer) => d.id, s.currentId)
      && Keyed(s.products, (p: Product) => p.id, s.currentId)
      && Keyed(s.cartItems, (c: CartItem) => c.id, s.currentId)
      && Keyed(s.notifications, (n: Notification) => n.id, s.currentId)
  {
    FromSeedsKeyed(SeedCategories(), (c: Category) => c.id, 100);
    FromSeedsKeyed(SeedDealers(), (d: Dealer) => d.id, 100);
    FromSeedsKeyed(SeedProducts(now), (p: Product) => p.id, 100);
  }

  /** A fresh store lists the seeds in order: categories 1..15, dealers 1..3
      and products 1..4, with no users, bookings, cart items or notifications. */
  lemma InitialStateContents(now: Timestamp)
    ensures var s := InitialState(now);
      && Valid(s.categories) && Values(s.categories) == SeedCategories()
      && Valid(s.dealers) && Values(s.dealers) == SeedDealers()
      && Valid(s.products) && Values(s.products) == SeedProducts(now)
      && (forall k :: k in s.categories.rows <==> 1 <= k <= 15)
      && (forall k :: k in s.dealers.rows <==> 1 <= k <= 3)
      && (forall k :: k in s.products.rows <==> 1 <= k <= 4)
      && s.users.rows == map[] && s.bookings.rows == map[]
      && s.cartItems.rows == map[] && s.notifications.rows == map[]
  {
    FromSeedsLists(SeedCategories());
    FromSeedsLists(SeedDealers());
    FromSeedsLists(SeedProducts(now));
  }

  class MemStorage {
    var users: OrderedMap<User>
    var categories: OrderedMap<Category>
    var bookings: OrderedMap<Booking>
    var dealers: OrderedMap<Dealer>
    var products: OrderedMap<Product>
    var cartItems: OrderedMap<CartItem>
    var notifications: OrderedMap<Notification>
    var currentId: int

    ghost function State(): StoreState
      reads this
    {
      StoreState(users, categories, bookings, dealers, products, cartItems, notifications, currentId)
    }

    /** Every record sits under its own id and every id is below the next one
        the counter hands out. */
    ghost predicate Valid()
      reads this
    {
      && Keyed(users, (u: User) => u.id, currentId)
      && Keyed(categories, (c: Category) => c.id, currentId)
      && Keyed(bookings, (b: Booking) => b.id, currentId)
      && Keyed(dealers, (d: Dealer) => d.id, currentId)
      && Keyed(products, (p: Product) => p.id, currentId)
      && Keyed(cartItems, (c: CartItem) => c.id, currentId)
      && Keyed(notifications, (n: Notification) => n.id, currentId)
    }

    lemma ValidIdsBelow()
      requires Valid()
      ensures IdsBelow(State(), currentId)
    {
    }

    /** A fresh store holds exactly the baseline data. */
    constructor (now: Timestamp)
      ensures Valid()
      ensures State() == InitialState(now)
    {
      users, categories, bookings := Empty(), Empty(), Empty();
      dealers, products, cartItems, notifications := Empty(), Empty(), Empty(), Empty();
      currentId := 1;
      new;
      InitializeData(now);
    }

    method InitializeData(now: Timestamp)
      requires State() == InitialState(now).(categories := Empty(), dealers := Empty(),
                                              products := Empty(), currentId := currentId)
      modifies this
      ensures Valid()
      ensures State() == InitialState(now)
    {
      categories := InsertAll(categories, SeedCategories(), (c: Category) => c.id);
      dealers := InsertAll(dealers, SeedDealers(), (d: Dealer) => d.id);
      products := InsertAll(products, SeedProducts(now), (p: Product) => p.id);
      currentId := 100;
      InitialStateValid(now);
    }

    // ---- users ----

    function GetUser(id: int): (r: Option<User>)
      reads this
      requires Valid()
      ensures r.Some? <==> id in users.rows
      ensures r.Some? ==> r.value == users.rows[id] && r.value.id == id
    {
      Get(users, id)
    }

    /** The first user, in insertion order, with this email. */
    function GetUserByEmail(email: string): (r: Option<User>)
      reads this
      requires Valid()
      ensures r.None? <==> forall k :: k in users.rows ==> users.rows[k].email != email
      ensures r.Some? ==> r.value.email == email && GetUser(r.value.id) == r
      ensures r.Some? ==> exists i ::
        && 0 <= i < |Values(users)| && Values(users)[i] == r.value
        && forall j :: 0 <= j < i ==> Values(users)[j].email != email
    {
      var r := Seqs.Find(Values(users), (u: User) => u.email == email);
      if r.Some? then KeyedValue(users, (u: User) => u.id, currentId, r.value); r else r
    }

    method CreateUser(ins: InsertUser, now: Timestamp) returns (user: User)
      requires Valid()
      modifies this
      ensures Valid()
      ensures user == UserOf(old(currentId), ins.(isActive := Some(true)), Some(now))
      ensures IdsBelow(old(State()), user.id)
      ensures State() == old(State()).(users := Put(old(users), user.id, user), currentId := old(currentId) + 1)
      ensures GetUser(user.id) == Some(user)
    {
      var id := currentId;
      currentId := currentId + 1;
      user := UserOf(id, ins.(isActive := Some(true)), Some(now));
      users := Put(users, id, user);
    }

    method UpdateUser(id: int, updates: UserPatch) returns (r: Option<User>)
      requires Valid()
      modifies this
      ensures Valid()
      ensures id !in old(users).rows ==> r == None && State() == old(State())
      ensures id in old(users).rows ==>
        r == Some(ApplyUserPatch(old(users).rows[id], updates)) &&
        State() == old(State()).(users := Put(old(users), id, r.value))
    {
      var user := Get(users, id);
      if user.None? {
        return None;
      }
      var updated := ApplyUserPatch(user.value, updates);
      users := Put(users, id, updated);
      r := Some(updated);
    }

    // ---- categories ----

    function GetCategories(): (r: seq<Category>)
      reads this
      requires Valid()
      ensures |r| == |categories.rows|
      ensures forall c :: c in r <==> Holds(categories, c)
      ensures |r| == |categories.keys| && forall i :: 0 <= i < |r| ==> r[i] == categories.rows[categories.keys[i]]
    {
      Values(categories)
    }

    function GetCategory(id: int): (r: Option<Category>)
      reads this
      requires Valid()
      ensures r.Some? <==> id in categories.rows
      ensures r.Some? ==> r.value == categories.rows[id] && r.value.id == id
    {
      Get(categories, id)
    }

    /** The first category, in insertion order, with this name. */
    function GetCategoryByName(name: string): (r: Option<Category>)
      reads this
      requires Valid()
      ensures r.None? <==> forall k :: k in categories.rows ==> categories.rows[k].name != name
      ensures r.Some? ==> r.value.name == name && GetCategory(r.value.id) == r
      ensures r.Some? ==> exists i ::
        && 0 <= i < |Values(categories)| && Values(categories)[i] == r.value
        && forall j :: 0 <= j < i ==> Values(categories)[j].name != name
    {
      var r := Seqs.Find(Values(categories), (c: Category) => c.name == name);
      if r.Some? then KeyedValue(categories, (c: Category) => c.id, currentId, r.value); r else r
    }

    method CreateCategory(ins: InsertCategory) returns (category: Category)
      requires Valid()
      modifies this
      ensures Valid()
      ensures category == CategoryOf(old(currentId), ins)
      ensures IdsBelow(old(State()), category.id)
      ensures State() == old(State()).(categories := Put(old(categories), category.id, category),
                                       currentId := old(currentId) + 1)
      ensures GetCategory(category.id) == Some(category)
    {
      var id := currentId;
      currentId := currentId + 1;
      category := CategoryOf(id, ins);
      categories := Put(categories, id, category);
    }

    /** The price is given in cents, so `toFixed(2)` keeps it as it is. */
    method UpdateCategoryPrice(id: int, price: Cents) returns (r: Option<Category>)
      requires Valid()
      modifies this
      ensures Valid()
      ensures id !in old(categories).rows ==> r == None && State() == old(State())
      ensures id in old(categories).rows ==>
        r == Some(old(categories).rows[id].(currentPrice := Some(price))) &&
        State() == old(State()).(categories := Put(old(categories), id, r.value))
    {
      var category := Get(categories, id);
      if category.None? {
        return None;
      }
      var updated := category.value.(currentPrice := Some(price));
      categories := Put(categories, id, updated);
      r := Some(updated);
    }

    // ---- bookings ----

    function GetBookings(): (r: seq<Booking>)
      reads this
      requires Valid()
      ensures |r| == |bookings.rows|
      ensures forall b :: b in r <==> Holds(bookings, b)
      ensures |r| == |bookings.keys| && forall i :: 0 <= i < |r| ==> r[i] == bookings.rows[bookings.keys[i]]
    {
      Values(bookings)
    }

    function GetBookingsByUser(userId: int): (r: seq<Booking>)
      reads this
      requires Valid()
      ensures forall b :: b in r <==> Holds(bookings, b) && b.userId == userId
      ensures Seqs.IsSubsequence(r, Values(bookings))
    {
      Seqs.Filter(Values(bookings), (b: Booking) => b.userId == userId)
    }

    function GetBooking(id: int): (r: Option<Booking>)
      reads this
      requires Valid()
      ensures r.Some? <==> id in bookings.rows
      ensures r.Some? ==> r.value == bookings.rows[id] && r.value.id == id
    {
      Get(bookings, id)
    }

    /** Whatever status the caller supplies, a new booking is "pending". */
    method CreateBooking(ins: InsertBooking, now: Timestamp) returns (booking: Booking)
      requires Valid()
      modifies this
      ensures Valid()
      ensures booking == BookingOf(old(currentId), ins.(status := Some(PendingStatus)), Some(now))
      ensures booking.status == Some("pending") && IsBookingStatus(booking.status.value)
      ensures IdsBelow(old(State()), booking.id)
      ensures State() == old(State()).(bookings := Put(old(bookings), booking.id, booking),
                                       currentId := old(currentId) + 1)
      ensures GetBooking(booking.id) == Some(booking)
    {
      var id := currentId;
      currentId := currentId + 1;
      booking := BookingOf(id, ins.(status := Some(PendingStatus)), Some(now));
      bookings := Put(bookings, id, booking);
    }

    method UpdateBookingStatus(id: int, status: string) returns (r: Option<Booking>)
      requires Valid()
      modifies this
      ensures Valid()
      ensures id !in old(bookings).rows ==> r == None && State() == old(State())
      ensures id in old(bookings).rows ==>
        r == Some(old(bookings).rows[id].(status := Some(status))) &&
        State() == old(State()).(bookings := Put(old(bookings), id, r.value))
    {
      var booking := Get(bookings, id);
      if booking.None? {
        return None;
      }
      var updated := booking.value.(status := Some(status));
      bookings := Put(bookings, id, updated);
      r := Some(updated);
    }

    // ---- dealers ----

    function GetDealers(): (r: seq<Dealer>)
      reads this
      requires Valid()
      ensures |r| == |dealers.rows|
      ensures forall d :: d in r <==> Holds(dealers, d)
      ensures |r| == |dealers.keys| && forall i :: 0 <= i < |r| ==> r[i] == dealers.rows[dealers.keys[i]]
    {
      Values(dealers)
    }

    function GetDealersByCity(city: string): (r: seq<Dealer>)
      reads this
      requires Valid()
      ensures forall d :: d in r <==> Holds(dealers, d) && d.city == city
      ensures Seqs.IsSubsequence(r, Values(dealers))
    {
      Seqs.Filter(Values(dealers), (d: Dealer) => d.city == city)
    }

    function GetDealer(id: int): (r: Option<Dealer>)
      reads this
      requires Valid()
      ensures r.Some? <==> id in dealers.rows
      ensures r.Some? ==> r.value == dealers.rows[id] && r.value.id == id
    {
      Get(dealers, id)
    }

    method CreateDealer(ins: InsertDealer) returns (dealer: Dealer)
      requires Valid()
      modifies this
      ensures Valid()
      ensures dealer == DealerOf(old(currentId), ins)
      ensures IdsBelow(old(State()), dealer.id)
      ensures State() == old(State()).(dealers := Put(old(dealers), dealer.id, dealer),
                                       currentId := old(currentId) + 1)
      ensures GetDealer(dealer.id) == Some(dealer)
    {
      var id := currentId;
      currentId := currentId + 1;
      dealer := DealerOf(id, ins);
      dealers := Put(dealers, id, dealer);
    }

    // ---- products ----

    function GetProducts(): (r: seq<Product>)
      reads this
      requires Valid()
      ensures |r| == |products.rows|
      ensures forall p :: p in r <==> Holds(products, p)
      ensures |r| == |products.keys| && forall i :: 0 <= i < |r| ==> r[i] == products.rows[products.keys[i]]
    {
      Values(products)
    }

    function GetProductsByCategory(category: string): (r: seq<Product>)
      reads this
      requires Valid()
      ensures forall p :: p in r <==> Holds(products, p) && p.category == category
      ensures Seqs.IsSubsequence(r, Values(products))
    {
      Seqs.Filter(Values(products), (p: Product) => p.category == category)
    }

    function GetProductsBySeller(sellerId: int): (r: seq<Product>)
      reads this
      requires Valid()
      ensures forall p :: p in r <==> Holds(products, p) && p.sellerId == sellerId
      ensures Seqs.IsSubsequence(r, Values(products))
    {
      Seqs.Filter(Values(products), (p: Product) => p.sellerId == sellerId)
    }

    function GetProduct(id: int): (r: Option<Product>)
      reads this
      requires Valid()
      ensures r.Some? <==> id in products.rows
      ensures r.Some? ==> r.value == products.rows[id] && r.value.id == id
    {
      Get(products, id)
    }

    /** A new product is available whatever the caller supplies. */
    method CreateProduct(ins: InsertProduct, now: Timestamp) returns (product: Product)
      requires Valid()
      modifies this
      ensures Valid()
      ensures product == ProductOf(old(currentId), ins.(isAvailable := Some(true)), Some(now))
      ensures IdsBelow(old(State()), product.id)
      ensures State() == old(State()).(products := Put(old(products), product.id, product),
                                       currentId := old(currentId) + 1)
      ensures GetProduct(product.id) == Some(product)
    {
      var id := currentId;
      currentId := currentId + 1;
      product := ProductOf(id, ins.(isAvailable := Some(true)), Some(now));
      products := Put(products, id, product);
    }

    method UpdateProductAvailability(id: int, isAvailable: bool) returns (r: Option<Product>)
      requires Valid()
      modifies this
      ensures Valid()
      ensures id !in old(products).rows ==> r == None && State() == old(State())
      ensures id in old(products).rows ==>
        r == Some(old(products).rows[id].(isAvailable := Some(isAvailable))) &&
        State() == old(State()).(products := Put(old(products), id, r.value))
    {
      var product := Get(products, id);
      if product.None? {
        return None;
      }
      var updated := product.value.(isAvailable := Some(isAvailable));
      products := Put(products, id, updated);
      r := Some(updated);
    }

    // ---- cart ----

    function GetCartItems(userId: int): (r: seq<CartItem>)
      reads this
      requires Valid()
      ensures forall c :: c in r <==> Holds(cartItems, c) && c.userId == userId
      ensures Seqs.IsSubsequence(r, Values(cartItems))
    {
      Seqs.Filter(Values(cartItems), (c: CartItem) => c.userId == userId)
    }

    /** The quantity is stored as supplied; an omitted quantity stays absent. */
    method AddToCart(ins: InsertCartItem, now: Timestamp) returns (item: CartItem)
      requires Valid()
      modifies this
      ensures Valid()
      ensures item == CartItemOf(old(currentId), ins, Some(now))
      ensures IdsBelow(old(State()), item.id)
      ensures State() == old(State()).(cartItems := Put(old(cartItems), item.id, item),
                                       currentId := old(currentId) + 1)
      ensures Get(cartItems, item.id) == Some(item)
    {
      var id := currentId;
      currentId := currentId + 1;
      item := CartItemOf(id, ins, Some(now));
      cartItems := Put(cartItems, id, item);
    }

    method UpdateCartItemQuantity(id: int, quantity: int) returns (r: Option<CartItem>)
      requires Valid()
      modifies this
      ensures Valid()
      ensures id !in old(cartItems).rows ==> r == None && State() == old(State())
      ensures id in old(cartItems).rows ==>
        r == Some(old(cartItems).rows[id].(quantity := Some(quantity))) &&
        State() == old(State()).(cartItems := Put(old(cartItems), id, r.value))
    {
      var item := Get(cartItems, id);
      if item.None? {
        return None;
      }
      var updated := item.value.(quantity := Some(quantity));
      cartItems := Put(cartItems, id, updated);
      r := Some(updated);
    }

    /** `Map.prototype.delete`: true exactly when the id was present. */
    method RemoveFromCart(id: int) returns (removed: bool)
      requires Valid()
      modifies this
      ensures Valid()
      ensures removed == (id in old(cartItems).rows)
      ensures id !in cartItems.rows
      ensures State() == old(State()).(cartItems := Delete(old(cartItems), id))
    {
      removed := id in cartItems.rows;
      cartItems := Delete(cartItems, id);
    }

    /** Deletes, one by one, the items a scan for `userId` found. */
    method ClearCart(userId: int) returns (ok: bool)
      requires Valid()
      modifies this
      ensures Valid()
      ensures ok
      ensures cartItems == ClearedCart(old(cartItems), userId)
      ensures GetCartItems(userId) == []
      ensures State() == old(State()).(cartItems := cartItems)
    {
      ghost var start := cartItems;
      RemoveKeysKeyed(start, CartKeysOf(start, userId), (c: CartItem) => c.id, currentId);
      ClearedCartEmpty(start, userId);
      cartItems := DeleteUserItems(cartItems, userId, currentId);
      ok := true;
    }

    // ---- notifications ----

    function GetNotifications(userId: int): (r: seq<Notification>)
      reads this
      requires Valid()
      ensures forall n :: n in r <==> Holds(notifications, n) && n.userId == userId
      ensures Seqs.IsSubsequence(r, Values(notifications))
    {
      Seqs.Filter(Values(notifications), (n: Notification) => n.userId == userId)
    }

    function GetUnreadNotifications(userId: int): (r: seq<Notification>)
      reads this
      requires Valid()
      ensures forall n :: n in r <==> Holds(notifications, n) && n.userId == userId && n.isRead != Some(true)
      ensures Seqs.IsSubsequence(r, Values(notifications))
    {
      Seqs.Filter(Values(notifications), (n: Notification) => IsUnreadFor(n, userId))
    }

    /** A new notification is unread whatever the caller supplies. */
    method CreateNotification(ins: InsertNotification, now: Timestamp) returns (notification: Notification)
      requires Valid()
      modifies this
      ensures Valid()
      ensures notification == NotificationOf(old(currentId), ins.(isRead := Some(false)), Some(now))
      ensures IdsBelow(old(State()), notification.id)
      ensures State() == old(State()).(notifications := Put(old(notifications), notification.id, notification),
                                       currentId := old(currentId) + 1)
      ensures Get(notifications, notification.id) == Some(notification)
    {
      var id := currentId;
      currentId := currentId + 1;
      notification := NotificationOf(id, ins.(isRead := Some(false)), Some(now));
      notifications := Put(notifications, id, notification);
    }

    method MarkNotificationAsRead(id: int) returns (r: Option<Notification>)
      requires Valid()
      modifies this
      ensures Valid()
      ensures id !in old(notifications).rows ==> r == None && State() == old(State())
      ensures id in old(notifications).rows ==>
        r == Some(MarkRead(old(notifications).rows[id])) &&
        State() == old(State()).(notifications := Put(old(notifications), id, r.value))
    {
      var notification := Get(notifications, id);
      if notification.None? {
        return None;
      }
      var updated := MarkRead(notification.value);
      notifications := Put(notifications, id, updated);
      r := Some(updated);
    }

    /** Rewrites, one by one, the notifications a scan for `userId` found,
        each from the record the scan saw. */
    method MarkAllNotificationsAsRead(userId: int) returns (ok: bool)
      requires Valid()
      modifies this
      ensures Valid()
      ensures ok
      ensures notifications == MarkAllRead(old(notifications), userId)
      ensures GetUnreadNotifications(userId) == []
      ensures State() == old(State()).(notifications := notifications)
    {
      ghost var start := notifications;
      MarkAllReadKeyed(start, userId, currentId);
      MarkAllReadNoUnread(start, userId);
      notifications := MarkUserNotifications(notifications, userId, currentId);
      ok := true;
    }
  }

  // ---- baseline data -----------------------------------------------------

  function Cat(id: int, name: string, description: string, icon: string,
               parentId: Option<int>, price: Cents): Category {
    Category(id, name, Some(description), Some(icon), parentId, Some(price), Some("kg"), Some(true))
  }

  /** The seeded category with this id; prices in cents per kilogram. */
  function SeedCategory(id: int): (c: Category)
    requires 1 <= id <= 15
    ensures c.id == id
  {
    match id
    case 1 => Cat(1, "Electronics", "Phones, laptops, circuit boards", "fas fa-microchip", None, 45000)
    case 2 => Cat(2, "Metals", "Copper, aluminum, steel", "fas fa-coins", None, 28000)
    case 3 => Cat(3, "Plastic", "Bottles, containers, packaging", "fas fa-leaf", None, 1500)
    case 4 => Cat(4, "Paper", "Newspapers, books, cardboard", "fas fa-newspaper", None, 1200)
    case 5 => Cat(5, "Copper", "Pure copper materials", "fas fa-coins", Some(2), 62000)
    case 6 => Cat(6, "Aluminum", "Aluminum cans and sheets", "fas fa-coins", Some(2), 18000)
    case 7 => Cat(7, "Steel", "Iron and steel materials", "fas fa-coins", Some(2), 4500)
    case 8 => Cat(8, "Brass", "Brass materials and fittings", "fas fa-coins", Some(2), 35000)
    case 9 => Cat(9, "Batteries", "Old batteries and cells", "fas fa-battery-empty", Some(1), 8500)
    case 10 => Cat(10, "Glass", "Glass bottles and containers", "fas fa-wine-bottle", None, 800)
    case 11 => Cat(11, "Textiles", "Fabric and clothing waste", "fas fa-tshirt", None, 2500)
    case 12 => Cat(12, "Wood", "Wood scraps and furniture", "fas fa-tree", None, 1800)
    case 13 => Cat(13, "Rubber", "Rubber materials and tires", "fas fa-circle", None, 3200)
    case 14 => Cat(14, "Cables", "Electric cables and wires", "fas fa-plug", Some(1), 12500)
    case _ => Cat(15, "Appliances", "Old appliances and machines", "fas fa-tv", Some(1), 9500)
  }

  /** The fifteen seeded categories, in insertion order. */
  function SeedCategories(): (r: seq<Category>)
    ensures |r| == 15
    ensures forall j :: 0 <= j < |r| ==> r[j] == SeedCategory(j + 1) && r[j].id == j + 1
  {
    seq(15, j requires 0 <= j < 15 => SeedCategory(j + 1))
  }

  /** The seeded dealer with this id; ratings in hundredths, specialties as
      the JSON text the column stores. */
  function SeedDealer(id: int): (d: Dealer)
    requires 1 <= id <= 3
    ensures d.id == id
  {
    match id
    case 1 => Dealer(1, "Green Recyclers", "123 Main St, Mumbai", "+91 9876543210",
                     Some("contact@greenrecyclers.com"), "Mumbai", Some(450), Some(true), Some("[1,2]"))
    case 2 => Dealer(2, "EcoWaste Solutions", "456 Park Ave, Delhi", "+91 9876543211",
                     Some("info@ecowaste.com"), "Delhi", Some(430), Some(true), Some("[2,3,4]"))
    case _ => Dealer(3, "Metal Masters", "789 Industrial Rd, Bangalore", "+91 9876543212",
                     Some("sales@metalmasters.com"), "Bangalore", Some(470), Some(true), Some("[2,5,6,7]"))
  }

  /** The three seeded dealers, in insertion order. */
  function SeedDealers(): (r: seq<Dealer>)
    ensures |r| == 3
    ensures forall j :: 0 <= j < |r| ==> r[j] == SeedDealer(j + 1) && r[j].id == j + 1
  {
    seq(3, j requires 0 <= j < 3 => SeedDealer(j + 1))
  }

  const PlaceholderImages := "[\"/api/placeholder/400/300\"]"

  /** The seeded product with this id, created at `now` and sold by user 1;
      prices in cents. */
  function SeedProduct(id: int, now: Timestamp): (p: Product)
    requires 1 <= id <= 4
    ensures p.id == id && p.sellerId == 1 && p.createdAt == Some(now)
  {
    match id
    case 1 => Product(1, 1, "Reclaimed Wood Table", Some("Beautiful dining table made from 100% recycled wood"),
                      899900, "furniture", "like-new", Some(PlaceholderImages), Some("Mumbai"),
                      Some(true), Some(true), Some(now))
    case 2 => Product(2, 1, "Eco Tote Bag", Some("Stylish tote bag made from recycled plastic bottles"),
                      49900, "accessories", "new", Some(PlaceholderImages), Some("Mumbai"),
                      Some(true), Some(true), Some(now))
    case 3 => Product(3, 1, "Metal Art Sculpture", Some("Handcrafted decorative sculpture from recycled metal"),
                      259900, "decor", "new", Some(PlaceholderImages), Some("Delhi"),
                      Some(true), Some(true), Some(now))
    case _ => Product(4, 1, "Recycled Planters", Some("Set of planters made from recycled plastic"),
                      79900, "garden", "new", Some(PlaceholderImages), Some("Bangalore"),
                      Some(true), Some(true), Some(now))
  }

  /** Every seeded product has one of the documented conditions, although
      the store itself never checks a condition. */
  lemma SeedConditionsDocumented(now: Timestamp)
    ensures forall j :: 0 <= j < |SeedProducts(now)| ==> IsProductCondition(SeedProducts(now)[j].condition)
  {
  }

  /** The four seeded products, in insertion order. */
  function SeedProducts(now: Timestamp): (r: seq<Product>)
    ensures |r| == 4
    ensures forall j :: 0 <= j < |r| ==> r[j] == SeedProduct(j + 1, now) && r[j].id == j + 1
  {
    seq(4, j requires 0 <= j < 4 => SeedProduct(j + 1, now))
  }
}
