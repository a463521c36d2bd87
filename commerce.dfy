/**
  The shop: the session (who is logged in), the device's currency balance, the cart and the
  status line, and the commerce operations of App.jsx (register, login, logout, add to cart,
  clear the cart, buy the cart, view the inventory) over the persistent store. The React state
  is the fields of a `Shop`; the persistence effects are folded into every operation, so after
  each one the store mirrors the session, the balance and the cart.
*/
module Commerce {
  import opened Wrappers
  import opened Storage
  import opened Catalog

  /** A registered account, stored and compared in plain text. */
  datatype Account = Account(username: string, password: string)

  /** A bought cape, stamped with the checkout time (an ISO-8601 string supplied by the caller). */
  datatype Purchase = Purchase(cape: Cape, boughtAt: string)

  /** What a store key holds: each of the five keys has its own shape. */
  datatype Value =
    | SessionValue(username: Option<string>)
    | BalanceValue(amount: int)
    | CartValue(items: seq<Cape>)
    | AccountsValue(accounts: map<string, Account>)
    | PurchasesValue(records: map<string, seq<Purchase>>)

  const UserKey := "sc_user"
  const BalanceKey := "sc_balance"
  const CartKey := "sc_cart"
  const UsersKey := "sc_users"
  const PurchasesKey := "sc_purchases"

  /** The status line; `Sentence` gives the sentence the footer shows. */
  datatype Message =
    | Welcome
    | NameTaken
    | AccountCreated(username: string)
    | LoggedIn(username: string)
    | BadCredentials
    | LoggedOut
    | AddedToCart(capeName: string)
    | LoginToBuy
    | InsufficientFunds(shortfall: nat)
    | PurchaseDone
    | LoginToView
    | InventoryListing(listing: string)

  const ShortfallPrefix := "Solde insuffisant — il manque "

  function Sentence(m: Message): string {
    match m
    case Welcome => "Bienvenue sur la boutique Shadows Crew !"
    case NameTaken => "Ce pseudo existe déjà. Choisis-en un autre."
    case AccountCreated(u) => "Compte créé pour " + u
    case LoggedIn(u) => "Connecté en tant que " + u
    case BadCredentials => "Pseudo ou mot de passe incorrect."
    case LoggedOut => "Déconnecté."
    case AddedToCart(n) => n + " ajouté au panier."
    case LoginToBuy => "Connecte-toi pour acheter."
    case InsufficientFunds(k) => ShortfallPrefix + Decimal(k) + " ¥"
    case PurchaseDone => "Achat réussi ! Tes capes sont disponibles dans ton inventaire."
    case LoginToView => "Connecte-toi pour voir ton inventaire."
    case InventoryListing(l) => "Inventaire: " + l
  }

  // ---------------------------------------------------------------------------------------
  // Reading the store: each key through `DB.get` with the source's fallback. An entry of
  // another shape than its key's (which nothing in the shop writes) reads as the fallback.

  function SessionIn(db: Db<Value>): Option<string> {
    match Get(db, UserKey, SessionValue(None))
    case SessionValue(u) => u
    case _ => None
  }

  function BalanceIn(db: Db<Value>): int {
    match Get(db, BalanceKey, BalanceValue(0))
    case BalanceValue(b) => b
    case _ => 0
  }

  function AccountsIn(db: Db<Value>): map<string, Account> {
    match Get(db, UsersKey, AccountsValue(map[]))
    case AccountsValue(m) => m
    case _ => map[]
  }

  function PurchasesIn(db: Db<Value>): map<string, seq<Purchase>> {
    match Get(db, PurchasesKey, PurchasesValue(map[]))
    case PurchasesValue(m) => m
    case _ => map[]
  }

  /** The three persistence effects: write the session, the balance and the cart. */
  function Persist(db: Db<Value>, user: Option<string>, balance: int, cart: seq<Cape>): Db<Value> {
    Set(Set(Set(db, UserKey, SessionValue(user)), BalanceKey, BalanceValue(balance)), CartKey, CartValue(cart))
  }

  /** The store holds exactly the current session, balance and cart. */
  predicate Mirrors(db: Db<Value>, user: Option<string>, balance: int, cart: seq<Cape>) {
    && UserKey in db && db[UserKey] == Stored(SessionValue(user))
    && BalanceKey in db && db[BalanceKey] == Stored(BalanceValue(balance))
    && CartKey in db && db[CartKey] == Stored(CartValue(cart))
  }

  /** After the effects the store mirrors the state, and the accounts and purchases keys are untouched. */
  lemma PersistMirrors(db: Db<Value>, user: Option<string>, balance: int, cart: seq<Cape>)
    ensures Mirrors(Persist(db, user, balance, cart), user, balance, cart)
    ensures AccountsIn(Persist(db, user, balance, cart)) == AccountsIn(db)
    ensures PurchasesIn(Persist(db, user, balance, cart)) == PurchasesIn(db)
    ensures SessionIn(Persist(db, user, balance, cart)) == user
    ensures BalanceIn(Persist(db, user, balance, cart)) == balance
  {
  }

  /** Writing the accounts key: it reads back as written, and the purchases key is untouched. */
  lemma SetAccountsReads(db: Db<Value>, accounts: map<string, Account>)
    ensures AccountsIn(Set(db, UsersKey, AccountsValue(accounts))) == accounts
    ensures PurchasesIn(Set(db, UsersKey, AccountsValue(accounts))) == PurchasesIn(db)
  {
  }

  /** Writing the purchases key: it reads back as written, and the accounts key is untouched. */
  lemma SetPurchasesReads(db: Db<Value>, purchases: map<string, seq<Purchase>>)
    ensures PurchasesIn(Set(db, PurchasesKey, PurchasesValue(purchases))) == purchases
    ensures AccountsIn(Set(db, PurchasesKey, PurchasesValue(purchases))) == AccountsIn(db)
  {
  }

  /** A store that already mirrors the state is not changed by the effects. */
  lemma PersistMirrored(db: Db<Value>, user: Option<string>, balance: int, cart: seq<Cape>)
    requires Mirrors(db, user, balance, cart)
    ensures Persist(db, user, balance, cart) == db
  {
  }

  // ---------------------------------------------------------------------------------------
  // Registration: the check on the account map

  /**
    The default prototype properties of a JavaScript object; `users[name]` is truthy for each of
    them even when no such account exists.
  */
  const ObjectPrototypeNames: set<string> :=
    {"constructor", "hasOwnProperty", "isPrototypeOf", "propertyIsEnumerable", "toLocaleString",
     "toString", "valueOf", "__proto__", "__defineGetter__", "__defineSetter__",
     "__lookupGetter__", "__lookupSetter__"}

  /** `if(users[username])` as written: an own account, or an inherited prototype property. */
  predicate NameTakenAsWritten(accounts: map<string, Account>, username: string) {
    username in accounts || username in ObjectPrototypeNames
  }

  /** The check as intended: the name belongs to a registered account. */
  predicate IsRegistered(accounts: map<string, Account>, username: string) {
    username in accounts
  }

  /** The written check refuses every name the intended one refuses. */
  lemma AsWrittenRefusesRegistered(accounts: map<string, Account>, username: string)
    requires IsRegistered(accounts, username)
    ensures NameTakenAsWritten(accounts, username)
  {
  }

  /** As written, "toString" counts as taken on a brand-new store, though no account has that name. */
  lemma PrototypeNameRefused()
    ensures NameTakenAsWritten(map[], "toString")
    ensures !IsRegistered(map[], "toString")
  {
  }

  /** `users[username] && users[username].password === password`. */
  predicate CredentialsMatch(accounts: map<string, Account>, username: string, password: string) {
    username in accounts && accounts[username].password == password
  }

  // ---------------------------------------------------------------------------------------
  // The ledger

  /** `cart.reduce((s, i) => s + i.price, 0)`. */
  function CartTotal(cart: seq<Cape>): nat {
    if cart == [] then 0 else CartTotal(cart[..|cart| - 1]) + cart[|cart| - 1].price
  }

  /** The total of two carts one after the other is the sum of their totals. */
  lemma {:induction false} CartTotalAppend(a: seq<Cape>, b: seq<Cape>)
    ensures CartTotal(a + b) == CartTotal(a) + CartTotal(b)
  {
    if b == [] {
      assert a + b == a;
    } else {
      var ab := a + b;
      assert ab[..|ab| - 1] == a + b[..|b| - 1];
      assert ab[|ab| - 1] == b[|b| - 1];
      CartTotalAppend(a, b[..|b| - 1]);
    }
  }

  /** Adding a cape at the end of a cart raises the total by exactly its price. */
  lemma CartTotalSnoc(a: seq<Cape>, c: Cape)
    ensures CartTotal(a + [c]) == CartTotal(a) + c.price
  {
    assert (a + [c])[..|a|] == a;
  }

  /** Taking the first cape off a cart lowers the total by exactly its price. */
  lemma {:induction false} CartTotalFront(c: Cape, rest: seq<Cape>)
    ensures CartTotal([c] + rest) == c.price + CartTotal(rest)
  {
    CartTotalAppend([c], rest);
    assert [c][..0] == [];
  }

  /** `purchases[u] || []`: the user's purchase sequence, empty when there is none. */
  function InventoryOf(purchases: map<string, seq<Purchase>>, u: string): seq<Purchase> {
    if u in purchases then purchases[u] else []
  }

  /** `cart.map(c => ({ ...c, boughtAt }))`. */
  function Stamp(cart: seq<Cape>, now: string): seq<Purchase> {
    seq(|cart|, i requires 0 <= i < |cart| => Purchase(cart[i], now))
  }

  /** `purchases[u].push(...stamped)` on the map read from the store. */
  function Record(purchases: map<string, seq<Purchase>>, u: string, cart: seq<Cape>, now: string): map<string, seq<Purchase>> {
    purchases[u := InventoryOf(purchases, u) + Stamp(cart, now)]
  }

  /**
    Recording a checkout grows the buyer's inventory by exactly the cart, in cart order, after
    what was there, and leaves every other user's inventory as it was.
  */
  lemma RecordAppendsCart(purchases: map<string, seq<Purchase>>, u: string, cart: seq<Cape>, now: string)
    ensures |InventoryOf(Record(purchases, u, cart, now), u)| == |InventoryOf(purchases, u)| + |cart|
    ensures InventoryOf(Record(purchases, u, cart, now), u)[..|InventoryOf(purchases, u)|] == InventoryOf(purchases, u)
    ensures forall i :: 0 <= i < |cart| ==>
      InventoryOf(Record(purchases, u, cart, now), u)[|InventoryOf(purchases, u)| + i] == Purchase(cart[i], now)
    ensures forall v :: v != u ==> InventoryOf(Record(purchases, u, cart, now), v) == InventoryOf(purchases, v)
    ensures Record(purchases, u, cart, now).Keys == purchases.Keys + {u}
  {
  }

  // ---------------------------------------------------------------------------------------
  // The inventory listing

  /** `inv.map(i => i.name)`. */
  function Names(inv: seq<Purchase>): seq<string> {
    seq(|inv|, i requires 0 <= i < |inv| => inv[i].cape.name)
  }

  /** `parts.join(sep)`. */
  function Join(parts: seq<string>, sep: string): string {
    if |parts| == 0 then ""
    else if |parts| == 1 then parts[0]
    else parts[0] + sep + Join(parts[1..], sep)
  }

  /** `inv.map(i => i.name).join(', ') || 'vide'`. */
  function Listing(inv: seq<Purchase>): string {
    var joined := Join(Names(inv), ", ");
    if joined == "" then "vide" else joined
  }

  /** The joined names are empty exactly when there are no names, or a single empty one. */
  lemma JoinEmptyIff(parts: seq<string>, sep: string)
    requires sep != ""
    ensures Join(parts, sep) == "" <==> |parts| == 0 || (|parts| == 1 && parts[0] == "")
  {
    if |parts| >= 2 {
      assert |Join(parts, sep)| >= |sep|;
    }
  }

  /**
    Joining one more name appends the separator and that name: the joined text is the names in
    inventory order with one separator between each pair.
  */
  lemma {:induction false} JoinSnoc(parts: seq<string>, p: string, sep: string)
    requires |parts| > 0
    ensures Join(parts + [p], sep) == Join(parts, sep) + sep + p
  {
    var ps := parts + [p];
    assert ps[0] == parts[0];
    if |parts| == 1 {
      assert ps[1..] == [p];
    } else {
      assert ps[1..] == parts[1..] + [p];
      JoinSnoc(parts[1..], p, sep);
    }
  }

  /** The joined text is as long as all the names together plus one separator between each pair. */
  lemma {:induction false} JoinLength(parts: seq<string>, sep: string)
    requires |parts| > 0
    ensures |Join(parts, sep)| == SumOfLengths(parts) + (|parts| - 1) * |sep|
  {
    if |parts| > 1 {
      JoinLength(parts[1..], sep);
    }
  }

  function SumOfLengths(parts: seq<string>): nat {
    if parts == [] then 0 else |parts[0]| + SumOfLengths(parts[1..])
  }

  /** The listing reads "vide" for an empty inventory, and the joined names when the first name is not empty. */
  lemma ListingCases(inv: seq<Purchase>)
    ensures inv == [] ==> Listing(inv) == "vide"
    ensures inv != [] && inv[0].cape.name != "" ==> Listing(inv) == Join(Names(inv), ", ")
  {
    JoinEmptyIff(Names(inv), ", ");
  }

  /** The digits of the insufficient-funds sentence are exactly the shortfall: the footer reports the amount. */
  lemma ShortfallIsReported(k: nat)
    ensures PriceOf(Some(Sentence(InsufficientFunds(k)))) == k
  {
    var d := Decimal(k);
    var t := Sentence(InsufficientFunds(k));
    ShortfallSentence(k);
    ShortfallPrefixHasNoDigits();
    CurrencySuffixHasNoDigits();
    DigitsBetween(ShortfallPrefix, d, " ¥");
    DigitsOfDigits(d);
    assert Digits(t) == d;
    DecimalRoundTrip(k);
  }

  lemma ShortfallSentence(k: nat)
    ensures Sentence(InsufficientFunds(k)) == ShortfallPrefix + (Decimal(k) + " ¥")
  {
  }

  lemma ShortfallPrefixHasNoDigits()
    ensures Digits(ShortfallPrefix) == []
  {
    NoDigits(ShortfallPrefix);
  }

  lemma CurrencySuffixHasNoDigits()
    ensures Digits(" ¥") == []
  {
    NoDigits(" ¥");
  }

  /** Text without digits on either side does not change the digits read. */
  lemma DigitsBetween(p: string, d: string, q: string)
    requires Digits(p) == [] && Digits(q) == []
    ensures Digits(p + (d + q)) == Digits(d)
  {
    DigitsAppend(p, d + q);
    DigitsAppend(d, q);
  }

  lemma {:induction false} NoDigits(s: string)
    requires forall i :: 0 <= i < |s| ==> !IsDigit(s[i])
    ensures Digits(s) == []
  {
    if s != [] {
      NoDigits(s[1..]);
    }
  }

  // ---------------------------------------------------------------------------------------
  // The shop component's state and operations

  class Shop {
    /** The normalised catalog (`capes`); not persisted. */
    var catalog: seq<Cape>
    /** The logged-in user's name (`user`), or none. */
    var user: Option<string>
    /** The device's currency balance. */
    var balance: int
    var cart: seq<Cape>
    var message: Message
    /** The browser's local storage. */
    var store: Db<Value>

    /** The persistence effects have run: the store mirrors the session, the balance and the cart. */
    ghost predicate Valid()
      reads this
    {
      Mirrors(store, user, balance, cart)
    }

    /**
      Mounting the component: the session and the balance are read from the store with their
      fallbacks, the cart starts empty (a persisted cart is not read back), and the mount-time
      effects write all three.
    */
    constructor (initial: Db<Value>)
      ensures Valid()
      ensures user == SessionIn(initial) && balance == BalanceIn(initial)
      ensures cart == [] && catalog == [] && message == Welcome
      ensures store == Persist(initial, user, balance, [])
      ensures AccountsIn(store) == AccountsIn(initial) && PurchasesIn(store) == PurchasesIn(initial)
    {
      catalog := [];
      user := SessionIn(initial);
      balance := BalanceIn(initial);
      cart := [];
      message := Welcome;
      store := Persist(initial, SessionIn(initial), BalanceIn(initial), []);
      PersistMirrors(initial, SessionIn(initial), BalanceIn(initial), []);
    }

    /**
      The catalog effect once the file has been parsed: the normalised records replace the
      catalog; when a record makes the normaliser throw, the catalog keeps its value.
    */
    method ReceiveCatalog(data: seq<RawCape>)
      requires Valid()
      modifies this
      ensures Valid()
      ensures catalog == NormaliseCatalog(data).GetOr(old(catalog))
      ensures user == old(user) && balance == old(balance) && cart == old(cart)
      ensures message == old(message) && store == old(store)
    {
      match NormaliseCatalog(data)
      case Some(formatted) => catalog := formatted;
      case None =>
    }

    /**
      Creates the account unless the name is already registered; on success the new user is
      logged in with a balance of 0.
    */
    method Register(username: string, password: string) returns (ok: bool)
      requires Valid()
      modifies this
      ensures Valid()
      ensures ok <==> !IsRegistered(old(AccountsIn(store)), username)
      ensures !ok ==> user == old(user) && balance == old(balance) && store == old(store) && message == NameTaken
      ensures ok ==> AccountsIn(store) == old(AccountsIn(store))[username := Account(username, password)]
      ensures ok ==> user == Some(username) && balance == 0 && message == AccountCreated(username)
      ensures ok ==> store == Persist(Set(old(store), UsersKey, AccountsValue(AccountsIn(store))), user, balance, cart)
      ensures cart == old(cart) && catalog == old(catalog)
      ensures PurchasesIn(store) == old(PurchasesIn(store))
    {
      var users := AccountsIn(store);
      if IsRegistered(users, username) {
        message := NameTaken;
        return false;
      }
      users := users[username := Account(username, password)];
      SetAccountsReads(store, users);
      store := Set(store, UsersKey, AccountsValue(users));
      user := Some(username);
      balance := 0;
      message := AccountCreated(username);
      store := Persist(store, user, balance, cart);
      PersistMirrors(Set(old(store), UsersKey, AccountsValue(users)), user, balance, cart);
      ok := true;
    }

    /**
      Logs in when the account exists and its password is exactly the one given; the balance is
      then read back from the store, which holds this device's balance whoever logged in before.
    */
    method Login(username: string, password: string) returns (ok: bool)
      requires Valid()
      modifies this
      ensures Valid()
      ensures ok <==> CredentialsMatch(old(AccountsIn(store)), username, password)
      ensures ok ==> user == Some(username) && balance == old(BalanceIn(store)) && message == LoggedIn(username)
      ensures ok ==> balance == old(balance)
      ensures !ok ==> user == old(user) && balance == old(balance) && message == BadCredentials
      ensures cart == old(cart) && catalog == old(catalog)
      ensures store == Persist(old(store), user, balance, cart)
      ensures AccountsIn(store) == old(AccountsIn(store)) && PurchasesIn(store) == old(PurchasesIn(store))
    {
      var users := AccountsIn(store);
      if CredentialsMatch(users, username, password) {
        user := Some(username);
        balance := BalanceIn(store);
        message := LoggedIn(username);
        store := Persist(store, user, balance, cart);
        PersistMirrors(old(store), user, balance, cart);
        return true;
      }
      message := BadCredentials;
      PersistMirrored(store, user, balance, cart);
      ok := false;
    }

    /** Ends the session; the balance and the cart stay as they are. */
    method Logout()
      requires Valid()
      modifies this
      ensures Valid()
      ensures user == None && message == LoggedOut
      ensures balance == old(balance) && cart == old(cart) && catalog == old(catalog)
      ensures store == Persist(old(store), user, balance, cart)
      ensures AccountsIn(store) == old(AccountsIn(store)) && PurchasesIn(store) == old(PurchasesIn(store))
    {
      user := None;
      message := LoggedOut;
      store := Persist(store, user, balance, cart);
      PersistMirrors(old(store), user, balance, cart);
    }

    /** Appends the cape to the cart, with no limit and no stock check. */
    method AddToCart(c: Cape)
      requires Valid()
      modifies this
      ensures Valid()
      ensures cart == old(cart) + [c]
      ensures CartTotal(cart) == old(CartTotal(cart)) + c.price
      ensures message == AddedToCart(c.name)
      ensures user == old(user) && balance == old(balance) && catalog == old(catalog)
      ensures store == Persist(old(store), user, balance, cart)
      ensures AccountsIn(store) == old(AccountsIn(store)) && PurchasesIn(store) == old(PurchasesIn(store))
    {
      CartTotalSnoc(cart, c);
      cart := cart + [c];
      message := AddedToCart(c.name);
      store := Persist(store, user, balance, cart);
      PersistMirrors(old(store), user, balance, cart);
    }

    /** The "Vider" button: empties the cart; the status line is left as it was. */
    method ClearCart()
      requires Valid()
      modifies this
      ensures Valid()
      ensures cart == []
      ensures user == old(user) && balance == old(balance) && message == old(message) && catalog == old(catalog)
      ensures store == Persist(old(store), user, balance, cart)
      ensures AccountsIn(store) == old(AccountsIn(store)) && PurchasesIn(store) == old(PurchasesIn(store))
    {
      cart := [];
      store := Persist(store, user, balance, cart);
      PersistMirrors(old(store), user, balance, cart);
    }

    /**
      Checkout. Without a session it fails before anything else; with too small a balance it
      fails and reports the exact shortfall; both failures change nothing but the status line.
      Otherwise the total is debited (the balance stays non-negative), the cart's capes are
      appended, stamped with `now`, to the user's purchases, and the cart is emptied.
    */
    method BuyCart(now: string)
      requires Valid()
      modifies this
      ensures Valid()
      ensures user == old(user) && catalog == old(catalog) && AccountsIn(store) == old(AccountsIn(store))
      ensures old(user).None? ==>
        message == LoginToBuy && balance == old(balance) && cart == old(cart) && store == old(store)
      ensures old(user).Some? && old(balance) < old(CartTotal(cart)) ==>
        && message == InsufficientFunds(old(CartTotal(cart)) - old(balance))
        && balance == old(balance) && cart == old(cart) && store == old(store)
      ensures old(user).Some? && old(balance) >= old(CartTotal(cart)) ==>
        && balance == old(balance) - old(CartTotal(cart)) && balance >= 0
        && PurchasesIn(store) == Record(old(PurchasesIn(store)), old(user).value, old(cart), now)
        && cart == [] && message == PurchaseDone
        && store == Persist(Set(old(store), PurchasesKey, PurchasesValue(PurchasesIn(store))), user, balance, cart)
    {
      var sum := CartTotal(cart);
      if user.None? {
        message := LoginToBuy;
        return;
      }
      if balance < sum {
        message := InsufficientFunds(sum - balance);
        return;
      }
      balance := balance - sum;
      var purchases := PurchasesIn(store);
      var u := user.value;
      purchases := Record(purchases, u, cart, now);
      SetPurchasesReads(store, purchases);
      store := Set(store, PurchasesKey, PurchasesValue(purchases));
      cart := [];
      message := PurchaseDone;
      store := Persist(store, user, balance, cart);
      PersistMirrors(Set(old(store), PurchasesKey, PurchasesValue(purchases)), user, balance, cart);
    }

    /** Shows the names of the user's purchases in the status line; reads the store, writes only the message. */
    method ViewInventory()
      requires Valid()
      modifies this`message
      ensures Valid()
      ensures user.None? ==> message == LoginToView
      ensures user.Some? ==> message == InventoryListing(Listing(InventoryOf(PurchasesIn(store), user.value)))
    {
      if user.None? {
        message := LoginToView;
        return;
      }
      var inv := InventoryOf(PurchasesIn(store), user.value);
      message := InventoryListing(Listing(inv));
    }
  }

  /** The store of a device where Alice is logged in with the given balance. */
  function AliceDevice(balance: int): Db<Value> {
    map[UserKey := Stored(SessionValue(Some("Alice"))), BalanceKey := Stored(BalanceValue(balance)),
        UsersKey := Stored(AccountsValue(map["Alice" := Account("Alice", "pw1")]))]
  }

  lemma AliceDeviceReads(balance: int)
    ensures SessionIn(AliceDevice(balance)) == Some("Alice") && BalanceIn(AliceDevice(balance)) == balance
  {
  }

  /** Registering a taken name fails and keeps the first password. */
  method DuplicateRegistrationScenario() {
    var newcomer := new Shop(map[]);
    var first := newcomer.Register("Alice", "pw1");
    assert first;
    var second := newcomer.Register("Alice", "pw2");
    assert !second && newcomer.message == NameTaken;
    assert AccountsIn(newcomer.store)["Alice"].password == "pw1";
  }

  /** A balance of 100 against a cart of 60 and 50: the checkout fails, 10 short, and the balance stays 100. */
  method ShortfallScenario() {
    var a := Cape("A", "a.png", 60, "x");
    var b := Cape("B", "b.png", 50, "y");
    AliceDeviceReads(100);
    var poor := new Shop(AliceDevice(100));
    assert poor.user == Some("Alice") && poor.balance == 100;
    poor.AddToCart(a);
    poor.AddToCart(b);
    assert CartTotal(poor.cart) == 110;
    poor.BuyCart("2024-01-01T00:00:00.000Z");
    assert poor.message == InsufficientFunds(10) && poor.balance == 100;
  }

  /** A balance of 200 against the same cart: the checkout succeeds, leaves 90 and records two purchases. */
  method CheckoutScenario() {
    var a := Cape("A", "a.png", 60, "x");
    var b := Cape("B", "b.png", 50, "y");
    AliceDeviceReads(200);
    var rich := new Shop(AliceDevice(200));
    assert rich.user == Some("Alice") && rich.balance == 200;
    ghost var before := PurchasesIn(rich.store);
    rich.AddToCart(a);
    rich.AddToCart(b);
    assert CartTotal(rich.cart) == 110 && |rich.cart| == 2;
    ghost var bought := rich.cart;
    rich.BuyCart("2024-01-01T00:00:00.000Z");
    assert rich.balance == 90 && rich.cart == [];
    RecordAppendsCart(before, "Alice", bought, "2024-01-01T00:00:00.000Z");
    assert |InventoryOf(PurchasesIn(rich.store), "Alice")| == |InventoryOf(before, "Alice")| + 2;
  }
}
