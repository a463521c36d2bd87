# Shadows Crew shop — a Dafny model of its client-side core

The Shadows Crew site is a single React component (`App.jsx`). It runs a demo shop of virtual
capes entirely in the browser. A catalog file is fetched once and each record is normalised
into a cape with a name, a texture, a whole-number price and an owner. Accounts, the session,
a currency balance, the cart and each user's purchases live in the browser's local storage,
behind a small `DB` helper with `get(key, fallback)` and `set(key, value)`.

This project models that core in four modules:

- `Wrappers` (wrappers.dfy): the `Option` type used for missing fields and keys.
- `Storage` (storage.dfy): `DB`. The store is a map from key to entry. An entry is a decoded value, or `Corrupt` for text that does not decode. `Get` falls back on absent and corrupt keys; `Set` replaces one key.
- `Catalog` (catalog.dfy): the record normaliser. It covers the text defaults (`Cape inconnue`, `default.png`, `Aucun propriétaire`) and the digit filter `replace(/\D/g, '')`, with its left-to-right decimal value. It also covers the failure of the whole load when a price is neither absent nor a string, and the decimal rendering `${n}` that the status line uses.
- `Commerce` (commerce.dfy): the status messages, the five store keys (`sc_user`, `sc_balance`, `sc_cart`, `sc_users`, `sc_purchases`), readers with the source's fallbacks for the four keys the shop reads back (`sc_cart` is only written), the cart total, purchase stamping and recording, the inventory listing, and the class `Shop`.
  - `Shop`'s fields are the component's state (`capes`, `user`, `balance`, `cart`, `message`) plus the local storage. Its methods are the operations.
  - The three persistence effects are folded into every operation. `Shop.Valid()` states that the store mirrors the session, the balance and the cart, and every operation keeps it.

Behaviour the model makes explicit:

- Logging in reloads the balance from `sc_balance`. That key holds this device's balance, whoever is logged in, so a successful login leaves the balance as it was (`Login`'s contract states both facts).
- The cart is written to the store but never read back: the constructor starts with an empty cart whatever the store holds.
- A price that is a JSON number makes `cape.price?.replace` throw. The whole catalog then stays as it was (empty at start-up), so a catalog file with numeric prices shows no capes at all.
- I/O is a parameter. The parsed catalog array is passed to `ReceiveCatalog`, and the checkout time is passed to `BuyCart` as `now`.

## Model

| member | source | states |
|---|---|---|
| Storage.GetAbsent | App.jsx:16 | an absent key reads as the fallback |
| Storage.GetCorrupt | App.jsx:16 | a key whose text does not decode reads as the fallback, with no error |
| Storage.GetAfterSet | App.jsx:16-17 | `get` right after `set` returns exactly the value stored |
| Storage.GetAfterSetOther | App.jsx:16-17 | `set` on one key does not change what any other key reads |
| Storage.SetSetSameKey | App.jsx:17 | `set` overwrites: of two writes to one key only the last remains |
| Catalog.Digits | App.jsx:37 | the digit filter keeps only characters `0`–`9` and never lengthens the text |
| Catalog.DigitsAppend | App.jsx:37 | the filter works character by character: the digits of `a + b` are the digits of `a` followed by those of `b` (order kept) |
| Catalog.DigitsOfDigits | App.jsx:37 | a string of digits passes the filter unchanged (the filter is idempotent) |
| Storage.Get | App.jsx:16 | `DB.get`: the decoded entry, or the fallback for an absent or undecodable key (its laws are GetAbsent, GetCorrupt, GetAfterSet, GetAfterSetOther) |
| Storage.Set | App.jsx:17 | `DB.set`: stores the value under the key, replacing any previous entry (its laws are GetAfterSet, GetAfterSetOther, SetSetSameKey) |
| Catalog.DecimalValue | App.jsx:37 | parseInt's left-to-right reading of a digit string; DecimalValueIsPositional ties it to the positional sum |
| Catalog.PriceOf | App.jsx:37 | `parseInt(price?.replace(/\D/g, ''))` with the zero fallback, for an absent or string price; PriceIsValueOfDigits, PriceIgnoresNonDigit and DecimalRoundTrip state its value |
| Catalog.DecimalValueIsPositional | App.jsx:37 | parseInt's left-to-right reading of a digit string equals the sum of its digits weighted by powers of ten |
| Catalog.PriceIsValueOfDigits | App.jsx:37 | a normalised price is the decimal value of the raw text's digits in order; no digits gives 0 |
| Catalog.PriceIgnoresNonDigit | App.jsx:37 | inserting a non-digit character anywhere in the raw price does not change the price |
| Catalog.DecimalRoundTrip | App.jsx:37 | parsing the decimal rendering of any whole number gives the number back |
| Catalog.Decimal | App.jsx:77 | `${n}` is a non-empty digit string with no leading zero, except `0` itself |
| Catalog.OrDefault | App.jsx:35-38 | the `or`-default of a text field gives either the default or the field's own value |
| Catalog.NormaliseCape | App.jsx:34-39 | a record fails exactly when its price is neither absent nor a string; otherwise missing or empty text fields get the three defaults, present ones are kept, no field is empty, and the price is read from the digits (0 when the price is absent) |
| Catalog.NormaliseCatalog | App.jsx:32-42 | the array normalises exactly when no record fails; then the result has the same length and order, item i being record i normalised |
| Catalog.OmbreExample | App.jsx:34-39 | the record `Cape Ombre` / `ombre.png` / `150¥` / `—` normalises to price 150 with the other fields kept |
| Commerce.SessionIn | App.jsx:22 | reads `sc_user` with the `null` fallback (PersistMirrors states it reads back the written session) |
| Commerce.BalanceIn | App.jsx:23 | reads `sc_balance` with the `0` fallback, as at start-up and on login (line 64) |
| Commerce.AccountsIn | App.jsx:50 | reads `sc_users` with the `{}` fallback, as register and login (line 61) do |
| Commerce.PurchasesIn | App.jsx:79 | reads `sc_purchases` with the `{}` fallback, as checkout and the inventory view (line 89) do |
| Commerce.Persist | App.jsx:45-47 | the three persistence effects: write the session, the balance and the cart; PersistMirrors and PersistMirrored state what they achieve |
| Commerce.NameTakenAsWritten | App.jsx:51 | the duplicate-name test as written: a registered name or an inherited `Object.prototype` property name |
| Commerce.CredentialsMatch | App.jsx:62 | the login test: the account exists and its stored password equals the given one exactly |
| Commerce.CartTotal | App.jsx:75 | `cart.reduce((s, i) => s + i.price, 0)`; CartTotalAppend, CartTotalSnoc and CartTotalFront state its laws |
| Commerce.InventoryOf | App.jsx:81 | `purchases[u]` with the empty-list fallback, also at line 90: the user's purchases, empty when there are none |
| Commerce.Record | App.jsx:81-83 | appends the stamped cart to the buyer's purchases; RecordAppendsCart states the result |
| Commerce.Join | App.jsx:91 | `Array.prototype.join`; JoinSnoc, JoinEmptyIff and JoinLength state its laws |
| Commerce.Listing | App.jsx:91 | the joined names, or `vide` when they join to the empty text; ListingCases states both cases |
| Commerce.Sentence | App.jsx:51-91 | the French text of each status message; ShortfallIsReported states that the shortfall sentence reports the amount |
| Commerce.PersistMirrors | App.jsx:45-47 | after the persistence effects the store holds the session, balance and cart, and the accounts and purchases keys read as before |
| Commerce.PersistMirrored | App.jsx:45-47 | on a store that already mirrors the state, the effects change nothing |
| Commerce.SetAccountsReads | App.jsx:52-53 | writing the account map back makes it read as written and leaves the purchases key alone |
| Commerce.SetPurchasesReads | App.jsx:82-83 | writing the purchase map back makes it read as written and leaves the accounts key alone |
| Commerce.AsWrittenRefusesRegistered | App.jsx:51 | the written name check refuses every name that really is registered |
| Commerce.PrototypeNameRefused | App.jsx:51 | as written, `toString` is refused on an empty store though no such account exists |
| Commerce.CartTotalAppend | App.jsx:75 | the total of two carts one after the other is the sum of their totals |
| Commerce.CartTotalSnoc | App.jsx:73-75 | adding a cape at the end of the cart raises the total by exactly its price |
| Commerce.CartTotalFront | App.jsx:75 | taking the first cape off a cart lowers the total by exactly its price |
| Commerce.RecordAppendsCart | App.jsx:79-83 | recording a checkout appends exactly the cart, stamped and in cart order, after the buyer's earlier purchases (an empty list when there were none); every other user's purchases are unchanged |
| Commerce.JoinEmptyIff | App.jsx:91 | the joined names are empty exactly when there are no names or one empty name |
| Commerce.JoinSnoc | App.jsx:91 | joining one more name appends the separator and that name, so the joined text is the names in inventory order with one separator between each pair |
| Commerce.JoinLength | App.jsx:91 | the joined text is as long as all the names together plus one separator per gap |
| Commerce.ListingCases | App.jsx:91 | an empty inventory lists as `vide`; one whose first name is not empty lists as the joined names |
| Commerce.ShortfallIsReported | App.jsx:77 | the digits of the insufficient-funds message are exactly the shortfall |
| Commerce.Shop.constructor | App.jsx:21-26 | start-up reads the session and balance from the store with their fallbacks, starts with an empty cart and catalog and the welcome message, and writes the three mirrored keys |
| Commerce.Shop.ReceiveCatalog | App.jsx:29-43 | the normalised catalog replaces the old one, unless a record fails, which leaves the catalog as it was; nothing else changes |
| Commerce.Shop.Register | App.jsx:49-58 | succeeds exactly when the name is not registered. On failure: session, balance, store and every account unchanged, duplicate message. On success: exactly that account added, the user logged in, balance 0, the store rewritten with the new map and the mirrored state |
| Commerce.Shop.Login | App.jsx:60-70 | succeeds exactly when the account exists and its password is equal to the one given. On success: user set and balance reloaded from the store (equal to the current balance). On failure: session and balance unchanged. Accounts and purchases untouched |
| Commerce.Shop.Logout | App.jsx:72 | clears the session; balance, cart and stored accounts and purchases unchanged |
| Commerce.Shop.AddToCart | App.jsx:73 | the new cart is the old one with the cape appended and its total grows by the cape's price; nothing else changes but the message |
| Commerce.Shop.ClearCart | App.jsx:156 | empties the cart; session, balance, message and stored accounts and purchases unchanged |
| Commerce.Shop.BuyCart | App.jsx:74-86 | with no session it fails first; with balance below the total it fails and reports exactly total − balance. Both failures leave balance, cart and store unchanged. On success the balance becomes balance − total (never negative), the buyer's purchases get the stamped cart appended, other users' purchases stay, and the cart is emptied |
| Commerce.Shop.ViewInventory | App.jsx:87-92 | with no session it asks the user to log in; otherwise the message lists the names of the user's purchases, or `vide`. Only the message changes |

## Left out

- Fetching `/capes/capes.json`, `res.json()` and `console.error` are I/O. A failed fetch or parse never calls `ReceiveCatalog`, so the catalog stays empty, as in the source.
- Catalog elements that are not objects (`null` throws, a number reads as all defaults), data that is not an array, and text fields holding non-string values (a truthy number as a name is kept as a number). The model's raw record only has optional strings, plus a three-way raw price.
- JavaScript `Number` arithmetic. Prices, totals and balances are unbounded integers here: no floating point, no precision loss when parsing more than 15–16 digits, no `Infinity` for very long digit strings, and no fractional or non-numeric stored balance.
- JSON encoding in `DB`. Decoding is taken to return exactly the value encoded. Text that does not decode, and the empty string (which `s ?` rejects), are both `Corrupt`. A well-formed entry of another shape than its key's (only something outside the shop could write one) reads as that key's fallback.
- Write failures of `localStorage.setItem` (quota) are not modelled. Neither are other tabs writing the store between operations: `Valid()` assumes the store still mirrors the state.
- The React effect scheduling: each operation ends in the state reached after its effects have run.
- Commerce.Shop.BuyCart: stamps every item of one checkout with the same `now`, while the source reads the clock once per item and successive items could get later times.
- Commerce.Shop.Register, Commerce.Shop.Login, Commerce.Shop.BuyCart and Commerce.Shop.ViewInventory: the account and purchase maps are plain dictionaries (own keys only). The source's inherited `Object.prototype` properties are left out, except for the register check described under Findings.
- The view (header, catalog grid, sidebar, footer), the login/registration modal with its mode toggle, and the display of whether the Discord key is configured. These are presentation and an environment read. The status line is a `Message` value, and `Sentence` gives its French text.

## Findings

| source | as written | input that shows it | evidently intended | confidence | as-written member | corrected member |
|---|---|---|---|---|---|---|
| App.jsx:51 | `if(users[username])` tests a plain object, which inherits `toString`, `constructor`, `valueOf`, `__proto__` and the other `Object.prototype` properties, all truthy | `register({username: "toString", password: "x"})` on an empty store is refused with "Ce pseudo existe déjà" | only names of registered accounts are refused | high (reasoned from the language semantics; not executed) | Commerce.NameTakenAsWritten, Commerce.PrototypeNameRefused | Commerce.Shop.Register |
