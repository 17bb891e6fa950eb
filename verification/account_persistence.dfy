/**
 * Loading the account list from local storage at start-up, and the deep
 * watcher that writes the whole list back after every mutation
 * (src/stores/accountStore.ts). JSON parsing and serialisation are foreign
 * code here: they enter as function parameters.
 */
module AccountPersistence {
  import opened Wrappers
  import opened AccountTypes
  import opened AccountStore

  /** What `JSON.parse` makes of a saved string, as far as the store cares. */
  datatype ParseOutcome = ParseError | NotArray | Array(items: seq<Account>)

  /** JavaScript truthiness of `localStorage.getItem(...)`: neither `null` nor `""`. */
  predicate Truthy(saved: Option<string>)
  {
    saved.Some? && saved.value != ""
  }

  /**
   * `loadAccounts`: the parsed array when the saved value is truthy and parses
   * to an array; the empty list otherwise. Given the saved value, it never fails:
   * only the parse is guarded, not the storage read itself.
   */
  function LoadAccounts(saved: Option<string>, parse: string -> ParseOutcome): (r: seq<Account>)
    ensures !Truthy(saved) ==> r == []
    ensures Truthy(saved) && parse(saved.value).ParseError? ==> r == []
    ensures Truthy(saved) && parse(saved.value).NotArray? ==> r == []
    ensures Truthy(saved) && parse(saved.value).Array? ==> r == parse(saved.value).items
    ensures r != [] ==> Truthy(saved) && parse(saved.value) == Array(r)
  {
    if Truthy(saved) then
      match parse(saved.value)
      case Array(items) => items
      case _ => []
    else []
  }

  /**
   * `serialize` and `parse` behave like `JSON.stringify` and `JSON.parse` on
   * account arrays: the text of an array is never empty and parses back to it.
   */
  ghost predicate RoundTrips(serialize: seq<Account> -> string, parse: string -> ParseOutcome)
  {
    forall xs :: serialize(xs) != "" && parse(serialize(xs)) == Array(xs)
  }

  /** Saving a list and loading it again yields the same list. */
  lemma SaveThenLoad(xs: seq<Account>, serialize: seq<Account> -> string, parse: string -> ParseOutcome)
    requires RoundTrips(serialize, parse)
    ensures LoadAccounts(Some(serialize(xs)), parse) == xs
  {
  }

  // ---------------------------------------------------------------------
  // The store: in-memory list plus the storage key it mirrors to
  // ---------------------------------------------------------------------

  /** The `accounts` ref and the value held under the `"accounts"` storage key. */
  datatype Store = Store(accounts: seq<Account>, storage: Option<string>)

  /** The storage key holds exactly what loading would turn into the current list. */
  ghost predicate Synced(st: Store, parse: string -> ParseOutcome)
  {
    LoadAccounts(st.storage, parse) == st.accounts
  }

  /** Store creation: the list is loaded and storage is left as found. */
  function Init(storage: Option<string>, parse: string -> ParseOutcome): (st: Store)
    ensures st.storage == storage
    ensures Synced(st, parse)
  {
    Store(LoadAccounts(storage, parse), storage)
  }

  /** The watcher's callback: the whole current list overwrites the storage key. */
  function Autosave(accounts: seq<Account>, serialize: seq<Account> -> string): (st: Store)
    ensures st.accounts == accounts
    ensures st.storage == Some(serialize(accounts))
  {
    Store(accounts, Some(serialize(accounts)))
  }

  /** `addAccount` on the store: the push is a mutation, so the list is saved. */
  function StoreAddAccount(st: Store, id: string, serialize: seq<Account> -> string): (r: (Store, Account))
    ensures r.0.accounts == st.accounts + [r.1]
    ensures r.1 == NewAccount(id)
    ensures r.0.storage == Some(serialize(r.0.accounts))
  {
    var (accounts, account) := AddAccount(st.accounts, id);
    (Autosave(accounts, serialize), account)
  }

  /** `updateAccount` on the store: a missing id mutates nothing and so saves nothing. */
  function StoreUpdateAccount(st: Store, id: string, patch: FormPatch, serialize: seq<Account> -> string): (r: Store)
    ensures r.accounts == UpdateAccount(st.accounts, id, patch)
    ensures !HasId(st.accounts, id) ==> r == st
    ensures HasId(st.accounts, id) ==> r.storage == Some(serialize(r.accounts))
    ensures SameIds(st.accounts, r.accounts)
  {
    if FindIndex(st.accounts, id) == -1 then st
    else Autosave(UpdateAccount(st.accounts, id, patch), serialize)
  }

  /** `updateErrors` on the store: saved only when an account matched. */
  function StoreUpdateErrors(st: Store, id: string, errors: AccountErrors, serialize: seq<Account> -> string): (r: Store)
    ensures r.accounts == UpdateErrors(st.accounts, id, errors)
    ensures !HasId(st.accounts, id) ==> r == st
    ensures HasId(st.accounts, id) ==> r.storage == Some(serialize(r.accounts))
    ensures SameIds(st.accounts, r.accounts)
  {
    if FindIndex(st.accounts, id) == -1 then st
    else Autosave(UpdateErrors(st.accounts, id, errors), serialize)
  }

  /** `updateMetka` on the store: saved only when an account matched. */
  function StoreUpdateMetka(st: Store, id: string, metka: seq<MetkaItem>, serialize: seq<Account> -> string): (r: Store)
    ensures r.accounts == UpdateMetka(st.accounts, id, metka)
    ensures !HasId(st.accounts, id) ==> r == st
    ensures HasId(st.accounts, id) ==> r.storage == Some(serialize(r.accounts))
    ensures SameIds(st.accounts, r.accounts)
  {
    if FindIndex(st.accounts, id) == -1 then st
    else Autosave(UpdateMetka(st.accounts, id, metka), serialize)
  }

  /** `deleteAccount` on the store: the list is reassigned, so it is always saved. */
  function StoreDeleteAccount(st: Store, id: string, serialize: seq<Account> -> string): (r: Store)
    ensures r.accounts == DeleteAccount(st.accounts, id)
    ensures r.storage == Some(serialize(r.accounts))
    ensures forall a :: a in r.accounts <==> a in st.accounts && a.id != id
  {
    Autosave(DeleteAccount(st.accounts, id), serialize)
  }

  /**
   * The autosave guarantee: with a faithful serialiser, the storage key always
   * reloads to the current list, from creation and across every operation.
   */
  lemma OperationsKeepStorageSynced(st: Store, id: string, patch: FormPatch, errors: AccountErrors,
                                    metka: seq<MetkaItem>,
                                    serialize: seq<Account> -> string, parse: string -> ParseOutcome)
    requires RoundTrips(serialize, parse)
    requires Synced(st, parse)
    ensures Synced(StoreAddAccount(st, id, serialize).0, parse)
    ensures Synced(StoreUpdateAccount(st, id, patch, serialize), parse)
    ensures Synced(StoreUpdateErrors(st, id, errors, serialize), parse)
    ensures Synced(StoreUpdateMetka(st, id, metka, serialize), parse)
    ensures Synced(StoreDeleteAccount(st, id, serialize), parse)
  {
  }
}
