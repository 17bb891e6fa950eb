# Account store — a Dafny model

This project models the account store of a small Vue/Pinia application. The
store keeps an ordered list of user-editable accounts. Each account has an id,
form data, validation errors and tags ("metka"). The store loads the list from
browser local storage at start-up and writes the whole list back after every
change. It offers five operations: `addAccount`, `updateAccount`,
`updateErrors`, `updateMetka` and `deleteAccount`.

Every operation is modelled as a pure function from the old list to the new
one. Four modules make up the model:

- `Wrappers`: `Option`, for absent TypeScript properties and `null`.
- `AccountTypes`: the record shapes and two record-level operations. The
  first builds the default account; the second is the object spread used by
  `updateAccount`.
- `AccountStore`: `findIndex` and the five list operations, with lemmas
  about order, length, field isolation, missing ids and id distinctness.
- `AccountPersistence`: `loadAccounts`, plus a `Store` value that pairs the
  list with the storage key and saves after each mutation. Its main lemma
  shows the storage key always reloads to the current list.

`AccountScenarios` holds concrete scenarios.

Modelling choices:

- The id that `addAccount` generates is a parameter.
- `JSON.parse` is a parameter `parse: string -> ParseOutcome`, and
  `JSON.stringify` is a parameter `serialize`.
- The saved value is `Option<string>`, so the truthiness test `if (saved)`
  rejects both `null` and `""`, as in JavaScript.
- `password` is `Option<string>`, with `None` for `null`.
- A partial form is a `FormPatch` of four `Option`s; `None` means the property
  was omitted.

## Model

| member | source | states |
|---|---|---|
| AccountTypes.NewAccount | src/stores/accountStore.ts:26-36 | the new account carries the given id, an empty tag text, type `local`, empty login, password `""`, no errors and no tags |
| AccountTypes.MergeFormData | src/stores/accountStore.ts:46-49 | for each of the four form fields, a supplied value overwrites and an omitted one keeps the old value |
| AccountTypes.MergeEmptyIsIdentity | src/stores/accountStore.ts:46-49 | spreading an empty partial form leaves the form unchanged |
| AccountTypes.MergeFullReplaces | src/stores/accountStore.ts:46-49 | spreading a partial form that supplies every field replaces the whole form |
| AccountTypes.MergeIdempotent | src/stores/accountStore.ts:46-49 | spreading the same partial form twice equals spreading it once |
| AccountTypes.MergeCompose | src/stores/accountStore.ts:46-49 | two successive spreads equal one spread of the right-biased overlay of the two partial forms |
| AccountStore.FirstWithIdUnique | src/stores/accountStore.ts:42 | the first position carrying an id is unique, so "the matched account" is well defined |
| AccountStore.FindIndex | src/stores/accountStore.ts:42 | returns -1 exactly when no account has the id, and otherwise the position of the first account with that id |
| AccountStore.FindIndexSameIds | src/stores/accountStore.ts:42 | two lists with the same ids position by position give the same `findIndex` answer |
| AccountStore.AddAccount | src/stores/accountStore.ts:25-39 | the list grows by one; its prefix is the old list; its last element is the returned default account; a fresh id keeps ids pairwise distinct |
| AccountStore.UpdateAccount | src/stores/accountStore.ts:41-52 | ids and length are kept; a missing id leaves the list equal; otherwise only the first matching account changes, and in it only the form, which becomes the spread of the partial form |
| AccountStore.UpdateErrors | src/stores/accountStore.ts:54-62 | ids and length are kept; a missing id leaves the list equal; otherwise only the first matching account changes, and its errors become exactly the given errors |
| AccountStore.UpdateMetka | src/stores/accountStore.ts:64-72 | ids and length are kept; a missing id leaves the list equal; otherwise only the first matching account changes, and its tags become exactly the given tags |
| AccountStore.DeleteAccount | src/stores/accountStore.ts:74-76 | the result holds exactly the accounts whose id differs, and is no longer than the input |
| AccountStore.SameIdsKeepDistinct | src/stores/accountStore.ts:41-72 | a list with the same ids as a list of distinct ids also has distinct ids |
| AccountStore.UpdatesPreserveDistinctIds | src/stores/accountStore.ts:41-72 | none of the three update operations can make two accounts share an id |
| AccountStore.UpdateErrorsLastWins | src/stores/accountStore.ts:59 | errors are replaced wholesale, not merged: after two updates only the second one's errors remain |
| AccountStore.UpdateMetkaLastWins | src/stores/accountStore.ts:69 | tags are replaced wholesale: after two updates only the second one's tags remain |
| AccountStore.UpdateAccountCompose | src/stores/accountStore.ts:41-52 | two form updates of one id equal a single update with the overlaid partial form |
| AccountStore.UpdateAccountIdempotent | src/stores/accountStore.ts:41-52 | repeating a form update with the same partial form changes nothing further |
| AccountStore.UpdateErrorsMetkaCommute | src/stores/accountStore.ts:54-72 | errors and tags are set independently: the two updates commute |
| AccountStore.UpdateAccountErrorsCommute | src/stores/accountStore.ts:41-62 | form data and errors are set independently: the two updates commute |
| AccountStore.DeleteConcat | src/stores/accountStore.ts:75 | deletion distributes over concatenation, so survivors keep their relative order |
| AccountStore.DeleteMissingIsNoOp | src/stores/accountStore.ts:75 | deleting an id that no account carries returns an equal list |
| AccountStore.DeleteIdempotent | src/stores/accountStore.ts:75 | deleting twice equals deleting once |
| AccountStore.DeleteRemovesExactlyOne | src/stores/accountStore.ts:75 | when no other account shares the id at position i, deleting that id yields the list without position i, other accounts in order |
| AccountStore.UniqueIdAbsentAround | src/stores/accountStore.ts:75 | an id found only at position i occurs in neither the slice before i nor the slice after it |
| AccountStore.DeleteBetween | src/stores/accountStore.ts:75 | deleting the id of an account whose neighbours lack that id joins the neighbours |
| AccountStore.DeletePresentShortensByOne | src/stores/accountStore.ts:75 | with distinct ids, deleting a present id shortens the list by exactly one |
| AccountStore.DeletePreservesDistinctIds | src/stores/accountStore.ts:75 | deletion keeps ids pairwise distinct |
| AccountStore.AddThenDelete | src/stores/accountStore.ts:25-39 | deleting the fresh id of an added account restores the previous list |
| AccountPersistence.LoadAccounts | src/stores/accountStore.ts:6-17 | empty list when the saved value is null or empty, fails to parse, or is not an array; the parsed array otherwise; a non-empty result always comes from a parsed array |
| AccountPersistence.SaveThenLoad | src/stores/accountStore.ts:6-22 | with a faithful serialiser, loading the saved text of a list gives that list back |
| AccountPersistence.Init | src/stores/accountStore.ts:19 | the initial list is what storage loads to, and storage is untouched |
| AccountPersistence.Autosave | src/stores/accountStore.ts:21-23 | the watcher writes the serialisation of the whole current list to the storage key |
| AccountPersistence.StoreAddAccount | src/stores/accountStore.ts:25-39 | adding appends the default account and saves the new list |
| AccountPersistence.StoreUpdateAccount | src/stores/accountStore.ts:41-52 | the list becomes the `updateAccount` result; a missing id changes neither list nor storage; a match saves the updated list; ids are kept |
| AccountPersistence.StoreUpdateErrors | src/stores/accountStore.ts:54-62 | the list becomes the `updateErrors` result; a missing id changes neither list nor storage; a match saves the updated list; ids are kept |
| AccountPersistence.StoreUpdateMetka | src/stores/accountStore.ts:64-72 | the list becomes the `updateMetka` result; a missing id changes neither list nor storage; a match saves the updated list; ids are kept |
| AccountPersistence.StoreDeleteAccount | src/stores/accountStore.ts:74-76 | the list becomes the `deleteAccount` result, so survivors keep their order; deleting always saves, even when nothing matched; the survivors are exactly the accounts with another id |
| AccountPersistence.OperationsKeepStorageSynced | src/stores/accountStore.ts:19-76 | with a faithful serialiser, the storage key reloads to the current list after every operation |
| AccountScenarios.EmptyStorageAddThenTag | src/stores/accountStore.ts:6-72 | from empty storage, an added account has type `local`, empty login, no errors and no tags; tagging it "vip" gives exactly that tag |
| AccountScenarios.DeleteMiddle | src/stores/accountStore.ts:74-76 | deleting "b" from accounts "a", "b", "c" leaves "a", "c" in that order |

## Left out

- Vue reactivity itself (`ref`, deep `watch`) is not modelled. The `Store` functions save exactly when the source mutates the list: always for add and delete, only on a match for the updates. The model writes at the end of every operation. Vue's deep watcher runs its callback after the current synchronous code and batches several mutations into one `setItem`. Once the watcher has run, the stored value is the same as in the model.
- `localStorage` reads and writes are not modelled as I/O; the storage key is a field of `Store`.
- A failing `setItem`, such as a full quota, is not modelled. The source does not catch it.
- `JSON.parse` and `JSON.stringify` are foreign code. They are parameters, and the round trip is stated as the hypothesis `RoundTrips`.
- The shape of a parsed array is not checked by the source. The model assumes its elements are accounts, so the `if (account)` guards at lines 45, 58 and 68 always pass.
- The `console.error` call at line 13 is not modelled.
- Id generation from `Date.now()` and `Math.random()` is nondeterministic and uses floating point. The id is a parameter.
- JavaScript reference aliasing is not modelled. The source returns the stored account object itself, and stores the caller's errors object and tag array by reference.
- AccountTypes.MergeFormData: a partial form holding an explicit `undefined` value would overwrite the field with `undefined` in JavaScript. The model treats every omitted field as absent.
- `SelectOption` (src/types/account.types.ts:28-31) is for the UI only and the store does not use it.
