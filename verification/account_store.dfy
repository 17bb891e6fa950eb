/**
 * The account list of the store (src/stores/accountStore.ts), with every
 * operation written as a pure function from the old list to the new one.
 * Lookups are `findIndex` by exact id equality: the update operations touch
 * only the FIRST account carrying the id, and do nothing when none does.
 */
module AccountStore {
  import opened Wrappers
  import opened AccountTypes

  // ---------------------------------------------------------------------
  // Reference definitions
  // ---------------------------------------------------------------------

  /** Some account in `s` carries `id`. */
  predicate HasId(s: seq<Account>, id: string)
  {
    exists k :: 0 <= k < |s| && s[k].id == id
  }

  /** `i` is the position of the first account in `s` that carries `id`. */
  predicate FirstWithId(s: seq<Account>, id: string, i: int)
  {
    && 0 <= i < |s|
    && s[i].id == id
    && forall j :: 0 <= j < i ==> s[j].id != id
  }

  /** No two accounts of `s` share an id. */
  predicate DistinctIds(s: seq<Account>)
  {
    forall i, j :: 0 <= i < |s| && 0 <= j < |s| && i != j ==> s[i].id != s[j].id
  }

  /** `after` is `before` with at most the account at position `i` replaced. */
  predicate ChangedOnlyAt(before: seq<Account>, after: seq<Account>, i: int)
  {
    && |after| == |before|
    && forall k :: 0 <= k < |before| && k != i ==> after[k] == before[k]
  }

  /** Position by position, `a` and `b` carry the same ids. */
  predicate SameIds(a: seq<Account>, b: seq<Account>)
  {
    && |a| == |b|
    && forall k :: 0 <= k < |a| ==> a[k].id == b[k].id
  }

  /** There is at most one first position for an id. */
  lemma FirstWithIdUnique(s: seq<Account>, id: string, i: int, j: int)
    requires FirstWithId(s, id, i) && FirstWithId(s, id, j)
    ensures i == j
  {
  }

  // ---------------------------------------------------------------------
  // findIndex
  // ---------------------------------------------------------------------

  /** `Array.prototype.findIndex` with the predicate `acc.id === id`. */
  function FindIndex(s: seq<Account>, id: string): (r: int)
    ensures -1 <= r < |s|
    ensures r == -1 <==> !HasId(s, id)
    ensures r != -1 ==> FirstWithId(s, id, r)
  {
    if |s| == 0 then -1
    else if s[0].id == id then 0
    else
      var t := FindIndex(s[1..], id);
      assert forall k :: 1 <= k < |s| ==> s[k] == s[1..][k - 1];
      if t == -1 then -1 else t + 1
  }

  /** `findIndex` looks only at ids, so lists with the same ids agree on it. */
  lemma FindIndexSameIds(a: seq<Account>, b: seq<Account>, id: string)
    requires SameIds(a, b)
    ensures FindIndex(a, id) == FindIndex(b, id)
  {
  }

  // ---------------------------------------------------------------------
  // addAccount
  // ---------------------------------------------------------------------

  /**
   * `addAccount`: push a fresh account to the end of the list and return it.
   * The id, generated in the source from the clock and a random number, is a
   * parameter here.
   */
  function AddAccount(accounts: seq<Account>, id: string): (r: (seq<Account>, Account))
    ensures |r.0| == |accounts| + 1
    ensures r.0[..|accounts|] == accounts
    ensures r.0[|accounts|] == r.1
    ensures r.1 == NewAccount(id)
    ensures !HasId(accounts, id) && DistinctIds(accounts) ==> DistinctIds(r.0)
  {
    var account := NewAccount(id);
    (accounts + [account], account)
  }

  // ---------------------------------------------------------------------
  // updateAccount, updateErrors, updateMetka
  // ---------------------------------------------------------------------

  /** `updateAccount`: shallow-merge `patch` into the form of the first account with `id`. */
  function UpdateAccount(accounts: seq<Account>, id: string, patch: FormPatch): (r: seq<Account>)
    ensures SameIds(accounts, r)
    ensures !HasId(accounts, id) ==> r == accounts
    ensures forall i | FirstWithId(accounts, id, i) ::
      && ChangedOnlyAt(accounts, r, i)
      && r[i].formData == MergeFormData(accounts[i].formData, patch)
      && r[i].id == accounts[i].id
      && r[i].errors == accounts[i].errors
      && r[i].metka == accounts[i].metka
  {
    var index := FindIndex(accounts, id);
    if index == -1 then accounts
    else
      var account := accounts[index];
      accounts[index := account.(formData := MergeFormData(account.formData, patch))]
  }

  /** `updateErrors`: replace, without merging, the errors of the first account with `id`. */
  function UpdateErrors(accounts: seq<Account>, id: string, errors: AccountErrors): (r: seq<Account>)
    ensures SameIds(accounts, r)
    ensures !HasId(accounts, id) ==> r == accounts
    ensures forall i | FirstWithId(accounts, id, i) ::
      && ChangedOnlyAt(accounts, r, i)
      && r[i].errors == errors
      && r[i].id == accounts[i].id
      && r[i].formData == accounts[i].formData
      && r[i].metka == accounts[i].metka
  {
    var index := FindIndex(accounts, id);
    if index == -1 then accounts
    else accounts[index := accounts[index].(errors := errors)]
  }

  /** `updateMetka`: replace the tag list of the first account with `id`. */
  function UpdateMetka(accounts: seq<Account>, id: string, metka: seq<MetkaItem>): (r: seq<Account>)
    ensures SameIds(accounts, r)
    ensures !HasId(accounts, id) ==> r == accounts
    ensures forall i | FirstWithId(accounts, id, i) ::
      && ChangedOnlyAt(accounts, r, i)
      && r[i].metka == metka
      && r[i].id == accounts[i].id
      && r[i].formData == accounts[i].formData
      && r[i].errors == accounts[i].errors
  {
    var index := FindIndex(accounts, id);
    if index == -1 then accounts
    else accounts[index := accounts[index].(metka := metka)]
  }

  // ---------------------------------------------------------------------
  // deleteAccount
  // ---------------------------------------------------------------------

  /** `deleteAccount`: keep exactly the accounts whose id differs, in order. */
  function DeleteAccount(accounts: seq<Account>, id: string): (r: seq<Account>)
    ensures |r| <= |accounts|
    ensures forall a :: a in r <==> a in accounts && a.id != id
  {
    if |accounts| == 0 then []
    else
      var rest := DeleteAccount(accounts[1..], id);
      assert forall a :: a in accounts <==> a == accounts[0] || a in accounts[1..];
      if accounts[0].id == id then rest else [accounts[0]] + rest
  }

  // ---------------------------------------------------------------------
  // Properties relating several calls
  // ---------------------------------------------------------------------

  /** Keeping positional ids keeps ids pairwise distinct. */
  lemma SameIdsKeepDistinct(a: seq<Account>, b: seq<Account>)
    requires SameIds(a, b) && DistinctIds(a)
    ensures DistinctIds(b)
  {
  }

  /** None of the three updates can make two accounts share an id. */
  lemma UpdatesPreserveDistinctIds(accounts: seq<Account>, id: string,
                                   patch: FormPatch, errors: AccountErrors, metka: seq<MetkaItem>)
    requires DistinctIds(accounts)
    ensures DistinctIds(UpdateAccount(accounts, id, patch))
    ensures DistinctIds(UpdateErrors(accounts, id, errors))
    ensures DistinctIds(UpdateMetka(accounts, id, metka))
  {
  }

  /** Errors are replaced wholesale: the second call wins outright. */
  lemma UpdateErrorsLastWins(accounts: seq<Account>, id: string, first: AccountErrors, second: AccountErrors)
    ensures UpdateErrors(UpdateErrors(accounts, id, first), id, second)
         == UpdateErrors(accounts, id, second)
  {
  }

  /** Tags are replaced wholesale: the second call wins outright. */
  lemma UpdateMetkaLastWins(accounts: seq<Account>, id: string, first: seq<MetkaItem>, second: seq<MetkaItem>)
    ensures UpdateMetka(UpdateMetka(accounts, id, first), id, second)
         == UpdateMetka(accounts, id, second)
  {
  }

  /** Two form updates merge like one update with the overlaid patch. */
  lemma UpdateAccountCompose(accounts: seq<Account>, id: string, first: FormPatch, second: FormPatch)
    ensures UpdateAccount(UpdateAccount(accounts, id, first), id, second)
         == UpdateAccount(accounts, id, OverlayPatch(first, second))
  {
  }

  /** Applying the same form patch twice is the same as applying it once. */
  lemma UpdateAccountIdempotent(accounts: seq<Account>, id: string, patch: FormPatch)
    ensures UpdateAccount(UpdateAccount(accounts, id, patch), id, patch)
         == UpdateAccount(accounts, id, patch)
  {
  }

  /** Errors and tags are independent: their updates commute. */
  lemma UpdateErrorsMetkaCommute(accounts: seq<Account>, id: string, errors: AccountErrors, metka: seq<MetkaItem>)
    ensures UpdateErrors(UpdateMetka(accounts, id, metka), id, errors)
         == UpdateMetka(UpdateErrors(accounts, id, errors), id, metka)
  {
  }

  /** Form data and errors are independent: their updates commute. */
  lemma UpdateAccountErrorsCommute(accounts: seq<Account>, id: string, patch: FormPatch, errors: AccountErrors)
    ensures UpdateErrors(UpdateAccount(accounts, id, patch), id, errors)
         == UpdateAccount(UpdateErrors(accounts, id, errors), id, patch)
  {
  }

  /** Deleting distributes over concatenation, so relative order is kept. */
  lemma {:induction false} DeleteConcat(a: seq<Account>, b: seq<Account>, id: string)
    ensures DeleteAccount(a + b, id) == DeleteAccount(a, id) + DeleteAccount(b, id)
  {
    if |a| == 0 {
      assert a + b == b;
    } else {
      assert (a + b)[1..] == a[1..] + b;
      DeleteConcat(a[1..], b, id);
    }
  }

  /** Deleting an id no account carries returns the list unchanged. */
  lemma {:induction false} DeleteMissingIsNoOp(accounts: seq<Account>, id: string)
    requires !HasId(accounts, id)
    ensures DeleteAccount(accounts, id) == accounts
  {
    if |accounts| != 0 {
      assert !HasId(accounts[1..], id) by {
        forall k | 0 <= k < |accounts[1..]|
          ensures accounts[1..][k].id != id
        {
          assert accounts[1..][k] == accounts[k + 1];
        }
      }
      DeleteMissingIsNoOp(accounts[1..], id);
      assert [accounts[0]] + accounts[1..] == accounts;
    }
  }

  /** After a deletion no account carries the id, so deleting again changes nothing. */
  lemma DeleteIdempotent(accounts: seq<Account>, id: string)
    ensures DeleteAccount(DeleteAccount(accounts, id), id) == DeleteAccount(accounts, id)
  {
  }

  /**
   * When no other account shares the id of the account at position `i`,
   * deleting that id removes exactly that account and keeps the rest in order.
   */
  lemma DeleteRemovesExactlyOne(accounts: seq<Account>, i: int)
    requires 0 <= i < |accounts|
    requires forall j :: 0 <= j < |accounts| && j != i ==> accounts[j].id != accounts[i].id
    ensures DeleteAccount(accounts, accounts[i].id) == accounts[..i] + accounts[i + 1..]
  {
    var id := accounts[i].id;
    UniqueIdAbsentAround(accounts, i);
    DeleteBetween(accounts[..i], accounts[i], accounts[i + 1..], id);
  }

  /** An id found only at position `i` occurs neither before nor after it. */
  lemma UniqueIdAbsentAround(accounts: seq<Account>, i: int)
    requires 0 <= i < |accounts|
    requires forall j :: 0 <= j < |accounts| && j != i ==> accounts[j].id != accounts[i].id
    ensures !HasId(accounts[..i], accounts[i].id)
    ensures !HasId(accounts[i + 1..], accounts[i].id)
    ensures accounts == accounts[..i] + [accounts[i]] + accounts[i + 1..]
  {
  }

  /** Deleting the only account carrying `id` leaves its neighbours joined up. */
  lemma DeleteBetween(before: seq<Account>, account: Account, after: seq<Account>, id: string)
    requires !HasId(before, id) && !HasId(after, id) && account.id == id
    ensures DeleteAccount(before + [account] + after, id) == before + after
  {
    var front := before + [account];
    DeleteMissingIsNoOp(before, id);
    DeleteMissingIsNoOp(after, id);
    assert DeleteAccount([account], id) == [] by {
      assert [account][1..] == [];
    }
    DeleteConcat(before, [account], id);
    assert DeleteAccount(front, id) == before;
    DeleteConcat(front, after, id);
  }

  /** With distinct ids, deleting a present id shortens the list by exactly one. */
  lemma DeletePresentShortensByOne(accounts: seq<Account>, id: string)
    requires DistinctIds(accounts) && HasId(accounts, id)
    ensures |DeleteAccount(accounts, id)| == |accounts| - 1
  {
    var i :| 0 <= i < |accounts| && accounts[i].id == id;
    DeleteRemovesExactlyOne(accounts, i);
  }

  /** Deleting keeps ids pairwise distinct. */
  lemma {:induction false} DeletePreservesDistinctIds(accounts: seq<Account>, id: string)
    requires DistinctIds(accounts)
    ensures DistinctIds(DeleteAccount(accounts, id))
  {
    if |accounts| != 0 {
      var head, tail := accounts[0], accounts[1..];
      TailKeepsDistinct(accounts);
      DeletePreservesDistinctIds(tail, id);
      var rest := DeleteAccount(tail, id);
      if head.id != id {
        forall k | 0 <= k < |rest| ensures rest[k].id != head.id {
          assert rest[k] in tail;
          HeadIdNotInTail(accounts, rest[k]);
        }
        ConsKeepsDistinct(head, rest);
      }
    }
  }

  /** Dropping the first account keeps ids distinct. */
  lemma TailKeepsDistinct(accounts: seq<Account>)
    requires |accounts| > 0 && DistinctIds(accounts)
    ensures DistinctIds(accounts[1..])
  {
  }

  /** With distinct ids, no later account shares the first account's id. */
  lemma HeadIdNotInTail(accounts: seq<Account>, a: Account)
    requires |accounts| > 0 && DistinctIds(accounts)
    requires a in accounts[1..]
    ensures a.id != accounts[0].id
  {
  }

  /** Putting an account with a new id in front keeps ids distinct. */
  lemma ConsKeepsDistinct(head: Account, rest: seq<Account>)
    requires DistinctIds(rest)
    requires forall k :: 0 <= k < |rest| ==> rest[k].id != head.id
    ensures DistinctIds([head] + rest)
  {
  }

  /** Deleting the id of a freshly added account undoes the addition. */
  lemma AddThenDelete(accounts: seq<Account>, id: string)
    requires !HasId(accounts, id)
    ensures DeleteAccount(AddAccount(accounts, id).0, id) == accounts
  {
    var account := NewAccount(id);
    DeleteConcat(accounts, [account], id);
    DeleteMissingIsNoOp(accounts, id);
    assert DeleteAccount([account], id) == [] by {
      assert [account][1..] == [];
    }
  }
}
