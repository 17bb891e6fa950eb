/** Concrete scenarios of the store operations on small lists. */
module AccountScenarios {
  import opened Wrappers
  import opened AccountTypes
  import opened AccountStore
  import opened AccountPersistence

  /**
   * From empty storage: load, add an account, tag it "vip". The new account
   * has the default form, no errors, and then exactly the one tag.
   */
  lemma EmptyStorageAddThenTag(id: string, parse: string -> ParseOutcome)
    ensures var accounts := LoadAccounts(None, parse);
            var (added, account) := AddAccount(accounts, id);
            var tagged := UpdateMetka(added, id, [MetkaItem("vip")]);
            && account.formData.accountType == Local
            && account.formData.login == ""
            && account.errors == NoErrors
            && account.metka == []
            && tagged == [account.(metka := [MetkaItem("vip")])]
  {
  }

  /** Deleting "b" from accounts "a", "b", "c" leaves "a" then "c". */
  lemma DeleteMiddle(a: Account, b: Account, c: Account)
    requires a.id == "a" && b.id == "b" && c.id == "c"
    ensures DeleteAccount([a, b, c], "b") == [a, c]
  {
  }
}
