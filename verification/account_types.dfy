/**
 * The record shapes of an account (src/types/account.types.ts) and the two
 * value-level operations the store performs on them: building a fresh account
 * and shallow-merging a partial form into an existing one.
 */
module AccountTypes {
  import opened Wrappers

  /** One tag attached to an account. */
  datatype MetkaItem = MetkaItem(text: string)

  /** The string union `'local' | 'ldap'`. */
  datatype AccountType = Local | Ldap

  /** The edited form; `password` is `string | null`, with `None` for `null`. */
  datatype AccountFormData = AccountFormData(
    metkaRaw: string,
    accountType: AccountType,
    login: string,
    password: Option<string>)

  /** Validation messages; an absent property is `None`. */
  datatype AccountErrors = AccountErrors(
    metka: Option<string>,
    accountType: Option<string>,
    login: Option<string>,
    password: Option<string>)

  datatype Account = Account(
    id: string,
    formData: AccountFormData,
    errors: AccountErrors,
    metka: seq<MetkaItem>)

  /**
   * `Partial<AccountFormData>`: every property may be omitted (`None`).
   * A supplied password is itself `string | null`.
   */
  datatype FormPatch = FormPatch(
    metkaRaw: Option<string>,
    accountType: Option<AccountType>,
    login: Option<string>,
    password: Option<Option<string>>)

  /** The object literal `{}` typed as `AccountErrors`. */
  const NoErrors: AccountErrors := AccountErrors(None, None, None, None)

  /** The patch that supplies no property at all. */
  const EmptyPatch: FormPatch := FormPatch(None, None, None, None)

  /** The record `addAccount` builds around a freshly generated id. */
  function NewAccount(id: string): (a: Account)
    ensures a.id == id
    ensures a.formData.metkaRaw == "" && a.formData.login == ""
    ensures a.formData.accountType == Local
    ensures a.formData.password == Some("")
    ensures a.errors.metka.None? && a.errors.accountType.None?
    ensures a.errors.login.None? && a.errors.password.None?
    ensures a.metka == []
  {
    Account(id, AccountFormData("", Local, "", Some("")), NoErrors, [])
  }

  /**
   * The object spread `{ ...form, ...patch }`: every property the patch
   * supplies overwrites, every property it omits keeps its old value.
   */
  function MergeFormData(form: AccountFormData, patch: FormPatch): (r: AccountFormData)
    ensures patch.metkaRaw.Some? ==> r.metkaRaw == patch.metkaRaw.value
    ensures patch.metkaRaw.None? ==> r.metkaRaw == form.metkaRaw
    ensures patch.accountType.Some? ==> r.accountType == patch.accountType.value
    ensures patch.accountType.None? ==> r.accountType == form.accountType
    ensures patch.login.Some? ==> r.login == patch.login.value
    ensures patch.login.None? ==> r.login == form.login
    ensures patch.password.Some? ==> r.password == patch.password.value
    ensures patch.password.None? ==> r.password == form.password
  {
    AccountFormData(
      patch.metkaRaw.GetOr(form.metkaRaw),
      patch.accountType.GetOr(form.accountType),
      patch.login.GetOr(form.login),
      patch.password.GetOr(form.password))
  }

  /** The patch that supplies exactly the properties of `form`. */
  function FullPatch(form: AccountFormData): FormPatch
  {
    FormPatch(Some(form.metkaRaw), Some(form.accountType), Some(form.login), Some(form.password))
  }

  /** Spreading two patches in turn equals spreading their right-biased overlay once. */
  function OverlayPatch(first: FormPatch, second: FormPatch): FormPatch
  {
    FormPatch(
      if second.metkaRaw.Some? then second.metkaRaw else first.metkaRaw,
      if second.accountType.Some? then second.accountType else first.accountType,
      if second.login.Some? then second.login else first.login,
      if second.password.Some? then second.password else first.password)
  }

  /** Spreading an empty patch changes nothing. */
  lemma MergeEmptyIsIdentity(form: AccountFormData)
    ensures MergeFormData(form, EmptyPatch) == form
  {
  }

  /** A patch that supplies every property replaces the whole form. */
  lemma MergeFullReplaces(form: AccountFormData, other: AccountFormData)
    ensures MergeFormData(form, FullPatch(other)) == other
  {
  }

  /** Spreading the same patch twice is the same as spreading it once. */
  lemma MergeIdempotent(form: AccountFormData, patch: FormPatch)
    ensures MergeFormData(MergeFormData(form, patch), patch) == MergeFormData(form, patch)
  {
  }

  /** Two successive spreads compose into one spread of the overlaid patch. */
  lemma MergeCompose(form: AccountFormData, first: FormPatch, second: FormPatch)
    ensures MergeFormData(MergeFormData(form, first), second)
         == MergeFormData(form, OverlayPatch(first, second))
  {
  }
}
