/**
 * The mongoose `User` schema: a stored account, the record `new User({...})`
 * builds (setters and defaults), the `required` validators and the document's
 * `toObject()` form.
 */
module UserModel {
  import opened Wrappers
  import opened Text
  import opened Types
  import opened Json

  /** A stored account document; `version` is mongoose's `__v`. */
  datatype Account = Account(
    id: string,
    name: string,
    email: string,
    password: string,
    plan: PlanType,
    stylePreference: StyleCategory,
    theme: Theme,
    language: Language,
    favorites: seq<string>,
    outfits: seq<Outfit>,
    consent: bool,
    consentDate: Option<string>,
    billing: Option<Billing>,
    version: int)

  /** The e-mail path's `lowercase` and `trim` setters. */
  function EmailSetter(e: string): (r: string)
    ensures Trimmed(r)
    ensures forall k :: 0 <= k < |r| ==> !IsUpperAscii(r[k])
    ensures r == ToLower(Trim(e))
  {
    LowerTrimCommute(e);
    Trim(ToLower(e))
  }

  /** The name path's `trim` setter. */
  function NameSetter(n: string): (r: string)
    ensures Trimmed(r)
  {
    Trim(n)
  }

  /** `new User({ name, email, password })`: the setters run on the given values
      and every other path takes its schema default. */
  function NewAccount(id: string, name: string, email: string, password: string): (a: Account)
    ensures a.id == id && a.password == password
    ensures a.name == Trim(name) && a.email == ToLower(Trim(email))
    ensures a.plan == Free && a.stylePreference == Casual && a.theme == Light && a.language == Es
    ensures !a.consent && a.consentDate.None? && a.billing.None?
    ensures a.favorites == [] && a.outfits == [] && a.version == 0
  {
    Account(id, NameSetter(name), EmailSetter(email), password, Free, Casual, Light, Es, [], [], false, None, None, 0)
  }

  /** The `required` validators: mongoose rejects a missing or empty string. */
  predicate MissingRequired(a: Account) {
    a.name == "" || a.email == "" || a.password == ""
  }

  /** The paths every account document holds. */
  const AlwaysKeys: set<string> := {"_id", "name", "email", "password", "plan", "stylePreference", "theme",
                                    "language", "favorites", "outfits", "consent", "__v"}

  /** The stored value of one of the `AlwaysKeys` paths. */
  function PathValue(a: Account, key: string): Json {
    if key == "_id" then JStr(a.id)
    else if key == "name" then JStr(a.name)
    else if key == "email" then JStr(a.email)
    else if key == "password" then JStr(a.password)
    else if key == "plan" then JStr(PlanName(a.plan))
    else if key == "stylePreference" then JStr(StyleName(a.stylePreference))
    else if key == "theme" then JStr(ThemeName(a.theme))
    else if key == "language" then JStr(LanguageName(a.language))
    else if key == "favorites" then JArr(StringsToJson(a.favorites))
    else if key == "outfits" then JArr(OutfitsToJson(a.outfits))
    else if key == "consent" then JBool(a.consent)
    else JNum(a.version)
  }

  function PathValues(a: Account): (r: map<string, Json>)
    ensures r.Keys == AlwaysKeys
    ensures r["_id"] == JStr(a.id) && r["email"] == JStr(a.email) && r["password"] == JStr(a.password)
  {
    map key | key in AlwaysKeys :: PathValue(a, key)
  }

  /** Whether `toObject` shows the billing record: mongoose's default `minimize`
      drops a nested object with no defined field, so a set but empty record is
      left out like an unset one (`BillingToJsonEmpty` says which record that is). */
  predicate BillingShown(a: Account) {
    a.billing.Some? && a.billing.value != EmptyBilling
  }

  /** `doc.toObject()`: every path that holds a value, with `_id` and `__v`; the
      optional `consentDate` when set, and `billing` when set and not empty. */
  function ToObject(a: Account): (r: map<string, Json>)
    ensures r.Keys == AlwaysKeys + (if a.consentDate.Some? then {"consentDate"} else {})
                                 + (if BillingShown(a) then {"billing"} else {})
    ensures r["_id"] == JStr(a.id) && r["email"] == JStr(a.email) && r["password"] == JStr(a.password)
    ensures a.consentDate.Some? ==> r["consentDate"] == JStr(a.consentDate.value)
    ensures BillingShown(a) ==> r["billing"] == BillingToJson(a.billing.value) && r["billing"].fields != map[]
    ensures a.billing.Some? && BillingToJson(a.billing.value).fields == map[] ==> "billing" !in r
  {
    BillingToJsonEmpty(a.billing.GetOr(EmptyBilling));
    var paths := PathValues(a);
    var dated := if a.consentDate.Some? then paths["consentDate" := JStr(a.consentDate.value)] else paths;
    if BillingShown(a) then dated["billing" := BillingToJson(a.billing.value)] else dated
  }
}
