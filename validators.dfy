/**
 * The zod schemas of the server (password, register, login, billing, product,
 * outfit and the strict update schema) and `validateSchema`, which keeps only
 * the first issue's message.
 *
 * zod reports the issues of an object field by field in the order the schema
 * declares them, and the strict schema's unknown-key issue after them; the
 * model keeps that order.
 */
module Validators {
  import opened Wrappers
  import opened Text
  import opened Types
  import opened Json

  /** The outcome of `schema.safeParse`: the parsed data, or the issue messages. */
  datatype Parsed<T> = Valid(value: T) | Invalid(issues: seq<string>)

  function IssuesOf<T>(p: Parsed<T>): seq<string> {
    if p.Valid? then [] else p.issues
  }

  /** zod's `invalid_type` message; an `undefined` value is reported as "Required". */
  function TypeIssue(expected: string, v: Option<Json>): string {
    if v.None? then "Required" else "Expected " + expected + ", received " + TypeName(v.value)
  }

  /** zod's rendering of an enum's literals: `'a' | 'b' | 'c'`. */
  function JoinValues(names: seq<string>): string {
    if names == [] then ""
    else if |names| == 1 then "'" + names[0] + "'"
    else "'" + names[0] + "' | " + JoinValues(names[1..])
  }

  const PasswordMessage := "Password requirements not met"
  const NameMessage := "Name is required"
  const EmailMessage := "Invalid email format"
  const LoginPasswordMessage := "Password is required"
  const MinOneMessage := "String must contain at least 1 character(s)"
  const DefaultEmailMessage := "Invalid email"
  const UnrecognizedKeysMessage := "Unrecognized key(s) in object"
  const FallbackMessage := "Validation failed"

  // ---------------------------------------------------------------- passwordSchema

  predicate IsDigit(c: char) { '0' <= c <= '9' }

  predicate IsLetterOrDigit(c: char) { 'A' <= c <= 'Z' || 'a' <= c <= 'z' || IsDigit(c) }

  /** The characters `.` does not match. */
  predicate IsLineTerminator(c: char) {
    c as int == 0x0A || c as int == 0x0D || c as int == 0x2028 || c as int == 0x2029
  }

  /** `(?=.*[A-Z])` at the start of the input. */
  predicate UpperAhead(s: string) {
    exists j :: 0 <= j < |s| && IsUpperAscii(s[j]) && forall k :: 0 <= k < j ==> !IsLineTerminator(s[k])
  }

  /** `(?=.*\d)` at the start of the input. */
  predicate DigitAhead(s: string) {
    exists j :: 0 <= j < |s| && IsDigit(s[j]) && forall k :: 0 <= k < j ==> !IsLineTerminator(s[k])
  }

  /** `/^(?=.*[A-Z])(?=.*\d)[A-Za-z\d]{8,}$/`, read as the regular expression it is. */
  predicate PasswordPattern(s: string) {
    UpperAhead(s) && DigitAhead(s) && |s| >= 8 && forall k :: 0 <= k < |s| ==> IsLetterOrDigit(s[k])
  }

  /** The password rule in plain words: at least 8 characters, ASCII letters and
      digits only, at least one capital A-Z and at least one digit. */
  ghost predicate StrongPassword(s: string) {
    && |s| >= 8
    && (forall k :: 0 <= k < |s| ==> IsLetterOrDigit(s[k]))
    && (exists j :: 0 <= j < |s| && IsUpperAscii(s[j]))
    && (exists j :: 0 <= j < |s| && IsDigit(s[j]))
  }

  lemma PasswordPatternMeaning(s: string)
    ensures PasswordPattern(s) <==> StrongPassword(s)
  {
    if StrongPassword(s) {
      var j :| 0 <= j < |s| && IsUpperAscii(s[j]);
      var d :| 0 <= d < |s| && IsDigit(s[d]);
      assert forall k :: 0 <= k < j ==> !IsLineTerminator(s[k]) by {
        forall k | 0 <= k < j ensures !IsLineTerminator(s[k]) { assert IsLetterOrDigit(s[k]); }
      }
      assert forall k :: 0 <= k < d ==> !IsLineTerminator(s[k]) by {
        forall k | 0 <= k < d ensures !IsLineTerminator(s[k]) { assert IsLetterOrDigit(s[k]); }
      }
    }
  }

  // ---------------------------------------------------------------- field parsers

  /** The string held by `f[key]`, if it is a string. */
  function StrAt(f: map<string, Json>, key: string): Option<string> {
    if key in f && f[key].JStr? then Some(f[key].s) else None
  }

  /** `z.string()`. */
  function StringValue(v: Option<Json>): (r: Parsed<string>)
    ensures r.Valid? <==> v.Some? && v.value.JStr?
    ensures r.Valid? ==> r.value == v.value.s
    ensures r.Invalid? ==> r.issues == [TypeIssue("string", v)]
  {
    if v.Some? && v.value.JStr? then Valid(v.value.s) else Invalid([TypeIssue("string", v)])
  }

  /** `z.string().regex(password, PasswordMessage)`. */
  function PasswordValue(v: Option<Json>): (r: Parsed<string>)
    ensures r.Valid? <==> v.Some? && v.value.JStr? && StrongPassword(v.value.s)
    ensures r.Valid? ==> r.value == v.value.s
    ensures r.Invalid? ==> |r.issues| == 1
  {
    match StringValue(v)
    case Invalid(i) => Invalid(i)
    case Valid(s) =>
      PasswordPatternMeaning(s);
      if PasswordPattern(s) then Valid(s) else Invalid([PasswordMessage])
  }

  /** `z.string().trim().min(1, msg)`: the trimmed text, which must not be empty. */
  function TrimmedNonEmpty(v: Option<Json>, msg: string): (r: Parsed<string>)
    ensures r.Valid? <==> v.Some? && v.value.JStr? && Trim(v.value.s) != ""
    ensures r.Valid? ==> r.value == Trim(v.value.s)
    ensures r.Invalid? ==> |r.issues| == 1
  {
    match StringValue(v)
    case Invalid(i) => Invalid(i)
    case Valid(s) => if |Trim(s)| < 1 then Invalid([msg]) else Valid(Trim(s))
  }

  /** `z.string().trim().email(msg)`: the trimmed text, which must pass the e-mail check. */
  function TrimmedEmail(isEmail: string -> bool, v: Option<Json>, msg: string): (r: Parsed<string>)
    ensures r.Valid? <==> v.Some? && v.value.JStr? && isEmail(Trim(v.value.s))
    ensures r.Valid? ==> r.value == Trim(v.value.s)
    ensures r.Invalid? ==> |r.issues| == 1
  {
    match StringValue(v)
    case Invalid(i) => Invalid(i)
    case Valid(s) => if isEmail(Trim(s)) then Valid(Trim(s)) else Invalid([msg])
  }

  /** `z.string().min(1, msg)`: no trimming. */
  function NonEmptyString(v: Option<Json>, msg: string): (r: Parsed<string>)
    ensures r.Valid? <==> v.Some? && v.value.JStr? && v.value.s != ""
    ensures r.Valid? ==> r.value == v.value.s
    ensures r.Invalid? ==> |r.issues| == 1
  {
    match StringValue(v)
    case Invalid(i) => Invalid(i)
    case Valid(s) => if |s| < 1 then Invalid([msg]) else Valid(s)
  }

  /** `z.string().trim()`. */
  function TrimmedString(v: Option<Json>): (r: Parsed<string>)
    ensures r.Valid? <==> v.Some? && v.value.JStr?
    ensures r.Valid? ==> r.value == Trim(v.value.s)
    ensures r.Invalid? ==> |r.issues| == 1
  {
    match StringValue(v)
    case Invalid(i) => Invalid(i)
    case Valid(s) => Valid(Trim(s))
  }

  /** `z.enum(names)`, with `parse` the reading of a literal. */
  function EnumValue<E>(v: Option<Json>, names: seq<string>, parse: string -> Option<E>): (r: Parsed<E>)
    ensures r.Valid? <==> v.Some? && v.value.JStr? && parse(v.value.s).Some?
    ensures r.Valid? ==> r.value == parse(v.value.s).value
    ensures r.Invalid? ==> |r.issues| == 1
  {
    match StringValue(v)
    case Invalid(_) => Invalid([TypeIssue(JoinValues(names), v)])
    case Valid(s) =>
      if parse(s).Some? then Valid(parse(s).value)
      else Invalid(["Invalid enum value. Expected " + JoinValues(names) + ", received '" + s + "'"])
  }

  /** `z.boolean()`. */
  function BoolValue(v: Option<Json>): (r: Parsed<bool>)
    ensures r.Valid? <==> v.Some? && v.value.JBool?
    ensures r.Valid? ==> r.value == v.value.b
    ensures r.Invalid? ==> |r.issues| == 1
  {
    if v.Some? && v.value.JBool? then Valid(v.value.b) else Invalid([TypeIssue("boolean", v)])
  }

  /** `z.number()`. */
  function NumberValue(v: Option<Json>): (r: Parsed<int>)
    ensures r.Valid? <==> v.Some? && v.value.JNum?
    ensures r.Valid? ==> r.value == v.value.n
    ensures r.Invalid? ==> |r.issues| == 1
  {
    if v.Some? && v.value.JNum? then Valid(v.value.n) else Invalid([TypeIssue("number", v)])
  }

  /** `.optional()`: an absent key parses to `None`; a present one as `p` says. */
  function Opt<T>(v: Option<Json>, p: Parsed<T>): (r: Parsed<Option<T>>)
    ensures v.None? ==> r == Valid(None)
    ensures v.Some? ==> (r.Valid? <==> p.Valid?)
    ensures v.Some? && p.Valid? ==> r.value == Some(p.value)
    ensures r.Invalid? ==> r.issues == p.issues
  {
    if v.None? then Valid(None) else if p.Valid? then Valid(Some(p.value)) else Invalid(p.issues)
  }

  /** The elements of `z.array(z.string())`, one issue per element that is not a string. */
  function StringItems(items: seq<Json>): (r: Parsed<seq<string>>)
    ensures r.Valid? <==> forall k :: 0 <= k < |items| ==> items[k].JStr?
    ensures r.Valid? ==> |r.value| == |items| && forall k :: 0 <= k < |items| ==> r.value[k] == items[k].s
    ensures r.Invalid? ==> |r.issues| > 0
  {
    if items == [] then Valid([])
    else
      var head := StringValue(Some(items[0]));
      var tail := StringItems(items[1..]);
      if head.Valid? && tail.Valid? then Valid([head.value] + tail.value)
      else Invalid(IssuesOf(head) + IssuesOf(tail))
  }

  /** The texts of a list of JSON strings. */
  function Strings(items: seq<Json>): seq<string>
    requires forall k :: 0 <= k < |items| ==> items[k].JStr?
  {
    seq(|items|, k requires 0 <= k < |items| => items[k].s)
  }

  /** `z.array(z.string())`. */
  function StringArray(v: Option<Json>): (r: Parsed<seq<string>>)
    ensures r.Valid? <==> v.Some? && v.value.JArr? && forall k :: 0 <= k < |v.value.items| ==> v.value.items[k].JStr?
    ensures r.Valid? ==> r.value == Strings(v.value.items)
    ensures r.Invalid? ==> |r.issues| > 0
  {
    if v.Some? && v.value.JArr? then StringItems(v.value.items) else Invalid([TypeIssue("array", v)])
  }

  // ---------------------------------------------------------------- productSchema, outfitSchema

  /** The keys `productSchema` reads; other keys are stripped. */
  const ProductKeys: set<string> := {"id", "name", "brand", "price", "type", "style", "image", "url"}

  /** `productSchema` (not strict: unknown keys are dropped). */
  function ParseProduct(j: Json): (r: Parsed<Product>)
    ensures r.Valid? <==>
      && j.JObj?
      && StrAt(j.fields, "id").Some? && StrAt(j.fields, "name").Some? && StrAt(j.fields, "brand").Some?
      && "price" in j.fields && j.fields["price"].JNum?
      && StrAt(j.fields, "type").Some? && StrAt(j.fields, "type").value in ProductTypeNames
      && StrAt(j.fields, "style").Some? && StrAt(j.fields, "style").value in StyleNames
      && StrAt(j.fields, "image").Some? && StrAt(j.fields, "url").Some?
    ensures r.Invalid? ==> |r.issues| > 0
  {
    if !j.JObj? then Invalid([TypeIssue("object", Some(j))])
    else
      var f := j.fields;
      var id := StringValue(Lookup(f, "id"));
      var name := StringValue(Lookup(f, "name"));
      var brand := StringValue(Lookup(f, "brand"));
      var price := NumberValue(Lookup(f, "price"));
      var kind := EnumValue(Lookup(f, "type"), ProductTypeNames, ParseProductType);
      var style := EnumValue(Lookup(f, "style"), StyleNames, ParseStyle);
      var image := StringValue(Lookup(f, "image"));
      var url := StringValue(Lookup(f, "url"));
      if id.Valid? && name.Valid? && brand.Valid? && price.Valid? && kind.Valid? && style.Valid?
         && image.Valid? && url.Valid?
      then Valid(Product(id.value, name.value, brand.value, price.value, kind.value, style.value, image.value, url.value))
      else Invalid(IssuesOf(id) + IssuesOf(name) + IssuesOf(brand) + IssuesOf(price) + IssuesOf(kind)
                   + IssuesOf(style) + IssuesOf(image) + IssuesOf(url))
  }

  /** A nested object schema at a key: an absent key is "Required". */
  function ProductAt(v: Option<Json>): (r: Parsed<Product>)
    ensures v.None? ==> r == Invalid(["Required"])
    ensures v.Some? ==> r == ParseProduct(v.value)
  {
    if v.None? then Invalid([TypeIssue("object", v)]) else ParseProduct(v.value)
  }

  /** `outfitSchema` (not strict). */
  function ParseOutfit(j: Json): (r: Parsed<Outfit>)
    ensures r.Valid? <==>
      && j.JObj?
      && StrAt(j.fields, "id").Some?
      && "top" in j.fields && ParseProduct(j.fields["top"]).Valid?
      && "bottom" in j.fields && ParseProduct(j.fields["bottom"]).Valid?
      && "shoes" in j.fields && ParseProduct(j.fields["shoes"]).Valid?
      && StrAt(j.fields, "dateCreated").Some?
    ensures r.Invalid? ==> |r.issues| > 0
  {
    if !j.JObj? then Invalid([TypeIssue("object", Some(j))])
    else
      var f := j.fields;
      var id := StringValue(Lookup(f, "id"));
      var top := ProductAt(Lookup(f, "top"));
      var bottom := ProductAt(Lookup(f, "bottom"));
      var shoes := ProductAt(Lookup(f, "shoes"));
      var date := StringValue(Lookup(f, "dateCreated"));
      if id.Valid? && top.Valid? && bottom.Valid? && shoes.Valid? && date.Valid?
      then Valid(Outfit(id.value, top.value, bottom.value, shoes.value, date.value))
      else Invalid(IssuesOf(id) + IssuesOf(top) + IssuesOf(bottom) + IssuesOf(shoes) + IssuesOf(date))
  }

  /** The elements of `z.array(schema)`, parsed one by one; the issues of every
      failing element, in order. */
  function Items<T>(items: seq<Json>, parse: Json -> Parsed<T>): (r: Parsed<seq<T>>)
    requires forall j :: parse(j).Invalid? ==> |parse(j).issues| > 0
    ensures r.Valid? <==> forall k :: 0 <= k < |items| ==> parse(items[k]).Valid?
    ensures r.Valid? ==> |r.value| == |items| && forall k :: 0 <= k < |items| ==> r.value[k] == parse(items[k]).value
    ensures r.Invalid? ==> |r.issues| > 0
  {
    if items == [] then Valid([])
    else
      var head := parse(items[0]);
      var tail := Items(items[1..], parse);
      if head.Valid? && tail.Valid? then Valid([head.value] + tail.value)
      else Invalid(IssuesOf(head) + IssuesOf(tail))
  }

  function OutfitItems(items: seq<Json>): (r: Parsed<seq<Outfit>>)
    ensures r.Valid? <==> forall k :: 0 <= k < |items| ==> ParseOutfit(items[k]).Valid?
    ensures r.Valid? ==> |r.value| == |items| && forall k :: 0 <= k < |items| ==> r.value[k] == ParseOutfit(items[k]).value
    ensures r.Invalid? ==> |r.issues| > 0
  {
    Items(items, ParseOutfit)
  }

  /** Every item passes `outfitSchema`. */
  predicate OutfitsValid(items: seq<Json>) {
    forall k :: 0 <= k < |items| ==> ParseOutfit(items[k]).Valid?
  }

  /** The outfits `outfitSchema` reads from such items. */
  function Outfits(items: seq<Json>): seq<Outfit>
    requires OutfitsValid(items)
  {
    seq(|items|, k requires 0 <= k < |items| => ParseOutfit(items[k]).value)
  }

  /** `z.array(outfitSchema)`. */
  function OutfitArray(v: Option<Json>): (r: Parsed<seq<Outfit>>)
    ensures r.Valid? <==> v.Some? && v.value.JArr? && OutfitsValid(v.value.items)
    ensures r.Valid? ==> r.value == Outfits(v.value.items)
    ensures r.Invalid? ==> |r.issues| > 0
  {
    if v.Some? && v.value.JArr? then OutfitItems(v.value.items) else Invalid([TypeIssue("array", v)])
  }

  // ---------------------------------------------------------------- billingSchema

  /** `billingSchema`: five optional trimmed strings; unknown keys are dropped. */
  function ParseBilling(v: Option<Json>): (r: Parsed<Billing>)
    ensures r.Valid? <==> v.Some? && v.value.JObj? && BillingShape(v.value.fields)
    ensures r.Valid? ==> r.value == Billing(
      TrimmedAt(v.value.fields, "accountNumber"), TrimmedAt(v.value.fields, "fiscalName"),
      TrimmedAt(v.value.fields, "cif"), TrimmedAt(v.value.fields, "fiscalAddress"),
      TrimmedAt(v.value.fields, "legalRep"))
    ensures r.Invalid? ==> |r.issues| > 0
  {
    if !(v.Some? && v.value.JObj?) then Invalid([TypeIssue("object", v)])
    else
      var f := v.value.fields;
      var a := Opt(Lookup(f, "accountNumber"), TrimmedString(Lookup(f, "accountNumber")));
      var n := Opt(Lookup(f, "fiscalName"), TrimmedString(Lookup(f, "fiscalName")));
      var c := Opt(Lookup(f, "cif"), TrimmedString(Lookup(f, "cif")));
      var d := Opt(Lookup(f, "fiscalAddress"), TrimmedString(Lookup(f, "fiscalAddress")));
      var l := Opt(Lookup(f, "legalRep"), TrimmedString(Lookup(f, "legalRep")));
      if a.Valid? && n.Valid? && c.Valid? && d.Valid? && l.Valid?
      then Valid(Billing(a.value, n.value, c.value, d.value, l.value))
      else Invalid(IssuesOf(a) + IssuesOf(n) + IssuesOf(c) + IssuesOf(d) + IssuesOf(l))
  }

  /** A key the billing schema reads is absent or holds a string. */
  predicate StringOrAbsent(f: map<string, Json>, key: string) {
    key in f ==> f[key].JStr?
  }

  /** The five billing keys, where present, hold strings; other keys are ignored. */
  predicate BillingShape(f: map<string, Json>) {
    && StringOrAbsent(f, "accountNumber") && StringOrAbsent(f, "fiscalName") && StringOrAbsent(f, "cif")
    && StringOrAbsent(f, "fiscalAddress") && StringOrAbsent(f, "legalRep")
  }

  /** The trimmed string at a key that is absent or holds a string. */
  function TrimmedAt(f: map<string, Json>, key: string): Option<string>
    requires StringOrAbsent(f, key)
  {
    if key in f then Some(Trim(f[key].s)) else None
  }

  // ---------------------------------------------------------------- registerSchema, loginSchema

  datatype RegisterData = RegisterData(name: string, email: string, password: string)

  datatype LoginData = LoginData(email: string, password: string)

  /** `registerSchema`: a name that is not empty once trimmed, an e-mail whose trimmed
      form passes the check, and a strong password. The data holds the trimmed name
      and e-mail and the password as given. */
  function ParseRegister(isEmail: string -> bool, body: Json): (r: Parsed<RegisterData>)
    ensures r.Valid? <==>
      && body.JObj?
      && StrAt(body.fields, "name").Some? && Trim(StrAt(body.fields, "name").value) != ""
      && StrAt(body.fields, "email").Some? && isEmail(Trim(StrAt(body.fields, "email").value))
      && StrAt(body.fields, "password").Some? && StrongPassword(StrAt(body.fields, "password").value)
    ensures r.Valid? ==> r.value == RegisterData(
      Trim(StrAt(body.fields, "name").value), Trim(StrAt(body.fields, "email").value),
      StrAt(body.fields, "password").value)
    ensures r.Invalid? ==> |r.issues| > 0
    ensures body.JObj? && StrAt(body.fields, "name").Some? && Trim(StrAt(body.fields, "name").value) == ""
            ==> r.Invalid? && r.issues[0] == NameMessage
  {
    if !body.JObj? then Invalid([TypeIssue("object", Some(body))])
    else
      var f := body.fields;
      var name := TrimmedNonEmpty(Lookup(f, "name"), NameMessage);
      var email := TrimmedEmail(isEmail, Lookup(f, "email"), EmailMessage);
      var password := PasswordValue(Lookup(f, "password"));
      if name.Valid? && email.Valid? && password.Valid?
      then Valid(RegisterData(name.value, email.value, password.value))
      else Invalid(IssuesOf(name) + IssuesOf(email) + IssuesOf(password))
  }

  /** `loginSchema`: an e-mail as in registration and any non-empty password; there
      is no strength rule at login. */
  function ParseLogin(isEmail: string -> bool, body: Json): (r: Parsed<LoginData>)
    ensures r.Valid? <==>
      && body.JObj?
      && StrAt(body.fields, "email").Some? && isEmail(Trim(StrAt(body.fields, "email").value))
      && StrAt(body.fields, "password").Some? && StrAt(body.fields, "password").value != ""
    ensures r.Valid? ==> r.value == LoginData(
      Trim(StrAt(body.fields, "email").value), StrAt(body.fields, "password").value)
    ensures r.Invalid? ==> |r.issues| > 0
  {
    if !body.JObj? then Invalid([TypeIssue("object", Some(body))])
    else
      var f := body.fields;
      var email := TrimmedEmail(isEmail, Lookup(f, "email"), EmailMessage);
      var password := NonEmptyString(Lookup(f, "password"), LoginPasswordMessage);
      if email.Valid? && password.Valid? then Valid(LoginData(email.value, password.value))
      else Invalid(IssuesOf(email) + IssuesOf(password))
  }

  // ---------------------------------------------------------------- updateUserSchema

  /** The parsed update: a key the payload did not carry is `None`. */
  datatype UpdateData = UpdateData(
    name: Option<string>,
    email: Option<string>,
    plan: Option<PlanType>,
    stylePreference: Option<StyleCategory>,
    theme: Option<Theme>,
    language: Option<Language>,
    consent: Option<bool>,
    consentDate: Option<string>,
    favorites: Option<seq<string>>,
    outfits: Option<seq<Outfit>>,
    billing: Option<Billing>)

  const NoUpdate := UpdateData(None, None, None, None, None, None, None, None, None, None, None)

  /** The keys the strict update schema recognises. */
  const UpdateKeys: set<string> := {"name", "email", "plan", "stylePreference", "theme", "language",
                                    "consent", "consentDate", "favorites", "outfits", "billing"}

  /** A present key holding a string outside an enumeration's literals. */
  predicate OutsideEnum(f: map<string, Json>, key: string, names: seq<string>) {
    key in f && !(f[key].JStr? && f[key].s in names)
  }

  /** The first six fields of `updateUserSchema`: the profile preferences. */
  datatype PreferenceUpdate = PreferenceUpdate(
    name: Option<string>, email: Option<string>, plan: Option<PlanType>,
    stylePreference: Option<StyleCategory>, theme: Option<Theme>, language: Option<Language>)

  /** The last five fields of `updateUserSchema`: consent, collections and billing. */
  datatype RecordUpdate = RecordUpdate(
    consent: Option<bool>, consentDate: Option<string>, favorites: Option<seq<string>>,
    outfits: Option<seq<Outfit>>, billing: Option<Billing>)

  // What each update key must hold when present, and what the schema reads from it.

  /** `name`: a string that is not empty once trimmed. */
  predicate NameOk(f: map<string, Json>) {
    "name" in f ==> f["name"].JStr? && Trim(f["name"].s) != ""
  }

  /** `email`: a string whose trimmed form passes the e-mail check. */
  predicate EmailOk(isEmail: string -> bool, f: map<string, Json>) {
    "email" in f ==> f["email"].JStr? && isEmail(Trim(f["email"].s))
  }

  /** An enumeration key: a string among the literals `parse` reads. */
  predicate EnumOk<E>(f: map<string, Json>, key: string, parse: string -> Option<E>) {
    key in f ==> f[key].JStr? && parse(f[key].s).Some?
  }

  function EnumAt<E>(f: map<string, Json>, key: string, parse: string -> Option<E>): Option<E>
    requires EnumOk(f, key, parse)
  {
    if key in f then Some(parse(f[key].s).value) else None
  }

  predicate BoolOrAbsent(f: map<string, Json>, key: string) {
    key in f ==> f[key].JBool?
  }

  function BoolAt(f: map<string, Json>, key: string): Option<bool> {
    if key in f && f[key].JBool? then Some(f[key].b) else None
  }

  /** `favorites`: an array of strings. */
  predicate StringsOrAbsent(f: map<string, Json>, key: string) {
    key in f ==> f[key].JArr? && forall k :: 0 <= k < |f[key].items| ==> f[key].items[k].JStr?
  }

  function StringsAt(f: map<string, Json>, key: string): Option<seq<string>>
    requires StringsOrAbsent(f, key)
  {
    if key in f then Some(Strings(f[key].items)) else None
  }

  /** `outfits`: an array of valid outfits. */
  predicate OutfitsOrAbsent(f: map<string, Json>, key: string) {
    key in f ==> f[key].JArr? && OutfitsValid(f[key].items)
  }

  function OutfitsAt(f: map<string, Json>, key: string): Option<seq<Outfit>>
    requires OutfitsOrAbsent(f, key)
  {
    if key in f then Some(Outfits(f[key].items)) else None
  }

  /** `billing`: an object the billing schema accepts. */
  predicate BillingOrAbsent(f: map<string, Json>, key: string) {
    key in f ==> f[key].JObj? && BillingShape(f[key].fields)
  }

  function BillingAt(f: map<string, Json>, key: string): Option<Billing>
    requires BillingOrAbsent(f, key)
  {
    if key in f then
      var b := f[key].fields;
      Some(Billing(TrimmedAt(b, "accountNumber"), TrimmedAt(b, "fiscalName"), TrimmedAt(b, "cif"),
                   TrimmedAt(b, "fiscalAddress"), TrimmedAt(b, "legalRep")))
    else None
  }

  predicate TextShape(isEmail: string -> bool, f: map<string, Json>) {
    NameOk(f) && EmailOk(isEmail, f)
  }

  predicate ChoiceShape(f: map<string, Json>) {
    && EnumOk(f, "plan", ParsePlan) && EnumOk(f, "stylePreference", ParseStyle)
    && EnumOk(f, "theme", ParseTheme) && EnumOk(f, "language", ParseLanguage)
  }

  predicate ConsentShape(f: map<string, Json>) {
    BoolOrAbsent(f, "consent") && StringOrAbsent(f, "consentDate")
  }

  predicate CollectionShape(f: map<string, Json>) {
    StringsOrAbsent(f, "favorites") && OutfitsOrAbsent(f, "outfits") && BillingOrAbsent(f, "billing")
  }

  /** Every update key, where present, holds what its schema accepts. */
  predicate UpdateShape(isEmail: string -> bool, f: map<string, Json>) {
    TextShape(isEmail, f) && ChoiceShape(f) && ConsentShape(f) && CollectionShape(f)
  }

  /** The update such a body means: each present key read by its schema, with the
      name, the e-mail and the billing strings trimmed. */
  function UpdateValue(isEmail: string -> bool, f: map<string, Json>): UpdateData
    requires UpdateShape(isEmail, f)
  {
    UpdateData(
      TrimmedAt(f, "name"), TrimmedAt(f, "email"),
      EnumAt(f, "plan", ParsePlan), EnumAt(f, "stylePreference", ParseStyle),
      EnumAt(f, "theme", ParseTheme), EnumAt(f, "language", ParseLanguage),
      BoolAt(f, "consent"), StrAt(f, "consentDate"),
      StringsAt(f, "favorites"), OutfitsAt(f, "outfits"), BillingAt(f, "billing"))
  }

  /** `name` and `email`, the two text fields. */
  function TextFields(isEmail: string -> bool, f: map<string, Json>): (r: Parsed<(Option<string>, Option<string>)>)
    ensures r.Valid? <==> TextShape(isEmail, f)
    ensures r.Valid? ==> r.value == (TrimmedAt(f, "name"), TrimmedAt(f, "email"))
    ensures r.Invalid? ==> |r.issues| > 0
  {
    var name := Opt(Lookup(f, "name"), TrimmedNonEmpty(Lookup(f, "name"), MinOneMessage));
    var email := Opt(Lookup(f, "email"), TrimmedEmail(isEmail, Lookup(f, "email"), DefaultEmailMessage));
    if name.Valid? && email.Valid? then Valid((name.value, email.value))
    else Invalid(IssuesOf(name) + IssuesOf(email))
  }

  /** `z.enum(names).optional()` at a key. */
  function OptEnum<E>(f: map<string, Json>, key: string, names: seq<string>, parse: string -> Option<E>)
    : (r: Parsed<Option<E>>)
    ensures r.Valid? <==> EnumOk(f, key, parse)
    ensures r.Valid? ==> r.value == EnumAt(f, key, parse)
    ensures r.Invalid? ==> |r.issues| > 0
  {
    Opt(Lookup(f, key), EnumValue(Lookup(f, key), names, parse))
  }

  /** `plan`, `stylePreference`, `theme` and `language`, the four enumerations. */
  function ChoiceFields(f: map<string, Json>)
    : (r: Parsed<(Option<PlanType>, Option<StyleCategory>, Option<Theme>, Option<Language>)>)
    ensures r.Valid? <==> ChoiceShape(f)
    ensures r.Valid? ==> r.value == (EnumAt(f, "plan", ParsePlan), EnumAt(f, "stylePreference", ParseStyle),
                                     EnumAt(f, "theme", ParseTheme), EnumAt(f, "language", ParseLanguage))
    ensures r.Invalid? ==> |r.issues| > 0
  {
    var plan := OptEnum(f, "plan", PlanNames, ParsePlan);
    var style := OptEnum(f, "stylePreference", StyleNames, ParseStyle);
    var theme := OptEnum(f, "theme", ThemeNames, ParseTheme);
    var language := OptEnum(f, "language", LanguageNames, ParseLanguage);
    if plan.Valid? && style.Valid? && theme.Valid? && language.Valid?
    then Valid((plan.value, style.value, theme.value, language.value))
    else Invalid(IssuesOf(plan) + IssuesOf(style) + IssuesOf(theme) + IssuesOf(language))
  }

  /** The six preference fields, their issues in declaration order. */
  function PreferenceFields(isEmail: string -> bool, f: map<string, Json>): (r: Parsed<PreferenceUpdate>)
    ensures r.Valid? <==> TextShape(isEmail, f) && ChoiceShape(f)
    ensures r.Valid? ==> r.value == PreferenceUpdate(
      TrimmedAt(f, "name"), TrimmedAt(f, "email"), EnumAt(f, "plan", ParsePlan),
      EnumAt(f, "stylePreference", ParseStyle), EnumAt(f, "theme", ParseTheme), EnumAt(f, "language", ParseLanguage))
    ensures r.Invalid? ==> |r.issues| > 0
  {
    var text := TextFields(isEmail, f);
    var choice := ChoiceFields(f);
    if text.Valid? && choice.Valid?
    then Valid(PreferenceUpdate(text.value.0, text.value.1, choice.value.0, choice.value.1, choice.value.2,
                                choice.value.3))
    else Invalid(IssuesOf(text) + IssuesOf(choice))
  }

  /** `consent` and `consentDate`. */
  function ConsentFields(f: map<string, Json>): (r: Parsed<(Option<bool>, Option<string>)>)
    ensures r.Valid? <==> ConsentShape(f)
    ensures r.Valid? ==> r.value == (BoolAt(f, "consent"), StrAt(f, "consentDate"))
    ensures r.Invalid? ==> |r.issues| > 0
  {
    var consent := Opt(Lookup(f, "consent"), BoolValue(Lookup(f, "consent")));
    var date := Opt(Lookup(f, "consentDate"), StringValue(Lookup(f, "consentDate")));
    if consent.Valid? && date.Valid? then Valid((consent.value, date.value))
    else Invalid(IssuesOf(consent) + IssuesOf(date))
  }

  /** `favorites`, `outfits` and `billing`. */
  function CollectionFields(f: map<string, Json>): (r: Parsed<(Option<seq<string>>, Option<seq<Outfit>>, Option<Billing>)>)
    ensures r.Valid? <==> CollectionShape(f)
    ensures r.Valid? ==> r.value == (StringsAt(f, "favorites"), OutfitsAt(f, "outfits"), BillingAt(f, "billing"))
    ensures r.Invalid? ==> |r.issues| > 0
  {
    var favorites := Opt(Lookup(f, "favorites"), StringArray(Lookup(f, "favorites")));
    var outfits := Opt(Lookup(f, "outfits"), OutfitArray(Lookup(f, "outfits")));
    var billing := Opt(Lookup(f, "billing"), ParseBilling(Lookup(f, "billing")));
    if favorites.Valid? && outfits.Valid? && billing.Valid? then Valid((favorites.value, outfits.value, billing.value))
    else Invalid(IssuesOf(favorites) + IssuesOf(outfits) + IssuesOf(billing))
  }

  /** The five record fields, their issues in declaration order. */
  function RecordFields(f: map<string, Json>): (r: Parsed<RecordUpdate>)
    ensures r.Valid? <==> ConsentShape(f) && CollectionShape(f)
    ensures r.Valid? ==> r.value == RecordUpdate(
      BoolAt(f, "consent"), StrAt(f, "consentDate"), StringsAt(f, "favorites"), OutfitsAt(f, "outfits"),
      BillingAt(f, "billing"))
    ensures r.Invalid? ==> |r.issues| > 0
  {
    var consent := ConsentFields(f);
    var collections := CollectionFields(f);
    if consent.Valid? && collections.Valid?
    then Valid(RecordUpdate(consent.value.0, consent.value.1, collections.value.0, collections.value.1,
                            collections.value.2))
    else Invalid(IssuesOf(consent) + IssuesOf(collections))
  }

  /** The fields of `updateUserSchema` in declaration order, each optional and
      constrained when present. */
  function UpdateFields(isEmail: string -> bool, f: map<string, Json>): (r: Parsed<UpdateData>)
    ensures r.Valid? <==> UpdateShape(isEmail, f)
    ensures r.Valid? ==> r.value == UpdateValue(isEmail, f)
    ensures r.Invalid? ==> |r.issues| > 0
  {
    var p := PreferenceFields(isEmail, f);
    var q := RecordFields(f);
    if p.Valid? && q.Valid?
    then Valid(UpdateData(p.value.name, p.value.email, p.value.plan, p.value.stylePreference, p.value.theme,
                          p.value.language, q.value.consent, q.value.consentDate, q.value.favorites,
                          q.value.outfits, q.value.billing))
    else Invalid(IssuesOf(p) + IssuesOf(q))
  }

  /** The parsed update carries exactly the keys the body carries. */
  lemma UpdatePresence(isEmail: string -> bool, f: map<string, Json>)
    requires UpdateShape(isEmail, f)
    ensures PresenceMatches(UpdateValue(isEmail, f), f)
  {
  }

  /** A present `plan`, `stylePreference`, `theme` or `language` must be one of its literals. */
  lemma UpdateEnumsChecked(isEmail: string -> bool, f: map<string, Json>)
    ensures OutsideEnum(f, "plan", PlanNames) ==> UpdateFields(isEmail, f).Invalid?
    ensures OutsideEnum(f, "stylePreference", StyleNames) ==> UpdateFields(isEmail, f).Invalid?
    ensures OutsideEnum(f, "theme", ThemeNames) ==> UpdateFields(isEmail, f).Invalid?
    ensures OutsideEnum(f, "language", LanguageNames) ==> UpdateFields(isEmail, f).Invalid?
  {
  }

  /** A name that passes is trimmed and not empty; an e-mail that passes is checked. */
  lemma UpdateTextChecked(isEmail: string -> bool, f: map<string, Json>)
    ensures var r := UpdateFields(isEmail, f);
      r.Valid? && r.value.name.Some? ==> Trimmed(r.value.name.value) && r.value.name.value != ""
    ensures var r := UpdateFields(isEmail, f);
      r.Valid? && r.value.email.Some? ==> isEmail(r.value.email.value) && Trimmed(r.value.email.value)
  {
  }

  /** `updateUserSchema`, which is `.strict()`: any top-level key it does not
      recognise fails, its issue reported after the fields' issues. */
  function ParseUpdate(isEmail: string -> bool, body: Json): (r: Parsed<UpdateData>)
    ensures !body.JObj? ==> r == Invalid([TypeIssue("object", Some(body))])
    ensures r.Valid? <==> body.JObj? && body.fields.Keys <= UpdateKeys && UpdateShape(isEmail, body.fields)
    ensures r.Valid? ==> r.value == UpdateValue(isEmail, body.fields)
    ensures body.JObj? && !(body.fields.Keys <= UpdateKeys) ==>
              r.Invalid? && |r.issues| > 0 && r.issues[|r.issues| - 1] == UnrecognizedKeysMessage
    ensures body.JObj? && body.fields.Keys <= UpdateKeys ==> r == UpdateFields(isEmail, body.fields)
    ensures r.Invalid? ==> |r.issues| > 0
  {
    if !body.JObj? then Invalid([TypeIssue("object", Some(body))])
    else
      var fields := UpdateFields(isEmail, body.fields);
      if body.fields.Keys <= UpdateKeys then fields
      else Invalid(IssuesOf(fields) + [UnrecognizedKeysMessage])
  }

  /** The parsed update carries exactly the keys the payload carried. */
  predicate PresenceMatches(u: UpdateData, f: map<string, Json>) {
    && (u.name.Some? <==> "name" in f)
    && (u.email.Some? <==> "email" in f)
    && (u.plan.Some? <==> "plan" in f)
    && (u.stylePreference.Some? <==> "stylePreference" in f)
    && (u.theme.Some? <==> "theme" in f)
    && (u.language.Some? <==> "language" in f)
    && (u.consent.Some? <==> "consent" in f)
    && (u.consentDate.Some? <==> "consentDate" in f)
    && (u.favorites.Some? <==> "favorites" in f)
    && (u.outfits.Some? <==> "outfits" in f)
    && (u.billing.Some? <==> "billing" in f)
  }

  /** Every update key is optional: the empty payload is valid and changes nothing. */
  lemma EmptyUpdateIsValid(isEmail: string -> bool)
    ensures ParseUpdate(isEmail, JObj(map[])) == Valid(NoUpdate)
  {
  }

  // ---------------------------------------------------------------- validateSchema

  /** The two shapes `validateSchema` returns. */
  datatype Validation<T> = Success(data: T) | Failure(message: string)

  /** `validateSchema`: the parsed data, or the first issue's message, falling back
      to "Validation failed" when there is no issue or its message is empty. */
  function ValidateSchema<T>(p: Parsed<T>): (v: Validation<T>)
    ensures v.Success? <==> p.Valid?
    ensures v.Success? ==> v.data == p.value
    ensures v.Failure? ==> v.message != ""
    ensures v.Failure? && |p.issues| > 0 && p.issues[0] != "" ==> v.message == p.issues[0]
    ensures v.Failure? && (p.issues == [] || p.issues[0] == "") ==> v.message == FallbackMessage
  {
    match p
    case Valid(d) => Success(d)
    case Invalid(issues) => Failure(if |issues| > 0 && issues[0] != "" then issues[0] else FallbackMessage)
  }
}
