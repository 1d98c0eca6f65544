/**
 * How the client and the server fit together: the token the server issues
 * and the client sends back, the payloads the pages produce and what the
 * schemas make of them, and the server's merge of a downgrade.
 */
module Protocol {
  import opened Wrappers
  import opened Text
  import opened Types
  import opened Json
  import opened Libraries
  import opened Validators
  import opened UserModel
  import opened AuthGate
  import opened Server
  import opened Api
  import Profile
  import AuthPage

  /** A product written by the client's encoder is read back unchanged by the
      server's product schema. */
  lemma ProductRoundTrip(p: Product)
    ensures ParseProduct(ProductToJson(p)) == Valid(p)
  {
    ProductFields(p);
    ParseProductTypeName(p.productType);
    ParseStyleName(p.style);
  }

  lemma ProductFields(p: Product)
    ensures var f := ProductToJson(p).fields;
      && Lookup(f, "id") == Some(JStr(p.id)) && Lookup(f, "name") == Some(JStr(p.name))
      && Lookup(f, "brand") == Some(JStr(p.brand)) && Lookup(f, "price") == Some(JNum(p.price))
      && Lookup(f, "type") == Some(JStr(ProductTypeName(p.productType)))
      && Lookup(f, "style") == Some(JStr(StyleName(p.style)))
      && Lookup(f, "image") == Some(JStr(p.image)) && Lookup(f, "url") == Some(JStr(p.url))
  {
  }

  lemma ProductAtRoundTrip(p: Product)
    ensures ProductAt(Some(ProductToJson(p))) == Valid(p)
  {
    ProductRoundTrip(p);
  }

  lemma OutfitFields(o: Outfit)
    ensures var f := OutfitToJson(o).fields;
      && Lookup(f, "id") == Some(JStr(o.id)) && Lookup(f, "top") == Some(ProductToJson(o.top))
      && Lookup(f, "bottom") == Some(ProductToJson(o.bottom))
      && Lookup(f, "shoes") == Some(ProductToJson(o.shoes))
      && Lookup(f, "dateCreated") == Some(JStr(o.dateCreated))
  {
  }

  lemma ParseProductTypeName(t: ProductType)
    ensures ParseProductType(ProductTypeName(t)) == Some(t)
  {
  }

  lemma ParseStyleName(s: StyleCategory)
    ensures ParseStyle(StyleName(s)) == Some(s)
  {
  }

  /** The same for an outfit and its three products. */
  lemma OutfitRoundTrip(o: Outfit)
    ensures ParseOutfit(OutfitToJson(o)) == Valid(o)
  {
    OutfitFields(o);
    ProductAtRoundTrip(o.top);
    ProductAtRoundTrip(o.bottom);
    ProductAtRoundTrip(o.shoes);
  }

  /** The header the client builds around a token the server issued opens the
      gate as that account until the token expires. */
  lemma ClientHeaderOpensGate(client: ApiClient, libs: ServerLibs, secret: string, userId: string, issued: int, now: int)
    requires JwtSound(libs)
    requires client.authToken == Some(CreateToken(libs, secret, userId, issued))
    requires client.HasToken()
    requires now < issued + TokenLifetime
    ensures "Authorization" in client.Headers(map[])
    ensures Gate(libs, secret, Some(client.Headers(map[])["Authorization"]), now) == Pass(AuthInfo(Some(userId)))
  {
    IssuedTokenAuthenticates(libs, secret, userId, issued, now);
  }

  /** The sign-up payload passes the server's schema exactly when the client's
      password rule holds and the name and e-mail pass. */
  lemma SignUpPayloadAccepted(isEmail: string -> bool, name: string, email: string, password: string)
    ensures ParseRegister(isEmail, AuthPayloadJson(AuthPage.SubmitPayload(name, email, password))).Valid?
            <==> Trim(name) != "" && isEmail(Trim(email)) && AuthPage.ValidatePassword(password)
  {
    SignUpFields(name, email, password);
    AuthPage.ClientRuleMatchesServer(password);
  }

  lemma SignUpFields(name: string, email: string, password: string)
    ensures var j := AuthPayloadJson(AuthPage.SubmitPayload(name, email, password));
      && j.JObj? && StrAt(j.fields, "name") == Some(name)
      && StrAt(j.fields, "email") == Some(email) && StrAt(j.fields, "password") == Some(password)
  {
  }

  /** What the update schema should read from a patch the client sends: every key
      with a defined value, the name, the e-mail and the billing strings trimmed. */
  function PatchData(p: Patch): UpdateData {
    UpdateData(
      TrimmedOpt(p.name), TrimmedOpt(p.email), p.plan, p.stylePreference, p.theme, p.language, p.consent,
      if p.consentDate.SetTo? then Some(p.consentDate.value) else None,
      p.favorites, p.outfits,
      if p.billing.SetTo? then Some(TrimmedBilling(p.billing.value)) else None)
  }

  function TrimmedOpt(s: Option<string>): Option<string> {
    if s.Some? then Some(Trim(s.value)) else None
  }

  function TrimmedBilling(b: Billing): Billing {
    Billing(TrimmedOpt(b.accountNumber), TrimmedOpt(b.fiscalName), TrimmedOpt(b.cif),
            TrimmedOpt(b.fiscalAddress), TrimmedOpt(b.legalRep))
  }

  /** The patch's name and e-mail pass the update schema's text rules. */
  predicate PatchTextOk(isEmail: string -> bool, p: Patch) {
    && (p.name.Some? ==> Trim(p.name.value) != "")
    && (p.email.Some? ==> isEmail(Trim(p.email.value)))
  }

  /** Every body `updateUserRequest` sends passes `updateUserSchema` exactly when its
      name and e-mail pass, and the server then reads back the patch's defined keys. */
  lemma WireRoundTrip(isEmail: string -> bool, p: Patch)
    ensures ParseUpdate(isEmail, WirePatch(p)).Valid? <==> PatchTextOk(isEmail, p)
    ensures PatchTextOk(isEmail, p) ==> ParseUpdate(isEmail, WirePatch(p)) == Valid(PatchData(p))
  {
    assert WirePatch(p).fields.Keys <= UpdateKeys by { SameKeys(); }
    WireText(isEmail, p);
    WireChoices(p);
    WireConsent(p);
    WireCollections(p);
  }

  lemma WireText(isEmail: string -> bool, p: Patch)
    ensures TextShape(isEmail, WirePatch(p).fields) <==> PatchTextOk(isEmail, p)
    ensures PatchTextOk(isEmail, p) ==>
      TrimmedAt(WirePatch(p).fields, "name") == TrimmedOpt(p.name)
      && TrimmedAt(WirePatch(p).fields, "email") == TrimmedOpt(p.email)
  {
    WireKeys(p);
  }

  lemma WireChoices(p: Patch)
    ensures var f := WirePatch(p).fields;
      && ChoiceShape(f)
      && EnumAt(f, "plan", ParsePlan) == p.plan && EnumAt(f, "stylePreference", ParseStyle) == p.stylePreference
      && EnumAt(f, "theme", ParseTheme) == p.theme && EnumAt(f, "language", ParseLanguage) == p.language
  {
    WireKeys(p);
    if p.plan.Some? { ParsePlanName(p.plan.value); }
    if p.stylePreference.Some? { ParseStyleName(p.stylePreference.value); }
    if p.theme.Some? { ParseThemeName(p.theme.value); }
    if p.language.Some? { ParseLanguageName(p.language.value); }
  }

  lemma ParsePlanName(x: PlanType)
    ensures ParsePlan(PlanName(x)) == Some(x)
  {
  }

  lemma ParseThemeName(x: Theme)
    ensures ParseTheme(ThemeName(x)) == Some(x)
  {
  }

  lemma ParseLanguageName(x: Language)
    ensures ParseLanguage(LanguageName(x)) == Some(x)
  {
  }

  lemma WireConsent(p: Patch)
    ensures var f := WirePatch(p).fields;
      && ConsentShape(f)
      && BoolAt(f, "consent") == p.consent
      && StrAt(f, "consentDate") == (if p.consentDate.SetTo? then Some(p.consentDate.value) else None)
  {
    WireKeys(p);
  }

  lemma WireCollections(p: Patch)
    ensures var f := WirePatch(p).fields;
      && CollectionShape(f)
      && StringsAt(f, "favorites") == p.favorites && OutfitsAt(f, "outfits") == p.outfits
      && BillingAt(f, "billing") == (if p.billing.SetTo? then Some(TrimmedBilling(p.billing.value)) else None)
  {
    WireFavorites(p);
    WireOutfits(p);
    WireBilling(p);
  }

  lemma WireFavorites(p: Patch)
    ensures var f := WirePatch(p).fields;
      StringsOrAbsent(f, "favorites") && StringsAt(f, "favorites") == p.favorites
  {
    WireKeys(p);
    if p.favorites.Some? {
      assert WirePatch(p).fields["favorites"] == JArr(StringsToJson(p.favorites.value));
      StringsRoundTrip(p.favorites.value);
    }
  }

  lemma WireOutfits(p: Patch)
    ensures var f := WirePatch(p).fields;
      OutfitsOrAbsent(f, "outfits") && OutfitsAt(f, "outfits") == p.outfits
  {
    WireKeys(p);
    if p.outfits.Some? {
      assert WirePatch(p).fields["outfits"] == JArr(OutfitsToJson(p.outfits.value));
      OutfitsRoundTrip(p.outfits.value);
    }
  }

  lemma WireBilling(p: Patch)
    ensures var f := WirePatch(p).fields;
      && BillingOrAbsent(f, "billing")
      && BillingAt(f, "billing") == (if p.billing.SetTo? then Some(TrimmedBilling(p.billing.value)) else None)
  {
    WireKeys(p);
    if p.billing.SetTo? {
      assert WirePatch(p).fields["billing"] == BillingToJson(p.billing.value);
      BillingRoundTrip(p.billing.value);
    }
  }

  /** A list of strings the client writes is read back by `z.array(z.string())`. */
  lemma StringsRoundTrip(s: seq<string>)
    ensures var items := StringsToJson(s);
      (forall k :: 0 <= k < |items| ==> items[k].JStr?) && Strings(items) == s
  {
  }

  /** A list of outfits the client writes is read back by `z.array(outfitSchema)`. */
  lemma OutfitsRoundTrip(s: seq<Outfit>)
    ensures OutfitsValid(OutfitsToJson(s)) && Outfits(OutfitsToJson(s)) == s
  {
    var items := OutfitsToJson(s);
    forall k | 0 <= k < |items|
      ensures ParseOutfit(items[k]) == Valid(s[k])
    {
      OutfitRoundTrip(s[k]);
    }
  }

  /** A billing record the client writes is read back by `billingSchema`, trimmed. */
  lemma BillingRoundTrip(b: Billing)
    ensures var j := BillingToJson(b);
      j.JObj? && BillingShape(j.fields)
      && TrimmedAt(j.fields, "accountNumber") == TrimmedOpt(b.accountNumber)
      && TrimmedAt(j.fields, "fiscalName") == TrimmedOpt(b.fiscalName)
      && TrimmedAt(j.fields, "cif") == TrimmedOpt(b.cif)
      && TrimmedAt(j.fields, "fiscalAddress") == TrimmedOpt(b.fiscalAddress)
      && TrimmedAt(j.fields, "legalRep") == TrimmedOpt(b.legalRep)
  {
    BillingKeysDefined(b);
  }

  /** What the downgrade and the consent withdrawal send: `undefined` billing and
      consent date are dropped from the JSON, so the server sees only the plan and
      the consent flag. */
  lemma ClearingPatchOnTheWire(isEmail: string -> bool)
    ensures ParseUpdate(isEmail, WirePatch(Profile.ClearingPatch))
            == Valid(NoUpdate.(plan := Some(Free), consent := Some(false)))
  {
    WireRoundTrip(isEmail, Profile.ClearingPatch);
  }

  /** The keys the client sends are the keys the update schema recognises. */
  lemma SameKeys()
    ensures PatchKeys == UpdateKeys
  {
  }

  /** The server's merge of that update keeps the stored billing and consent date,
      so the free account it returns may still carry them. */
  lemma DowngradeKeepsServerBilling(a: Account)
    ensures var r := ApplyUpdate(a, NoUpdate.(plan := Some(Free), consent := Some(false)));
      r.plan == Free && !r.consent && r.billing == a.billing && r.consentDate == a.consentDate
  {
  }
}
