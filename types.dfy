/**
 * The data model shared by the client and the server: the enumerations,
 * Product, Outfit, the billing sub-record, the client's UserData and the
 * partial update (`Partial<UserData>`) that the pages hand to `updateUser`.
 */
module Types {
  import opened Wrappers

  datatype Language = Es | En | Cn
  datatype Theme = Light | Dark
  datatype PlanType = Free | Premium | Business
  datatype StyleCategory = Casual | Sport | Elegant | Informal | Work
  datatype ProductType = Top | Bottom | Shoes

  function LanguageName(l: Language): string {
    match l
    case Es => "es"
    case En => "en"
    case Cn => "cn"
  }

  function ThemeName(t: Theme): string {
    match t
    case Light => "light"
    case Dark => "dark"
  }

  function PlanName(p: PlanType): string {
    match p
    case Free => "free"
    case Premium => "premium"
    case Business => "business"
  }

  function StyleName(s: StyleCategory): string {
    match s
    case Casual => "casual"
    case Sport => "sport"
    case Elegant => "elegant"
    case Informal => "informal"
    case Work => "work"
  }

  function ProductTypeName(t: ProductType): string {
    match t
    case Top => "top"
    case Bottom => "bottom"
    case Shoes => "shoes"
  }

  /** The literals of each enumeration, in declaration order. */
  const LanguageNames: seq<string> := ["es", "en", "cn"]
  const ThemeNames: seq<string> := ["light", "dark"]
  const PlanNames: seq<string> := ["free", "premium", "business"]
  const StyleNames: seq<string> := ["casual", "sport", "elegant", "informal", "work"]
  const ProductTypeNames: seq<string> := ["top", "bottom", "shoes"]

  function ParseLanguage(s: string): (r: Option<Language>)
    ensures r.Some? ==> LanguageName(r.value) == s
    ensures forall l :: LanguageName(l) == s ==> r == Some(l)
    ensures r.Some? <==> s in LanguageNames
  {
    if s == "es" then Some(Es) else if s == "en" then Some(En) else if s == "cn" then Some(Cn) else None
  }

  function ParseTheme(s: string): (r: Option<Theme>)
    ensures r.Some? ==> ThemeName(r.value) == s
    ensures forall t :: ThemeName(t) == s ==> r == Some(t)
    ensures r.Some? <==> s in ThemeNames
  {
    if s == "light" then Some(Light) else if s == "dark" then Some(Dark) else None
  }

  function ParsePlan(s: string): (r: Option<PlanType>)
    ensures r.Some? ==> PlanName(r.value) == s
    ensures forall p :: PlanName(p) == s ==> r == Some(p)
    ensures r.Some? <==> s in PlanNames
  {
    if s == "free" then Some(Free) else if s == "premium" then Some(Premium)
    else if s == "business" then Some(Business) else None
  }

  function ParseStyle(s: string): (r: Option<StyleCategory>)
    ensures r.Some? ==> StyleName(r.value) == s
    ensures forall c :: StyleName(c) == s ==> r == Some(c)
    ensures r.Some? <==> s in StyleNames
  {
    if s == "casual" then Some(Casual) else if s == "sport" then Some(Sport)
    else if s == "elegant" then Some(Elegant) else if s == "informal" then Some(Informal)
    else if s == "work" then Some(Work) else None
  }

  function ParseProductType(s: string): (r: Option<ProductType>)
    ensures r.Some? ==> ProductTypeName(r.value) == s
    ensures forall t :: ProductTypeName(t) == s ==> r == Some(t)
    ensures r.Some? <==> s in ProductTypeNames
  {
    if s == "top" then Some(Top) else if s == "bottom" then Some(Bottom)
    else if s == "shoes" then Some(Shoes) else None
  }

  datatype Product = Product(
    id: string,
    name: string,
    brand: string,
    price: int,
    productType: ProductType,
    style: StyleCategory,
    image: string,
    url: string)

  datatype Outfit = Outfit(id: string, top: Product, bottom: Product, shoes: Product, dateCreated: string)

  /** The optional billing sub-record; every one of its five fields is optional. */
  datatype Billing = Billing(
    accountNumber: Option<string>,
    fiscalName: Option<string>,
    cif: Option<string>,
    fiscalAddress: Option<string>,
    legalRep: Option<string>)

  const EmptyBilling := Billing(None, None, None, None, None)

  /**
   * The client's copy of an account. `theme` and `language` are optional because
   * the client reads them with a fallback (a restored snapshot is an unchecked cast).
   */
  datatype UserData = UserData(
    id: Option<string>,
    name: string,
    email: string,
    plan: PlanType,
    stylePreference: StyleCategory,
    theme: Option<Theme>,
    language: Option<Language>,
    consent: bool,
    consentDate: Option<string>,
    favorites: seq<string>,
    outfits: seq<Outfit>,
    billing: Option<Billing>)

  /** One key of a partial object: missing, present with a value, or present with
      the value `undefined`. */
  datatype Field<T> = Absent | SetTo(value: T) | SetUndefined

  /** `Partial<UserData>` as the pages build it. Only `consentDate` and `billing`
      are ever written as `undefined`, so only they are `Field`s. */
  datatype Patch = Patch(
    name: Option<string>,
    email: Option<string>,
    plan: Option<PlanType>,
    stylePreference: Option<StyleCategory>,
    theme: Option<Theme>,
    language: Option<Language>,
    consent: Option<bool>,
    consentDate: Field<string>,
    favorites: Option<seq<string>>,
    outfits: Option<seq<Outfit>>,
    billing: Field<Billing>)

  /** The empty patch `{}`. */
  const NoChange := Patch(None, None, None, None, None, None, None, Absent, None, None, Absent)
}
