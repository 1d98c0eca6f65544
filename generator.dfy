/**
 * The outfit generator: the candidates of each type in the chosen style, one
 * pick of each, the new outfit and its place at the head of the history.
 */
module Generator {
  import opened Wrappers
  import opened Types
  import opened Lists
  import opened Api
  import opened AppContext

  /** `PRODUCTS.filter(p => p.type === t && p.style === style)`, in catalogue order. */
  function Candidates(catalogue: seq<Product>, t: ProductType, style: StyleCategory): (r: seq<Product>)
    ensures forall p :: p in r <==> p in catalogue && p.productType == t && p.style == style
    ensures |r| <= |catalogue|
  {
    FilterMembers(catalogue, Wanted(t, style));
    Filter(catalogue, Wanted(t, style))
  }

  /** The test a candidate passes. */
  function Wanted(t: ProductType, style: StyleCategory): Product -> bool {
    (p: Product) => p.productType == t && p.style == style
  }

  /** The generated outfit: picks at the drawn indices, the clock's id and date. */
  function NewOutfit(tops: seq<Product>, bottoms: seq<Product>, shoes: seq<Product>,
                     i: nat, j: nat, k: nat, id: string, date: string): (o: Outfit)
    requires i < |tops| && j < |bottoms| && k < |shoes|
    ensures o.top in tops && o.bottom in bottoms && o.shoes in shoes
    ensures o.id == id && o.dateCreated == date
  {
    Outfit(id, tops[i], bottoms[j], shoes[k], date)
  }

  /** The history sent after a generation: the new outfit first, the old ones after. */
  function WithNewest(o: Outfit, history: seq<Outfit>): (r: seq<Outfit>)
    ensures |r| == |history| + 1 && r[0] == o && r[1..] == history
  {
    [o] + history
  }

  /** An outfit built from candidates of one style is of that style throughout,
      and each piece has the right type. */
  lemma OutfitMatchesStyle(catalogue: seq<Product>, style: StyleCategory, i: nat, j: nat, k: nat, id: string, date: string)
    requires i < |Candidates(catalogue, Top, style)|
    requires j < |Candidates(catalogue, Bottom, style)|
    requires k < |Candidates(catalogue, Shoes, style)|
    ensures var o := NewOutfit(Candidates(catalogue, Top, style), Candidates(catalogue, Bottom, style),
                               Candidates(catalogue, Shoes, style), i, j, k, id, date);
      && o.top.productType == Top && o.bottom.productType == Bottom && o.shoes.productType == Shoes
      && o.top.style == style && o.bottom.style == style && o.shoes.style == style
      && o.top in catalogue && o.bottom in catalogue && o.shoes in catalogue
  {
  }

  class GeneratorPage {
    var selectedStyle: StyleCategory
    var isGenerating: bool
    var generatedOutfit: Option<Outfit>
    const catalogue: seq<Product>

    constructor (catalogue: seq<Product>)
      ensures this.catalogue == catalogue
      ensures selectedStyle == Casual && !isGenerating && generatedOutfit.None?
    {
      this.catalogue := catalogue;
      selectedStyle := Casual;
      isGenerating := false;
      generatedOutfit := None;
    }

    /** The synchronous part of `handleGenerate`: the spinner, no outfit, and the
        three candidate lists the delayed callback closes over. */
    method Begin() returns (tops: seq<Product>, bottoms: seq<Product>, shoes: seq<Product>)
      modifies this
      ensures isGenerating && generatedOutfit.None? && selectedStyle == old(selectedStyle)
      ensures tops == Candidates(catalogue, Top, selectedStyle)
      ensures bottoms == Candidates(catalogue, Bottom, selectedStyle)
      ensures shoes == Candidates(catalogue, Shoes, selectedStyle)
    {
      isGenerating := true;
      generatedOutfit := None;
      tops := Candidates(catalogue, Top, selectedStyle);
      bottoms := Candidates(catalogue, Bottom, selectedStyle);
      shoes := Candidates(catalogue, Shoes, selectedStyle);
    }

    /** The delayed callback: `i`, `j`, `k` are the drawn indices, `captured` the
        user the click's render saw. With a user, the history goes out with the
        new outfit first; a failure is swallowed. */
    method Complete(session: Session, captured: Option<UserData>,
                    tops: seq<Product>, bottoms: seq<Product>, shoes: seq<Product>,
                    i: nat, j: nat, k: nat, id: string, date: string, outcome: RemoteOutcome)
      returns (sent: Option<RequestInit>)
      requires i < |tops| && j < |bottoms| && k < |shoes|
      requires session.Valid()
      modifies this, session, session.storage
      ensures session.Valid()
      ensures generatedOutfit == Some(NewOutfit(tops, bottoms, shoes, i, j, k, id, date))
      ensures !isGenerating && selectedStyle == old(selectedStyle)
      ensures captured.None? ==> sent.None? && session.State() == old(session.State())
      ensures captured.Some? ==>
        var patch := NoChange.(outfits := Some(WithNewest(generatedOutfit.value, captured.value.outfits)));
        session.State() == AfterUpdate(old(session.State()), patch, outcome) && sent == old(session.Request(patch))
    {
      var outfit := NewOutfit(tops, bottoms, shoes, i, j, k, id, date);
      generatedOutfit := Some(outfit);
      isGenerating := false;
      sent := None;
      if captured.Some? {
        var swallowed;
        sent, swallowed := session.UpdateUser(NoChange.(outfits := Some(WithNewest(outfit, captured.value.outfits))), outcome);
      }
    }
  }
}
