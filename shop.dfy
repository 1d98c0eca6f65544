/** The shop page: the style filter over the catalogue and the favourite toggle. */
module Shop {
  import opened Wrappers
  import opened Types
  import opened Lists
  import opened Api
  import opened AppContext

  /** The list without `id`, or with `id` appended when it was not there. */
  function ToggledFavorites(favorites: seq<string>, id: string): (r: seq<string>)
    ensures id in favorites ==> id !in r
    ensures id !in favorites ==> r == favorites + [id]
    ensures forall x :: x != id ==> (x in r <==> x in favorites)
  {
    var keep := (x: string) => x != id;
    FilterMembers(favorites, keep);
    if id in favorites then Filter(favorites, keep) else favorites + [id]
  }

  /** Removal keeps the other favourites in their order. */
  lemma {:induction false} RemovalKeepsOrder(a: seq<string>, b: seq<string>, id: string)
    requires id !in a && id !in b
    ensures ToggledFavorites(a + [id] + b, id) == a + b
  {
    var keep := (x: string) => x != id;
    var s := a + [id] + b;
    assert s[|a|] == id;
    assert ToggledFavorites(s, id) == Filter(s, keep);
    FilterAppend(a + [id], b, keep);
    FilterAppend(a, [id], keep);
    FilterKeepsAll(a, keep);
    FilterKeepsAll(b, keep);
    var none := Filter([id], keep);
    assert none == [];
    calc {
      Filter(s, keep);
      Filter(a + [id], keep) + Filter(b, keep);
      { assert Filter(a, keep) + none == a; }
      a + b;
    }
  }

  /** Toggling a product that is not a favourite twice restores the list. */
  lemma {:induction false} ToggleTwiceRestores(favorites: seq<string>, id: string)
    requires id !in favorites
    ensures ToggledFavorites(ToggledFavorites(favorites, id), id) == favorites
  {
    RemovalKeepsOrder(favorites, [], id);
    assert favorites + [id] + [] == favorites + [id];
    assert favorites + [] == favorites;
  }

  /** Toggling twice leaves the membership of every id as it was, duplicates aside. */
  lemma ToggleTwiceSameMembers(favorites: seq<string>, id: string, x: string)
    ensures x in ToggledFavorites(ToggledFavorites(favorites, id), id) <==> x in favorites
  {
  }

  /** `filter === 'all' ? PRODUCTS : PRODUCTS.filter(p => p.style === filter)`. */
  datatype StyleFilter = AllStyles | OnlyStyle(style: StyleCategory)

  function FilteredProducts(f: StyleFilter, products: seq<Product>): (r: seq<Product>)
    ensures f.AllStyles? ==> r == products
    ensures f.OnlyStyle? ==> forall p :: p in r <==> p in products && p.style == f.style
    ensures |r| <= |products|
  {
    match f
    case AllStyles => products
    case OnlyStyle(s) =>
      var keep := (p: Product) => p.style == s;
      FilterMembers(products, keep);
      Filter(products, keep)
  }

  /** `toggleFavorite(productId)`: without a user only the alert; otherwise the
      toggled list is sent as an update and a failure is swallowed. */
  method ToggleFavorite(session: Session, productId: string, outcome: RemoteOutcome)
    returns (alerted: bool, sent: Option<RequestInit>)
    requires session.Valid()
    modifies session, session.storage
    ensures session.Valid()
    ensures alerted <==> old(session.user).None?
    ensures alerted ==> sent.None? && session.State() == old(session.State())
    ensures !alerted ==>
      var patch := NoChange.(favorites := Some(ToggledFavorites(old(session.user).value.favorites, productId)));
      session.State() == AfterUpdate(old(session.State()), patch, outcome) && sent == old(session.Request(patch))
  {
    sent := None;
    alerted := session.user.None?;
    if !alerted {
      var favorites := ToggledFavorites(session.user.value.favorites, productId);
      var swallowed;
      sent, swallowed := session.UpdateUser(NoChange.(favorites := Some(favorites)), outcome);
    }
  }
}
