/**
 * The product catalogue: five tops, five pants and five pairs of shoes for
 * each of the five styles, numbered by one running counter. `Math.random` is
 * modelled as a sequence of draws, one (brand index, price offset) pair per
 * product, each within the range its `Math.floor(Math.random() * n)` can take.
 */
module Catalogue {
  import opened Text
  import opened Types
  import opened Lists
  import Generator

  const Styles: seq<StyleCategory> := [Casual, Sport, Elegant, Informal, Work]
  const Brands: seq<string> := ["Nike", "Adidas", "Puma", "Zara", "H&M", "Under Armour", "Gucci", "Uniqlo"]
  /** The order of the three loops inside one style. */
  const Kinds: seq<ProductType> := [Top, Bottom, Shoes]
  const PerKind := 5
  const CatalogueSize := 75

  /** What changes between the three loops: id prefix, name word, price range, image seed. */
  datatype Kind = Kind(prefix: string, word: string, priceBase: nat, priceSpan: nat, seed: string)

  function KindOf(t: ProductType): Kind {
    match t
    case Top => Kind("top_", "Top", 20, 50, "top")
    case Bottom => Kind("btm_", "Pants", 30, 60, "btm")
    case Shoes => Kind("shoe_", "Shoes", 50, 100, "shoe")
  }

  /** `Math.floor(Math.random() * brands.length)` and `Math.floor(Math.random() * span)`. */
  datatype Draw = Draw(brand: nat, price: nat)

  predicate DrawFits(t: ProductType, d: Draw) {
    d.brand < |Brands| && d.price < KindOf(t).priceSpan
  }

  /** The id of the product that takes counter value `counter` in the loop for `t`. */
  function ProductId(t: ProductType, counter: nat): string {
    KindOf(t).prefix + NatToString(counter)
  }

  function ProductName(style: StyleCategory, t: ProductType, i: nat): string {
    Capitalize(StyleName(style)) + " " + KindOf(t).word + " " + NatToString(i + 1)
  }

  function ProductImage(style: StyleCategory, t: ProductType, i: nat): string {
    "https://picsum.photos/seed/" + KindOf(t).seed + StyleName(style) + NatToString(i) + "/300/300"
  }

  /** The product pushed by iteration `i` of the loop for `t` in `style`, with the counter at `counter`. */
  function MakeProduct(style: StyleCategory, t: ProductType, i: nat, counter: nat, d: Draw): Product
    requires d.brand < |Brands|
  {
    Product(
      ProductId(t, counter),
      ProductName(style, t, i),
      Brands[d.brand],
      d.price + KindOf(t).priceBase,
      t,
      style,
      ProductImage(style, t, i),
      "#")
  }

  // Position k of the catalogue lies in block k / 5; a block is one loop run.
  function StyleAt(k: nat): StyleCategory
    requires k < CatalogueSize
  {
    Styles[k / 5 / 3]
  }

  function TypeAt(k: nat): ProductType
    requires k < CatalogueSize
  {
    Kinds[k / 5 % 3]
  }

  predicate DrawsFit(draws: seq<Draw>) {
    |draws| == CatalogueSize && forall k :: 0 <= k < CatalogueSize ==> DrawFits(TypeAt(k), draws[k])
  }

  /** The product at position `k`: its counter value is `k + 1`. */
  function Entry(k: nat, d: Draw): Product
    requires k < CatalogueSize && d.brand < |Brands|
  {
    MakeProduct(StyleAt(k), TypeAt(k), k % 5, k + 1, d)
  }

  /** `PRODUCTS` as a function of the draws. */
  function Products(draws: seq<Draw>): (c: seq<Product>)
    requires DrawsFit(draws)
    ensures |c| == CatalogueSize
    ensures forall k :: 0 <= k < CatalogueSize ==> c[k] == Entry(k, draws[k])
  {
    seq(CatalogueSize, k requires 0 <= k < CatalogueSize && DrawsFit(draws) => Entry(k, draws[k]))
  }

  /** Where iteration `i` of loop `kind` in style number `s` lands. */
  lemma Position(s: nat, kind: nat, i: nat)
    requires s < 5 && kind < 3 && i < 5
    ensures var k := 15 * s + 5 * kind + i;
      k < CatalogueSize && k / 5 == 3 * s + kind && k / 5 / 3 == s && k / 5 % 3 == kind && k % 5 == i
  {
  }

  /** The product iteration `i` of loop `kind` in style number `s` pushes is the
      entry of its position. */
  lemma EntryAt(draws: seq<Draw>, s: nat, kind: nat, i: nat)
    requires DrawsFit(draws) && s < 5 && kind < 3 && i < 5
    ensures var k := 15 * s + 5 * kind + i;
      && k < CatalogueSize && draws[k].brand < |Brands|
      && Entry(k, draws[k]) == MakeProduct(Styles[s], Kinds[kind], i, k + 1, draws[k])
  {
    var k := 15 * s + 5 * kind + i;
    Position(s, kind, i);
    assert DrawFits(TypeAt(k), draws[k]);
  }

  /** Pushing iteration `i`'s product onto the products before it extends the
      catalogue prefix by one. */
  lemma RunStep(draws: seq<Draw>, s: nat, kind: nat, i: nat, before: seq<Product>)
    requires DrawsFit(draws) && s < 5 && kind < 3 && i < 5
    requires |before| == 15 * s + 5 * kind + i && before == Products(draws)[..|before|]
    ensures draws[|before|].brand < |Brands|
    ensures before + [MakeProduct(Styles[s], Kinds[kind], i, |before| + 1, draws[|before|])]
         == Products(draws)[..|before| + 1]
  {
    EntryAt(draws, s, kind, i);
    PrefixSnoc(Products(draws), |before|);
  }

  /** One of the three `for (let i = 0; i < 5; i++)` loops: five pushes of the
      kind's product, each taking the next counter value. */
  method PushRun(draws: seq<Draw>, s: nat, kind: nat, before: seq<Product>, counter: nat)
    returns (after: seq<Product>, next: nat)
    requires DrawsFit(draws) && s < |Styles| && kind < |Kinds|
    requires |before| == 15 * s + 5 * kind && counter == |before| + 1
    requires before == Products(draws)[..|before|]
    ensures |after| == |before| + PerKind && next == counter + PerKind
    ensures after == Products(draws)[..|after|]
  {
    after, next := before, counter;
    for i := 0 to PerKind
      invariant |after| == |before| + i && next == |after| + 1
      invariant after == Products(draws)[..|after|]
    {
      RunStep(draws, s, kind, i, after);
      var item := MakeProduct(Styles[s], Kinds[kind], i, next, draws[|after|]);
      after := after + [item];
      next := next + 1;
    }
  }

  /** `generateProducts`: for each style in order, the tops, the bottoms and the
      shoes runs, sharing one counter that starts at 1. */
  method GenerateProducts(draws: seq<Draw>) returns (products: seq<Product>)
    requires DrawsFit(draws)
    ensures products == Products(draws)
  {
    products := [];
    var idCounter := 1;
    for s := 0 to |Styles|
      invariant |products| == 15 * s && idCounter == |products| + 1
      invariant products == Products(draws)[..|products|]
    {
      products, idCounter := PushRun(draws, s, 0, products, idCounter);
      products, idCounter := PushRun(draws, s, 1, products, idCounter);
      products, idCounter := PushRun(draws, s, 2, products, idCounter);
    }
    assert Products(draws)[..|products|] == Products(draws);
  }

  // ---------------------------------------------------------------- properties

  /** Every product's price lies in its type's range, its brand is one of the
      eight, its link is `#`, its id starts with its type's prefix and its name
      with the capitalised style and its type's word. */
  lemma ProductShape(draws: seq<Draw>, p: Product)
    requires DrawsFit(draws) && p in Products(draws)
    ensures p.brand in Brands && p.url == "#"
    ensures p.productType == Top ==> 20 <= p.price < 70
    ensures p.productType == Bottom ==> 30 <= p.price < 90
    ensures p.productType == Shoes ==> 50 <= p.price < 150
    ensures StartsWith(p.id, KindOf(p.productType).prefix)
    ensures StartsWith(p.name, Capitalize(StyleName(p.style)) + " " + KindOf(p.productType).word + " ")
  {
    var k :| 0 <= k < CatalogueSize && Products(draws)[k] == p;
    assert DrawFits(TypeAt(k), draws[k]);
    var prefix := KindOf(TypeAt(k)).prefix;
    assert (prefix + NatToString(k + 1))[..|prefix|] == prefix;
    var head := Capitalize(StyleName(StyleAt(k))) + " " + KindOf(TypeAt(k)).word + " ";
    assert (head + NatToString(k % 5 + 1))[..|head|] == head;
  }

  /** Ids with different counters differ, whatever their types. */
  lemma ProductIdsDiffer(t1: ProductType, t2: ProductType, n1: nat, n2: nat)
    requires n1 != n2
    ensures ProductId(t1, n1) != ProductId(t2, n2)
  {
    var p1, p2 := KindOf(t1).prefix, KindOf(t2).prefix;
    var id1, id2 := p1 + NatToString(n1), p2 + NatToString(n2);
    if p1 == p2 {
      if id1 == id2 {
        assert id1[|p1|..] == NatToString(n1);
        assert id2[|p2|..] == NatToString(n2);
        NatToStringInjective(n1, n2);
      }
    } else {
      assert id1[0] == p1[0] && id2[0] == p2[0];
    }
  }

  /** The id of position `k` carries the counter value `k + 1`. */
  lemma IdAt(draws: seq<Draw>, k: nat)
    requires DrawsFit(draws) && k < CatalogueSize
    ensures Products(draws)[k].id == ProductId(TypeAt(k), k + 1)
  {
    assert DrawFits(TypeAt(k), draws[k]);
  }

  /** No two products share an id. */
  lemma IdsUnique(draws: seq<Draw>)
    requires DrawsFit(draws)
    ensures forall k1, k2 :: 0 <= k1 < k2 < CatalogueSize ==> Products(draws)[k1].id != Products(draws)[k2].id
  {
    forall k1, k2 | 0 <= k1 < k2 < CatalogueSize
      ensures Products(draws)[k1].id != Products(draws)[k2].id
    {
      IdAt(draws, k1);
      IdAt(draws, k2);
      ProductIdsDiffer(TypeAt(k1), TypeAt(k2), k1 + 1, k2 + 1);
    }
  }

  /** The five products of block `b`. */
  function Block(c: seq<Product>, b: nat): seq<Product>
    requires 5 * b + 5 <= |c|
  {
    c[5 * b .. 5 * b + 5]
  }

  /** The block of a (type, style) pair holds the five products of that pair. */
  function BlockOf(t: ProductType, style: StyleCategory): (b: nat)
    ensures b < 15 && Kinds[b % 3] == t && Styles[b / 3] == style
  {
    var si := match style case Casual => 0 case Sport => 1 case Elegant => 2 case Informal => 3 case Work => 4;
    var ti := match t case Top => 0 case Bottom => 1 case Shoes => 2;
    3 * si + ti
  }

  /** Position `k` holds a product of `TypeAt(k)` and `StyleAt(k)`. */
  predicate LaidOut(c: seq<Product>) {
    |c| == CatalogueSize
    && forall k :: 0 <= k < CatalogueSize ==> c[k].productType == TypeAt(k) && c[k].style == StyleAt(k)
  }

  lemma ProductsLaidOut(draws: seq<Draw>)
    requires DrawsFit(draws)
    ensures LaidOut(Products(draws))
  {
    var c := Products(draws);
    forall k | 0 <= k < CatalogueSize ensures c[k].productType == TypeAt(k) && c[k].style == StyleAt(k) {
      assert DrawFits(TypeAt(k), draws[k]);
      assert c[k] == Entry(k, draws[k]);
    }
  }

  /** Block `b` is of one type and one style throughout. */
  predicate UniformBlock(c: seq<Product>, b: nat) {
    b < 15 && 5 * b + 5 <= |c|
    && forall p :: p in Block(c, b) ==> p.productType == Kinds[b % 3] && p.style == Styles[b / 3]
  }

  lemma BlockUniform(c: seq<Product>, b: nat)
    requires LaidOut(c) && b < 15
    ensures UniformBlock(c, b)
  {
    forall p | p in Block(c, b) ensures p.productType == Kinds[b % 3] && p.style == Styles[b / 3] {
      var j :| 0 <= j < 5 && Block(c, b)[j] == p;
      assert p == c[5 * b + j];
      assert (5 * b + j) / 5 == b;
    }
  }

  /** The pair's own block passes the candidate test whole. */
  lemma BlockKept(c: seq<Product>, t: ProductType, style: StyleCategory)
    requires UniformBlock(c, BlockOf(t, style))
    ensures Filter(Block(c, BlockOf(t, style)), Generator.Wanted(t, style)) == Block(c, BlockOf(t, style))
  {
    FilterKeepsAll(Block(c, BlockOf(t, style)), Generator.Wanted(t, style));
  }

  /** Different blocks differ in type or in style. */
  lemma BlockOfDistinct(m: nat, t: ProductType, style: StyleCategory)
    requires m < 15 && m != BlockOf(t, style)
    ensures Kinds[m % 3] != t || Styles[m / 3] != style
  {
    var b := BlockOf(t, style);
    assert m == 3 * (m / 3) + m % 3 && b == 3 * (b / 3) + b % 3;
  }

  /** Any other block fails it throughout. */
  lemma BlockDropped(c: seq<Product>, t: ProductType, style: StyleCategory, m: nat)
    requires UniformBlock(c, m) && m != BlockOf(t, style)
    ensures Filter(Block(c, m), Generator.Wanted(t, style)) == []
  {
    BlockOfDistinct(m, t, style);
    FilterKeepsNone(Block(c, m), Generator.Wanted(t, style));
  }

  /** The candidate test keeps the pair's own block whole and drops every other. */
  lemma BlockSifted(c: seq<Product>, t: ProductType, style: StyleCategory, b: nat)
    requires LaidOut(c) && b < 15
    ensures Filter(Block(c, b), Generator.Wanted(t, style)) == if b == BlockOf(t, style) then Block(c, b) else []
  {
    BlockUniform(c, b);
    if b == BlockOf(t, style) {
      BlockKept(c, t, style);
    } else {
      BlockDropped(c, t, style, b);
    }
  }

  /** Filtering the first `n` runs of five keeps exactly run `target` once it
      has been passed, when that run is kept whole and every other dropped. */
  lemma {:induction false} FilterPrefix<T(!new)>(c: seq<T>, keep: T -> bool, target: nat, n: nat)
    requires 5 * n <= |c|
    requires forall b :: 0 <= b < n ==>
      Filter(c[5 * b .. 5 * b + 5], keep) == if b == target then c[5 * b .. 5 * b + 5] else []
    ensures Filter(c[..5 * n], keep) == if n <= target then [] else c[5 * target .. 5 * target + 5]
  {
    if n > 0 {
      var m := n - 1;
      FilterPrefix(c, keep, target, m);
      PrefixSplit(c, 5 * m, 5 * n);
      FilterAppend(c[..5 * m], c[5 * m .. 5 * n], keep);
    }
  }

  /** In a laid-out catalogue the products of a pair are exactly its block. */
  lemma LaidOutFilter(c: seq<Product>, t: ProductType, style: StyleCategory)
    requires LaidOut(c)
    ensures Filter(c, Generator.Wanted(t, style)) == Block(c, BlockOf(t, style))
  {
    var keep, target := Generator.Wanted(t, style), BlockOf(t, style);
    forall b | 0 <= b < 15
      ensures Filter(c[5 * b .. 5 * b + 5], keep) == if b == target then c[5 * b .. 5 * b + 5] else []
    {
      BlockSifted(c, t, style, b);
    }
    FilterPrefix(c, keep, target, 15);
    assert c[..5 * 15] == c;
  }

  /** The generator's candidates for a pair are exactly the five products of its
      block, so every candidate list the generator indexes has five entries. */
  lemma CandidatesAreBlock(draws: seq<Draw>, t: ProductType, style: StyleCategory)
    requires DrawsFit(draws)
    ensures Generator.Candidates(Products(draws), t, style) == Block(Products(draws), BlockOf(t, style))
    ensures |Generator.Candidates(Products(draws), t, style)| == PerKind
  {
    ProductsLaidOut(draws);
    LaidOutFilter(Products(draws), t, style);
  }
}
