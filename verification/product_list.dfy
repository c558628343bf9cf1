/**
 * The product list page: a case-insensitive search over the fetched
 * products, newest-first ordering, a window of the first `visibleCards`
 * cards with a "Load More" button that widens it by six, and the carousel
 * drawn inside each card.
 */
module ProductList {
  import opened Wrappers
  import opened JsStrings

  /** One product as the list endpoint returns it; `image` may be absent. */
  datatype Product = Product(id: string, pName: string, pDescription: string, image: Option<seq<string>>)

  /**
   * What the product query resolved to (`myproduct`): a JavaScript array of
   * products, or any other value (undefined while loading or after an error,
   * or a response body that is not an array).
   */
  datatype Fetched = NotAnArray | AnArray(items: seq<Product>)

  const InitialVisibleCards: nat := 6

  const LoadMoreStep: nat := 6

  // ---------------------------------------------------------------------
  // Search filter

  /** The search test applied to one product: its lower-cased name contains the lower-cased query. */
  predicate NameMatches(p: Product, query: string)
  {
    Includes(ToLower(p.pName), ToLower(query))
  }

  /** Array.prototype.filter with the search test, front to back. */
  function FilterByName(ps: seq<Product>, query: string): (r: seq<Product>)
    ensures |r| <= |ps|
  {
    if ps == [] then []
    else (if NameMatches(ps[0], query) then [ps[0]] else []) + FilterByName(ps[1..], query)
  }

  /**
   * `filteredProduct`: `Array.isArray(myproduct) && myproduct.filter(...)`.
   * `None` stands for the JavaScript value `false` produced when the data is
   * not an array.
   */
  function FilteredProduct(data: Fetched, query: string): Option<seq<Product>>
  {
    match data
    case NotAnArray => None
    case AnArray(items) => Some(FilterByName(items, query))
  }

  /** `a` is `b` with some elements dropped and the rest kept in order. */
  predicate IsSubsequence<T(==)>(a: seq<T>, b: seq<T>)
    decreases |b|
  {
    a == [] || (|b| > 0 && ((a[0] == b[0] && IsSubsequence(a[1..], b[1..])) || IsSubsequence(a, b[1..])))
  }

  /** Every copy of a matching product is kept and every non-matching product is dropped. */
  lemma {:induction false} FilterKeepsExactlyMatches(ps: seq<Product>, query: string, x: Product)
    ensures multiset(FilterByName(ps, query))[x] == if NameMatches(x, query) then multiset(ps)[x] else 0
    ensures x in FilterByName(ps, query) <==> x in ps && NameMatches(x, query)
  {
    if ps != [] {
      FilterKeepsExactlyMatches(ps[1..], query, x);
      assert ps == [ps[0]] + ps[1..];
      assert multiset(ps) == multiset([ps[0]]) + multiset(ps[1..]);
    }
  }

  /** The filter keeps the fetched order. */
  lemma {:induction false} FilterIsSubsequence(ps: seq<Product>, query: string)
    ensures IsSubsequence(FilterByName(ps, query), ps)
  {
    if ps != [] {
      var r := FilterByName(ps, query);
      FilterIsSubsequence(ps[1..], query);
      if NameMatches(ps[0], query) {
        assert r[0] == ps[0] && r[1..] == FilterByName(ps[1..], query);
      } else {
        assert r == FilterByName(ps[1..], query);
      }
    }
  }

  /** An empty search keeps every product, in order. */
  lemma {:induction false} EmptyQueryKeepsAll(ps: seq<Product>)
    ensures FilterByName(ps, "") == ps
  {
    if ps != [] {
      IncludesEmpty(ToLower(ps[0].pName));
      assert ToLower("") == "";
      EmptyQueryKeepsAll(ps[1..]);
    }
  }

  /** Queries that differ only in ASCII letter case select the same products. */
  lemma {:induction false} FilterIgnoresQueryCase(ps: seq<Product>, q1: string, q2: string)
    requires ToLower(q1) == ToLower(q2)
    ensures FilterByName(ps, q1) == FilterByName(ps, q2)
  {
    if ps != [] {
      FilterIgnoresQueryCase(ps[1..], q1, q2);
    }
  }

  /** A string with no upper-case ASCII letter is its own lower-cased form. */
  lemma LowerOfLower(s: string)
    requires forall i :: 0 <= i < |s| ==> !('A' <= s[i] <= 'Z')
    ensures ToLower(s) == s
  {
  }

  lemma ShirtMatchesRed()
    ensures NameMatches(Product("1", "Red Shirt", "", None), "red")
  {
    LowerOfLower("red");
    var n := ToLower("Red Shirt");
    assert n[0] == 'r' && n[1] == 'e' && n[2] == 'd';
    assert n[..3] == "red";
  }

  lemma HatMissesRed()
    ensures !NameMatches(Product("2", "Blue Hat", "", None), "red")
  {
    LowerOfLower("red");
    var n := ToLower("Blue Hat");
    assert forall i :: 0 <= i < |n| ==> n[i] != 'r';
    NotIncludedWithoutFirstChar(n, "red");
  }

  /** A search for "red" over a red shirt and a blue hat keeps only the shirt. */
  lemma RedShirtScenario()
    ensures
      var shirt := Product("1", "Red Shirt", "", None);
      var hat := Product("2", "Blue Hat", "", None);
      FilteredProduct(AnArray([shirt, hat]), "red") == Some([shirt])
      && RenderedCards(AnArray([shirt, hat]), "red", InitialVisibleCards) == [shirt]
  {
    var shirt := Product("1", "Red Shirt", "", None);
    var hat := Product("2", "Blue Hat", "", None);
    ShirtMatchesRed();
    HatMissesRed();
    assert [shirt, hat][1..] == [hat];
    assert [hat][1..] == [];
    assert FilterByName([shirt, hat], "red") == [shirt];
    assert Reverse([shirt]) == [shirt];
  }

  // ---------------------------------------------------------------------
  // Newest-first window

  /** Array.prototype.reverse, as a value. */
  function Reverse<T>(s: seq<T>): seq<T>
  {
    if s == [] then [] else [s[|s| - 1]] + Reverse(s[..|s| - 1])
  }

  /** Position `k` of the reversed sequence holds position `|s| - 1 - k` of the original. */
  lemma {:induction false} ReverseAt<T>(s: seq<T>, k: nat)
    ensures |Reverse(s)| == |s|
    ensures k < |s| ==> Reverse(s)[k] == s[|s| - 1 - k]
    decreases |s|
  {
    if s != [] {
      ReverseAt(s[..|s| - 1], if k > 0 then k - 1 else 0);
    }
  }

  /** Array.prototype.slice(0, n): the first `n` elements, or all of them when there are fewer. */
  function Prefix<T>(s: seq<T>, n: nat): seq<T>
  {
    if n < |s| then s[..n] else s
  }

  /** The cards the page draws: the first `visible` products of the reversed filtered list. */
  function RenderedCards(data: Fetched, query: string, visible: nat): seq<Product>
  {
    match FilteredProduct(data, query)
    case None => []
    case Some(f) => Prefix(Reverse(f), visible)
  }

  /**
   * Whether the "Load More" button is drawn: `visibleCards < filteredProduct.length`.
   * When `filteredProduct` is `false` its length is undefined and the
   * comparison is false.
   */
  predicate ShowLoadMore(data: Fetched, query: string, visible: nat)
  {
    match FilteredProduct(data, query)
    case None => false
    case Some(f) => visible < |f|
  }

  /**
   * The cards are exactly the first min(visible, |filtered|) products of the
   * filtered list taken from its end; nothing is drawn when the data is not
   * an array.
   */
  lemma RenderedCardsAreNewestFirst(data: Fetched, query: string, visible: nat)
    ensures data.NotAnArray? ==> RenderedCards(data, query, visible) == []
    ensures data.AnArray? ==>
      var f, cards := FilterByName(data.items, query), RenderedCards(data, query, visible);
      && |cards| == (if visible < |f| then visible else |f|)
      && forall k :: 0 <= k < |cards| ==> cards[k] == f[|f| - 1 - k]
  {
    if data.AnArray? {
      var f := FilterByName(data.items, query);
      ReverseAt(f, 0);
      forall k | 0 <= k < |RenderedCards(data, query, visible)|
        ensures RenderedCards(data, query, visible)[k] == f[|f| - 1 - k]
      {
        ReverseAt(f, k);
      }
    }
  }

  /** The button is drawn exactly when some filtered product is not drawn yet. */
  lemma LoadMoreShownIffCardsHidden(data: Fetched, query: string, visible: nat)
    ensures ShowLoadMore(data, query, visible) <==>
      data.AnArray? && |RenderedCards(data, query, visible)| < |FilterByName(data.items, query)|
  {
    RenderedCardsAreNewestFirst(data, query, visible);
  }

  /** When the data is not an array, no card and no button are drawn. */
  lemma NotAnArrayDrawsNothing(query: string, visible: nat)
    ensures RenderedCards(NotAnArray, query, visible) == []
    ensures !ShowLoadMore(NotAnArray, query, visible)
  {
  }

  /** How many "Load More" clicks it takes until `m` filtered products are all drawn. */
  function ClicksUntilAllShown(m: nat): nat
  {
    if m <= InitialVisibleCards then 0 else (m - 1) / LoadMoreStep
  }

  /**
   * Starting from six cards, after `k` clicks the button is still drawn
   * exactly while `k` is below `ClicksUntilAllShown(|filtered|)`, and once
   * that many clicks are done every filtered product is drawn.
   */
  lemma LoadMoreSchedule(data: Fetched, query: string, k: nat)
    requires data.AnArray?
    ensures var m := |FilterByName(data.items, query)|;
      && (ShowLoadMore(data, query, InitialVisibleCards + LoadMoreStep * k) <==> k < ClicksUntilAllShown(m))
      && RenderedCards(data, query, InitialVisibleCards + LoadMoreStep * ClicksUntilAllShown(m))
         == Reverse(FilterByName(data.items, query))
  {
    var f := FilterByName(data.items, query);
    var m := |f|;
    ReverseAt(f, 0);
    if m > 6 {
      var q, r := (m - 1) / 6, (m - 1) % 6;
      assert m - 1 == 6 * q + r;
      assert 6 + 6 * k < m <==> k < q by {
        if k < q { assert 6 * (k + 1) <= 6 * q; }
        if k >= q { assert 6 * (k + 1) >= 6 * (q + 1); }
      }
    }
  }

  // ---------------------------------------------------------------------
  // Carousel inside each card

  /** One `<li>` of the carousel indicators. */
  datatype Indicator = Indicator(key: nat, dataTarget: string, slideTo: nat, className: string)

  /** One slide of the carousel. */
  datatype Slide = Slide(key: nat, className: string, src: string, alt: string)

  /** A template literal's rendering of `process.env.NEXT_PUBLIC_API_URL`, which may be undefined. */
  function EnvText(v: Option<string>): string
  {
    match v
    case None => "undefined"
    case Some(s) => s
  }

  /** `value?.image?.map(...)` for the indicators: nothing when the image list is absent. */
  function Indicators(p: Product): seq<Indicator>
  {
    match p.image
    case None => []
    case Some(imgs) =>
      seq(|imgs|, i requires 0 <= i < |imgs| =>
        Indicator(i, "#carousel-" + p.id, i, if i == 0 then "active" else ""))
  }

  /** `value?.image?.map(...)` for the slides. */
  function Slides(p: Product, apiUrl: Option<string>): seq<Slide>
  {
    match p.image
    case None => []
    case Some(imgs) =>
      seq(|imgs|, i requires 0 <= i < |imgs| =>
        Slide(i, "carousel-item " + (if i == 0 then "active" else ""),
              EnvText(apiUrl) + imgs[i], "Slide " + DecimalString(i + 1)))
  }

  predicate SlideActive(s: Slide)
  {
    s.className == "carousel-item active"
  }

  function CountActive(slides: seq<Slide>): nat
  {
    if slides == [] then 0 else (if SlideActive(slides[0]) then 1 else 0) + CountActive(slides[1..])
  }

  function ImageCount(p: Product): nat
  {
    match p.image
    case None => 0
    case Some(imgs) => |imgs|
  }

  lemma {:induction false} NoActiveCountsZero(slides: seq<Slide>)
    requires forall i :: 0 <= i < |slides| ==> !SlideActive(slides[i])
    ensures CountActive(slides) == 0
  {
    if slides != [] {
      NoActiveCountsZero(slides[1..]);
    }
  }

  /**
   * One indicator and one slide per image, each pointing at its own index;
   * only index 0 is active, so exactly one slide is active when there is an
   * image; each slide's source is the base URL followed by the image path,
   * and its alt text numbers the slides from 1.
   */
  lemma CarouselShape(p: Product, apiUrl: Option<string>)
    ensures |Indicators(p)| == |Slides(p, apiUrl)| == ImageCount(p)
    ensures forall i :: 0 <= i < |Indicators(p)| ==>
      && Indicators(p)[i].slideTo == i
      && Indicators(p)[i].dataTarget == "#carousel-" + p.id
      && (Indicators(p)[i].className == "active" <==> i == 0)
    ensures forall i :: 0 <= i < |Slides(p, apiUrl)| ==>
      && Slides(p, apiUrl)[i].src == EnvText(apiUrl) + p.image.value[i]
      && Slides(p, apiUrl)[i].alt == "Slide " + DecimalString(i + 1)
      && (SlideActive(Slides(p, apiUrl)[i]) <==> i == 0)
    ensures CountActive(Slides(p, apiUrl)) == if ImageCount(p) > 0 then 1 else 0
  {
    var slides := Slides(p, apiUrl);
    if |slides| > 0 {
      assert SlideActive(slides[0]);
      assert forall i :: 0 <= i < |slides[1..]| ==> slides[1..][i] == slides[i + 1];
      assert forall i :: 1 <= i < |slides| ==> slides[i].className != "carousel-item active" by {
        forall i | 1 <= i < |slides| ensures slides[i].className != "carousel-item active" {
          assert slides[i].className == "carousel-item ";
          assert |"carousel-item "| != |"carousel-item active"|;
        }
      }
      NoActiveCountsZero(slides[1..]);
    }
  }

  // ---------------------------------------------------------------------
  // Page state

  /** Array.prototype.reverse on an array: the elements end up in the opposite order. */
  method ReverseInPlace<T>(a: array<T>)
    modifies a
    ensures a[..] == Reverse(old(a[..]))
  {
    var lo, hi := 0, a.Length;
    while lo + 1 < hi
      invariant 0 <= lo <= hi <= a.Length && lo + hi == a.Length
      invariant forall k :: 0 <= k < lo ==> a[k] == old(a[a.Length - 1 - k]) && a[a.Length - 1 - k] == old(a[k])
      invariant forall k :: lo <= k < hi ==> a[k] == old(a[k])
    {
      a[lo], a[hi - 1] := a[hi - 1], a[lo];
      lo, hi := lo + 1, hi - 1;
    }
    ghost var before := old(a[..]);
    ReverseAt(before, 0);
    forall k | 0 <= k < a.Length
      ensures a[..][k] == Reverse(before)[k]
    {
      ReverseAt(before, k);
    }
  }

  /** The list page's React state: the search box and the number of cards to draw. */
  class ProductListPage {
    var searchQuery: string
    var visibleCards: nat

    /** `visibleCards` only ever takes the values 6, 12, 18, ... */
    ghost predicate Valid()
      reads this
    {
      visibleCards >= InitialVisibleCards && visibleCards % LoadMoreStep == 0
    }

    /** A freshly mounted page: empty search, six cards. */
    constructor ()
      ensures Valid()
      ensures searchQuery == "" && visibleCards == InitialVisibleCards
    {
      searchQuery := "";
      visibleCards := InitialVisibleCards;
    }

    /** `handleSearchChange`: the search box's new text becomes the query. */
    method HandleSearchChange(value: string)
      requires Valid()
      modifies this
      ensures Valid()
      ensures searchQuery == value && visibleCards == old(visibleCards)
    {
      searchQuery := value;
    }

    /** `handleLoadMore`: six more cards; the window never shrinks. */
    method HandleLoadMore()
      requires Valid()
      modifies this
      ensures Valid()
      ensures visibleCards == old(visibleCards) + LoadMoreStep
      ensures visibleCards > old(visibleCards)
      ensures searchQuery == old(searchQuery)
    {
      visibleCards := visibleCards + LoadMoreStep;
    }

    /**
     * One render pass over the fetched data: filter into a fresh array,
     * reverse that array in place, draw its first `visibleCards` products,
     * and decide whether the "Load More" button is drawn. On a page reached
     * by clicks, the button is drawn exactly while fewer clicks have been
     * made than `ClicksUntilAllShown` asks for.
     */
    method Render(data: Fetched) returns (cards: seq<Product>, loadMore: bool)
      ensures cards == RenderedCards(data, searchQuery, visibleCards)
      ensures loadMore == ShowLoadMore(data, searchQuery, visibleCards)
      ensures Valid() && data.AnArray? ==>
        (loadMore <==> (visibleCards - InitialVisibleCards) / LoadMoreStep
                         < ClicksUntilAllShown(|FilterByName(data.items, searchQuery)|))
    {
      var filtered := FilteredProduct(data, searchQuery);
      match filtered
      case None =>
        cards, loadMore := [], false;
      case Some(f) =>
        var arr := new Product[|f|](i requires 0 <= i < |f| => f[i]);
        assert arr[..] == f;
        ReverseInPlace(arr);
        cards := Prefix(arr[..], visibleCards);
        loadMore := visibleCards < arr.Length;
        if Valid() {
          var k := (visibleCards - InitialVisibleCards) / LoadMoreStep;
          assert InitialVisibleCards + LoadMoreStep * k == visibleCards;
          LoadMoreSchedule(data, searchQuery, k);
        }
    }
  }
}
