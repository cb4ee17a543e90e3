/** The buyer portal's catalogue: the quality/search filter, the quality counts and the availability gate. */
module BuyerPortal {
  import opened Maybe
  import opened Seqs
  import opened Text
  import opened Quality

  /** The filter buttons: all products, or one quality grade. */
  datatype QualityFilter = AllQualities | QualityIs(quality: string)

  datatype Product = Product(
    id: int,
    name: string,
    farmer: string,
    productType: string,
    quantity: string,
    location: string,
    verifiedDate: string,
    quality: string,
    price: string,
    description: string,
    qrCode: string,
    available: bool)

  /** The component's state; `showScanner` is the navbar's choice between the catalogue and the scanner. */
  datatype State = State(
    products: seq<Product>,
    activeFilter: QualityFilter,
    searchTerm: string,
    selected: Option<Product>,
    showProductModal: bool,
    showScanner: bool)

  /** The filter's test: quality button and a case-insensitive search over name, farmer and type. */
  predicate Visible(p: Product, filter: QualityFilter, search: string)
  {
    && (filter.AllQualities? || p.quality == filter.quality)
    && SearchHits([p.name, p.farmer, p.productType], search)
  }

  /** `filteredProducts`: the products the quality button and the search admit, in list order. */
  function FilteredProducts(s: State): (r: seq<Product>)
    ensures IsSubsequence(r, s.products)
    ensures forall p :: p in r <==> p in s.products && Visible(p, s.activeFilter, s.searchTerm)
  {
    Filter(s.products, (p: Product) => Visible(p, s.activeFilter, s.searchTerm))
  }

  /** "All" with an empty search shows the whole catalogue. */
  lemma ShowAllShowsEverything(s: State)
    requires s.activeFilter == AllQualities && s.searchTerm == ""
    ensures FilteredProducts(s) == s.products
  {
    forall i | 0 <= i < |s.products|
      ensures Visible(s.products[i], s.activeFilter, s.searchTerm)
    {
      EmptySearchHits([s.products[i].name, s.products[i].farmer, s.products[i].productType]);
    }
    FilterKeepsAll(s.products, (p: Product) => Visible(p, s.activeFilter, s.searchTerm));
  }

  /** `products.filter(p => p.quality === q).length`. */
  function CountQuality(ps: seq<Product>, q: string): nat
  {
    Count(ps, (p: Product) => p.quality == q)
  }

  /** The grades with a stat card and a filter button; "Poor" has neither. */
  predicate Counted(q: string)
  {
    q == Excellent || q == Good || q == Medium
  }

  /**
   * The three stat cards together count exactly the products graded Excellent, Good or Medium:
   * what they leave out is the products of any other quality, "Poor" among them.
   */
  lemma {:induction false} StatCardsPartition(ps: seq<Product>)
    ensures CountQuality(ps, Excellent) + CountQuality(ps, Good) + CountQuality(ps, Medium)
            + Count(ps, (p: Product) => !Counted(p.quality)) == |ps|
    decreases |ps|
  {
    if ps != [] {
      StatCardsPartition(ps[1..]);
    }
  }

  /** The stat cards never add up to more than the catalogue, and miss every "Poor" product. */
  lemma StatCardsBounded(ps: seq<Product>)
    ensures CountQuality(ps, Excellent) + CountQuality(ps, Good) + CountQuality(ps, Medium)
            <= |ps| - CountQuality(ps, Poor)
  {
    StatCardsPartition(ps);
    PoorUncounted(ps);
  }

  lemma {:induction false} PoorUncounted(ps: seq<Product>)
    ensures CountQuality(ps, Poor) <= Count(ps, (p: Product) => !Counted(p.quality))
    decreases |ps|
  {
    if ps != [] {
      PoorUncounted(ps[1..]);
    }
  }

  /** With an empty search, a quality button lists exactly as many products as its badge counts. */
  lemma ButtonCountMatchesListing(s: State, q: string)
    requires s.activeFilter == QualityIs(q) && s.searchTerm == ""
    ensures |FilteredProducts(s)| == CountQuality(s.products, q)
  {
    forall p: Product ensures Visible(p, s.activeFilter, s.searchTerm) == (p.quality == q) {
      EmptySearchHits([p.name, p.farmer, p.productType]);
    }
    SameFilter(s.products, (p: Product) => Visible(p, s.activeFilter, s.searchTerm), (p: Product) => p.quality == q);
  }

  /** "View QR Code" on a card: select the product and open the modal. */
  function ViewProduct(s: State, p: Product): (r: State)
    ensures r.selected == Some(p) && r.showProductModal
    ensures r.(selected := s.selected, showProductModal := s.showProductModal) == s
  {
    s.(selected := Some(p), showProductModal := true)
  }

  /** The modal's close button; the selection stays. */
  function CloseModal(s: State): (r: State)
    ensures !r.showProductModal
    ensures r.(showProductModal := s.showProductModal) == s
  {
    s.(showProductModal := false)
  }

  /** The "Add to Cart" button on a product card is disabled exactly when the product is unavailable. */
  predicate CardCartDisabled(p: Product)
  {
    !p.available
  }

  /** The modal's "Add to Cart" button, rendered only while a product is selected. */
  function ModalCartDisabled(s: State): (d: bool)
    requires s.selected.Some?
    ensures d <==> !s.selected.value.available
  {
    !s.selected.value.available
  }

  /** Opening the modal from a card shows the same gate the card showed. */
  lemma CardAndModalAgree(s: State, p: Product)
    ensures ModalCartDisabled(ViewProduct(s, p)) <==> CardCartDisabled(p)
    ensures ModalCartDisabled(ViewProduct(s, p)) <==> !p.available
  {
  }
}
