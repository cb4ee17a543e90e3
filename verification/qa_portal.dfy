/** The QA portal's in-memory product list: approve, reject, the search/status filter and the status counts. */
module QaPortal {
  import opened Maybe
  import opened Seqs
  import opened Text

  datatype Status = Pending | Verified | Rejected

  /** The filter buttons: all products, or one status. */
  datatype StatusFilter = AllStatuses | OnlyStatus(status: Status)

  datatype Product = Product(
    id: int,
    name: string,
    farmer: string,
    productType: string,
    quantity: string,
    location: string,
    uploadDate: string,
    status: Status,
    quality: Option<string>,
    verifiedDate: Option<string>,
    description: string,
    price: string)

  /** The component's state. */
  datatype State = State(
    products: seq<Product>,
    selected: Option<Product>,
    showQualityModal: bool,
    qualityRating: string,
    activeFilter: StatusFilter,
    searchTerm: string)

  /** Distinct products carry distinct ids (true of the mock list and kept by every handler). */
  predicate UniqueIds(ps: seq<Product>)
  {
    forall i, j :: 0 <= i < j < |ps| ==> ps[i].id != ps[j].id
  }

  /** `products.map(p => p.id === id ? change(p) : p)`. */
  function UpdateWhere(ps: seq<Product>, id: int, change: Product -> Product): (r: seq<Product>)
    ensures |r| == |ps|
    ensures forall i :: 0 <= i < |ps| ==> r[i] == if ps[i].id == id then change(ps[i]) else ps[i]
  {
    MapWhere(ps, (p: Product) => p.id == id, change)
  }

  /** `handleQualityAssessment`: the approved copy of a product. */
  function Approve(p: Product, rating: string, today: string): Product
  {
    p.(status := Verified, quality := Some(rating), verifiedDate := Some(today))
  }

  /**
   * `handleQualityAssessment`: with a product selected and a rating chosen, marks every product
   * with the selected id verified with that rating and today's date, then closes the modal and
   * clears the selection and rating; otherwise does nothing.
   */
  function HandleQualityAssessment(s: State, today: string): (r: State)
    ensures s.selected.None? || s.qualityRating == "" ==> r == s
    ensures s.selected.Some? && s.qualityRating != "" ==>
      && |r.products| == |s.products|
      && (forall i :: 0 <= i < |s.products| && s.products[i].id != s.selected.value.id ==> r.products[i] == s.products[i])
      && (forall i :: 0 <= i < |s.products| && s.products[i].id == s.selected.value.id ==>
            && r.products[i].status == Verified
            && r.products[i].quality == Some(s.qualityRating)
            && r.products[i].verifiedDate == Some(today)
            && r.products[i].(status := s.products[i].status, quality := s.products[i].quality,
                              verifiedDate := s.products[i].verifiedDate) == s.products[i])
      && r.selected.None? && !r.showQualityModal && r.qualityRating == ""
      && r.activeFilter == s.activeFilter && r.searchTerm == s.searchTerm
  {
    if s.selected.Some? && s.qualityRating != "" then
      var rating := s.qualityRating;
      s.(products := UpdateWhere(s.products, s.selected.value.id, (p: Product) => Approve(p, rating, today)),
         showQualityModal := false, selected := None, qualityRating := "")
    else s
  }

  /** `handleReject`: marks every product with the id rejected and leaves everything else alone. */
  function HandleReject(s: State, id: int): (r: State)
    ensures |r.products| == |s.products|
    ensures forall i :: 0 <= i < |s.products| ==>
      r.products[i] == if s.products[i].id == id then s.products[i].(status := Rejected) else s.products[i]
    ensures r.(products := s.products) == s
  {
    s.(products := UpdateWhere(s.products, id, (p: Product) => p.(status := Rejected)))
  }

  /** The approve/reject buttons are rendered only for pending products; the handlers themselves do not look at the status. */
  predicate ActionsOffered(p: Product)
  {
    p.status == Pending
  }

  /** The "approve" button: select the product and open the rating modal. */
  function OpenApproval(s: State, p: Product): (r: State)
    ensures r.selected == Some(p) && r.showQualityModal
    ensures r.(selected := s.selected, showQualityModal := s.showQualityModal) == s
  {
    s.(selected := Some(p), showQualityModal := true)
  }

  /** The eye button: selects the product without opening the modal. */
  function Select(s: State, p: Product): (r: State)
    ensures r.selected == Some(p)
    ensures r.(selected := s.selected) == s
  {
    s.(selected := Some(p))
  }

  /** Viewing a product before approving it makes no difference to the approval. */
  lemma SelectThenApprove(s: State, p: Product, q: Product)
    ensures OpenApproval(Select(s, p), q) == OpenApproval(s, q)
    ensures !Select(s, p).showQualityModal <==> !s.showQualityModal
  {
  }

  /** The rating select inside the modal. */
  function ChooseRating(s: State, rating: string): (r: State)
    ensures r.qualityRating == rating
    ensures r.(qualityRating := s.qualityRating) == s
  {
    s.(qualityRating := rating)
  }

  /**
   * The modal's overlay, close button and Cancel button: only the modal closes. The selection
   * and the chosen rating stay behind.
   */
  function CloseQualityModal(s: State): (r: State)
    ensures !r.showQualityModal
    ensures r.(showQualityModal := s.showQualityModal) == s
  {
    s.(showQualityModal := false)
  }

  /**
   * Because closing the modal keeps the rating, approving another product straight after a
   * cancelled assessment verifies it with the earlier rating, without a rating being chosen.
   */
  lemma CancelledRatingCarriesOver(s: State, i: int, today: string)
    requires 0 <= i < |s.products|
    requires s.qualityRating != ""
    ensures var r := HandleQualityAssessment(OpenApproval(CloseQualityModal(s), s.products[i]), today);
      && r.products[i].status == Verified
      && r.products[i].quality == Some(s.qualityRating)
  {
  }

  /** The filter's test: status filter and a case-insensitive search over name, farmer and type. */
  predicate Visible(p: Product, filter: StatusFilter, search: string)
  {
    && (filter.AllStatuses? || p.status == filter.status)
    && SearchHits([p.name, p.farmer, p.productType], search)
  }

  /** `filteredProducts`: the products the filter and the search admit, in list order. */
  function FilteredProducts(s: State): (r: seq<Product>)
    ensures IsSubsequence(r, s.products)
    ensures forall p :: p in r <==> p in s.products && Visible(p, s.activeFilter, s.searchTerm)
  {
    Filter(s.products, (p: Product) => Visible(p, s.activeFilter, s.searchTerm))
  }

  /** `products.filter(p => p.status === status).length`. */
  function CountStatus(ps: seq<Product>, status: Status): (n: nat)
    ensures n <= |ps|
  {
    if ps == [] then 0
    else (if ps[0].status == status then 1 else 0) + CountStatus(ps[1..], status)
  }

  /** The three counts add up to the length of the list: every product has one of the three statuses. */
  lemma {:induction false} CountsPartition(ps: seq<Product>)
    ensures CountStatus(ps, Pending) + CountStatus(ps, Verified) + CountStatus(ps, Rejected) == |ps|
    decreases |ps|
  {
    if ps != [] {
      CountsPartition(ps[1..]);
    }
  }

  /** An update keyed on an id no product has changes nothing. */
  lemma UpdateMissing(ps: seq<Product>, id: int, change: Product -> Product)
    requires forall k :: 0 <= k < |ps| ==> ps[k].id != id
    ensures UpdateWhere(ps, id, change) == ps
  {
    MapWhereMissing(ps, (p: Product) => p.id == id, change);
  }

  lemma UniqueTail(ps: seq<Product>)
    requires UniqueIds(ps) && ps != []
    ensures UniqueIds(ps[1..])
    ensures forall k :: 0 <= k < |ps[1..]| ==> ps[1..][k].id != ps[0].id
  {
  }

  lemma CountCons(p: Product, ps: seq<Product>, status: Status)
    ensures CountStatus([p] + ps, status) == (if p.status == status then 1 else 0) + CountStatus(ps, status)
  {
    assert ([p] + ps)[1..] == ps;
  }

  lemma UpdateCons(ps: seq<Product>, id: int, change: Product -> Product)
    requires ps != []
    ensures UpdateWhere(ps, id, change)
         == [if ps[0].id == id then change(ps[0]) else ps[0]] + UpdateWhere(ps[1..], id, change)
  {
  }

  /** Changing the one product with a given id moves it from its old status count to its new one. */
  lemma {:induction false} UpdateOneCount(ps: seq<Product>, i: int, change: Product -> Product, status: Status)
    requires UniqueIds(ps)
    requires 0 <= i < |ps|
    ensures CountStatus(UpdateWhere(ps, ps[i].id, change), status)
         == CountStatus(ps, status)
            - (if ps[i].status == status then 1 else 0)
            + (if change(ps[i]).status == status then 1 else 0)
    decreases |ps|
  {
    var id := ps[i].id;
    var head := if ps[0].id == id then change(ps[0]) else ps[0];
    var tail := UpdateWhere(ps[1..], id, change);
    UpdateCons(ps, id, change);
    CountCons(head, tail, status);
    CountCons(ps[0], ps[1..], status);
    assert [ps[0]] + ps[1..] == ps;
    UniqueTail(ps);
    if i == 0 {
      UpdateMissing(ps[1..], id, change);
    } else {
      assert ps[1..][i - 1] == ps[i];
      UpdateOneCount(ps[1..], i - 1, change, status);
    }
  }

  /** Approving a pending product moves one product from the pending count to the verified count. */
  lemma ApprovalMovesCounts(s: State, today: string, i: int)
    requires UniqueIds(s.products)
    requires 0 <= i < |s.products| && s.products[i].status == Pending
    requires s.selected == Some(s.products[i]) && s.qualityRating != ""
    ensures var ps := HandleQualityAssessment(s, today).products;
      && CountStatus(ps, Pending) == CountStatus(s.products, Pending) - 1
      && CountStatus(ps, Verified) == CountStatus(s.products, Verified) + 1
      && CountStatus(ps, Rejected) == CountStatus(s.products, Rejected)
  {
    var rating := s.qualityRating;
    var change := (p: Product) => Approve(p, rating, today);
    assert HandleQualityAssessment(s, today).products == UpdateWhere(s.products, s.products[i].id, change);
    UpdateOneCount(s.products, i, change, Pending);
    UpdateOneCount(s.products, i, change, Verified);
    UpdateOneCount(s.products, i, change, Rejected);
  }

  /** Rejecting a pending product moves one product from the pending count to the rejected count. */
  lemma RejectionMovesCounts(s: State, i: int)
    requires UniqueIds(s.products)
    requires 0 <= i < |s.products| && s.products[i].status == Pending
    ensures var ps := HandleReject(s, s.products[i].id).products;
      && CountStatus(ps, Pending) == CountStatus(s.products, Pending) - 1
      && CountStatus(ps, Verified) == CountStatus(s.products, Verified)
      && CountStatus(ps, Rejected) == CountStatus(s.products, Rejected) + 1
  {
    var change := (p: Product) => p.(status := Rejected);
    assert HandleReject(s, s.products[i].id).products == UpdateWhere(s.products, s.products[i].id, change);
    UpdateOneCount(s.products, i, change, Pending);
    UpdateOneCount(s.products, i, change, Verified);
    UpdateOneCount(s.products, i, change, Rejected);
  }

  /** The approve flow through the interface: open the modal, pick a rating, confirm. */
  lemma ApproveFlowVerifies(s: State, i: int, rating: string, today: string)
    requires 0 <= i < |s.products| && ActionsOffered(s.products[i])
    requires rating != ""
    ensures var r := HandleQualityAssessment(ChooseRating(OpenApproval(s, s.products[i]), rating), today);
      && r.products[i].status == Verified && r.products[i].quality == Some(rating)
      && !r.showQualityModal && r.selected.None?
  {
  }

  /** Once a product is approved or rejected its buttons are gone: a decided product is never offered again. */
  lemma DecisionWithdrawsActions(s: State, i: int, rating: string, today: string)
    requires 0 <= i < |s.products|
    requires rating != ""
    ensures !ActionsOffered(HandleReject(s, s.products[i].id).products[i])
    ensures !ActionsOffered(HandleQualityAssessment(ChooseRating(OpenApproval(s, s.products[i]), rating), today).products[i])
  {
  }

  /** "All" with an empty search shows the whole list. */
  lemma ShowAllShowsEverything(s: State)
    requires s.activeFilter == AllStatuses && s.searchTerm == ""
    ensures FilteredProducts(s) == s.products
  {
    forall i | 0 <= i < |s.products|
      ensures Visible(s.products[i], s.activeFilter, s.searchTerm)
    {
      EmptySearchHits([s.products[i].name, s.products[i].farmer, s.products[i].productType]);
    }
    FilterKeepsAll(s.products, (p: Product) => Visible(p, s.activeFilter, s.searchTerm));
  }
}
