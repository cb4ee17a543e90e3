/**
 * The farmer portal's in-memory product list: upload (prepend), the edit form, delete, the
 * tab/search/type filter, the type list, the integer dashboard statistics and the tab counts.
 */
module FarmerPortal {
  import opened Maybe
  import opened Seqs
  import opened Text

  datatype Status = Uploaded | Verified | Purchased | Rejected

  /** The tab buttons: all products, or one status. */
  datatype Tab = AllProducts | StatusTab(status: Status)

  /**
   * A listed product. `price` is the result of `parseFloat` (None for NaN); `views` and
   * `revenue` are None where the record has no usable number, which `|| 0` reads as 0.
   */
  datatype Product = Product(
    id: int,
    name: string,
    productType: string,
    quantity: string,
    location: string,
    uploadDate: string,
    status: Status,
    quality: Option<string>,
    price: Option<real>,
    currency: string,
    unit: string,
    description: string,
    rating: real,
    views: Option<int>,
    revenue: Option<int>)

  /** The upload/edit form; every field is the text of its input. */
  datatype ProductForm = ProductForm(
    name: string,
    productType: string,
    quantity: string,
    location: string,
    price: string,
    currency: string,
    unit: string,
    description: string)

  /** The component's state. */
  datatype State = State(
    products: seq<Product>,
    form: ProductForm,
    showUploadForm: bool,
    editing: Option<Product>,
    deleteConfirm: Option<int>,
    isLoading: bool,
    tab: Tab,
    search: string,
    filterType: string)

  const DefaultCurrency := "USD"
  const DefaultUnit := "kg"

  /** The empty form the portal starts with and resets to. */
  const DefaultForm := ProductForm("", "", "", "", "", DefaultCurrency, DefaultUnit, "")

  /** The product a submitted form describes, as `handleUpload` builds it. */
  function NewProduct(f: ProductForm, id: int, today: string, parsedPrice: Option<real>): Product
  {
    Product(id, f.name, f.productType, f.quantity, f.location, today, Uploaded, None,
            parsedPrice, f.currency, f.unit, f.description, 0.0, Some(0), Some(0))
  }

  /**
   * `handleUpload` as written: prepends the form's product with a fresh id (`Date.now()`),
   * resets and hides the form. It never looks at `editing`.
   */
  function Upload(s: State, id: int, today: string, parsedPrice: Option<real>): (r: State)
    ensures |r.products| == |s.products| + 1 && r.products[1..] == s.products
    ensures var p := r.products[0];
      && p.id == id && p.status == Uploaded && p.quality.None? && p.uploadDate == today
      && p.rating == 0.0 && p.views == Some(0) && p.revenue == Some(0) && p.price == parsedPrice
      && p.name == s.form.name && p.productType == s.form.productType && p.quantity == s.form.quantity
      && p.location == s.form.location && p.currency == s.form.currency && p.unit == s.form.unit
      && p.description == s.form.description
    ensures r.form == DefaultForm && !r.showUploadForm && !r.isLoading
    ensures r.editing == s.editing && r.deleteConfirm == s.deleteConfirm
    ensures r.tab == s.tab && r.search == s.search && r.filterType == s.filterType
  {
    s.(products := [NewProduct(s.form, id, today, parsedPrice)] + s.products,
       form := DefaultForm, showUploadForm := false, isLoading := false)
  }

  /** The start of `handleUpload`: the spinner turns on before the simulated request; nothing else changes yet. */
  function StartUpload(s: State): (r: State)
    ensures r.isLoading && r.(isLoading := s.isLoading) == s
  {
    s.(isLoading := true)
  }

  /**
   * `handleUpload` from start to completion: the spinner is on while the request is pending,
   * and the finished state is the completion's, with the spinner off again.
   */
  lemma UploadSpinner(s: State, id: int, today: string, parsedPrice: Option<real>)
    ensures StartUpload(s).isLoading
    ensures Upload(StartUpload(s), id, today, parsedPrice) == Upload(s, id, today, parsedPrice)
    ensures !Upload(StartUpload(s), id, today, parsedPrice).isLoading
  {
  }

  /**
   * The header's "Add Product"/"Cancel" button: flips the form's visibility. Unlike the form's
   * own cancel button it neither resets the form nor forgets the edited product.
   */
  function ToggleUploadForm(s: State): (r: State)
    ensures r.showUploadForm == !s.showUploadForm
    ensures r.(showUploadForm := s.showUploadForm) == s
  {
    s.(showUploadForm := !s.showUploadForm)
  }

  /** The "Add Product" button of the empty list: only shows the form. */
  function OpenUploadForm(s: State): (r: State)
    ensures r.showUploadForm
    ensures r.(showUploadForm := s.showUploadForm) == s
  {
    s.(showUploadForm := true)
  }

  /** Opening the form from the empty list and pressing the header button closes it again, with nothing else changed. */
  lemma OpenThenToggle(s: State)
    ensures ToggleUploadForm(OpenUploadForm(s)) == s.(showUploadForm := false)
  {
  }

  /** Two presses of the header button restore the state; one press after Edit hides the form but keeps the edit pending. */
  lemma ToggleAfterEdit(s: State, p: Product, priceText: string)
    ensures ToggleUploadForm(ToggleUploadForm(s)) == s
    ensures var r := ToggleUploadForm(Edit(s, p, priceText));
      !r.showUploadForm && r.editing == Some(p) && r.form == FormOf(p, priceText)
  {
  }

  /** The form filled from a product; `priceText` is `product.price.toString()`. */
  function FormOf(p: Product, priceText: string): ProductForm
  {
    ProductForm(p.name, p.productType, p.quantity, p.location, priceText, p.currency, p.unit, p.description)
  }

  /** `handleEdit`: remembers the product, fills the form from it and shows the form. */
  function Edit(s: State, p: Product, priceText: string): (r: State)
    ensures r.editing == Some(p) && r.showUploadForm
    ensures r.form == ProductForm(p.name, p.productType, p.quantity, p.location, priceText, p.currency, p.unit, p.description)
    ensures r.(editing := s.editing, form := s.form, showUploadForm := s.showUploadForm) == s
  {
    s.(editing := Some(p), form := FormOf(p, priceText), showUploadForm := true)
  }

  /** The form's cancel button: hides the form, forgets the edited product and resets the form. */
  function CancelForm(s: State): (r: State)
    ensures r.editing.None? && !r.showUploadForm && r.form == DefaultForm
    ensures r.(editing := s.editing, form := s.form, showUploadForm := s.showUploadForm) == s
  {
    s.(showUploadForm := false, editing := None, form := DefaultForm)
  }

  /** Cancelling an edit discards it: the state is as if the edit button had never been pressed. */
  lemma EditThenCancel(s: State, p: Product, priceText: string)
    ensures CancelForm(Edit(s, p, priceText)) == CancelForm(s)
    ensures CancelForm(Edit(s, p, priceText)).products == s.products
  {
  }

  /** The trash button only asks for confirmation. */
  function AskDelete(s: State, id: int): (r: State)
    ensures r.deleteConfirm == Some(id)
    ensures r.(deleteConfirm := s.deleteConfirm) == s
  {
    s.(deleteConfirm := Some(id))
  }

  /** The confirmation's overlay and Cancel button: the pending id is dropped and nothing is deleted. */
  function CancelDelete(s: State): (r: State)
    ensures r.deleteConfirm.None?
    ensures r.(deleteConfirm := s.deleteConfirm) == s
  {
    s.(deleteConfirm := None)
  }

  /** Asking and then cancelling leaves the list as it was; only a confirmed delete removes anything. */
  lemma AskThenCancel(s: State, id: int)
    ensures CancelDelete(AskDelete(s, id)) == s.(deleteConfirm := None)
    ensures CancelDelete(AskDelete(s, id)).products == s.products
  {
  }

  /** `handleDelete`: drops every product with the id and closes the confirmation. */
  function Delete(s: State, id: int): (r: State)
    ensures IsSubsequence(r.products, s.products)
    ensures forall p :: p in r.products <==> p in s.products && p.id != id
    ensures r.deleteConfirm.None?
    ensures r.(products := s.products, deleteConfirm := s.deleteConfirm) == s
  {
    s.(products := Filter(s.products, (p: Product) => p.id != id), deleteConfirm := None)
  }

  /** Deleting the id just uploaded restores the list, when that id was fresh. */
  lemma UploadThenDelete(s: State, id: int, today: string, parsedPrice: Option<real>)
    requires forall i :: 0 <= i < |s.products| ==> s.products[i].id != id
    ensures Delete(Upload(s, id, today, parsedPrice), id).products == s.products
  {
    var keep := (p: Product) => p.id != id;
    var p := NewProduct(s.form, id, today, parsedPrice);
    FilterAppend([p], s.products, keep);
    FilterKeepsAll(s.products, keep);
  }

  /**
   * Submitting the form while editing a listed product keeps the original and adds a new one:
   * the list grows by one and the edited product is still there, unchanged.
   */
  lemma EditSubmitDuplicates(s: State, i: int, priceText: string, id: int, today: string, parsedPrice: Option<real>)
    requires 0 <= i < |s.products|
    ensures var r := Upload(Edit(s, s.products[i], priceText), id, today, parsedPrice);
      && |r.products| == |s.products| + 1
      && s.products[i] in r.products
      && r.products[0].id == id
      && r.editing == Some(s.products[i])
  {
    var r := Upload(Edit(s, s.products[i], priceText), id, today, parsedPrice);
    assert r.products[i + 1] == s.products[i];
  }

  /** The edited product with the form's fields written over it; id, status and history stay. */
  function ApplyForm(p: Product, f: ProductForm, parsedPrice: Option<real>): Product
  {
    p.(name := f.name, productType := f.productType, quantity := f.quantity, location := f.location,
       price := parsedPrice, currency := f.currency, unit := f.unit, description := f.description)
  }

  /**
   * The submit handler as the "Update Product" button means it: with a product being edited,
   * the products with its id take the form's fields in place; otherwise an upload. Either way
   * the form is reset and hidden and nothing is being edited afterwards.
   */
  function SubmitForm(s: State, id: int, today: string, parsedPrice: Option<real>): (r: State)
    ensures s.editing.None? ==> r == Upload(s, id, today, parsedPrice)
    ensures s.editing.Some? ==>
      && |r.products| == |s.products|
      && (forall i :: 0 <= i < |s.products| && s.products[i].id != s.editing.value.id ==> r.products[i] == s.products[i])
      && (forall i :: 0 <= i < |s.products| && s.products[i].id == s.editing.value.id ==>
            && r.products[i].id == s.products[i].id && r.products[i].status == s.products[i].status
            && r.products[i].name == s.form.name && r.products[i].price == parsedPrice)
    ensures r.form == DefaultForm && !r.showUploadForm && !r.isLoading && r.editing.None?
  {
    match s.editing
    case None => Upload(s, id, today, parsedPrice)
    case Some(e) =>
      s.(products := MapWhere(s.products, (p: Product) => p.id == e.id, (p: Product) => ApplyForm(p, s.form, parsedPrice)),
         form := DefaultForm, showUploadForm := false, editing := None, isLoading := false)
  }

  /** With the fix, editing a listed product and submitting neither adds nor duplicates anything. */
  lemma EditSubmitReplaces(s: State, i: int, priceText: string, id: int, today: string, parsedPrice: Option<real>)
    requires 0 <= i < |s.products|
    requires forall j :: 0 <= j < |s.products| && j != i ==> s.products[j].id != s.products[i].id
    ensures var r := SubmitForm(Edit(s, s.products[i], priceText), id, today, parsedPrice);
      && |r.products| == |s.products|
      && r.products[i] == ApplyForm(s.products[i], FormOf(s.products[i], priceText), parsedPrice)
      && (forall j :: 0 <= j < |s.products| && j != i ==> r.products[j] == s.products[j])
  {
  }

  /** The list filter: tab, case-insensitive search over name, type and location, and the type select. */
  predicate Visible(p: Product, tab: Tab, search: string, filterType: string)
  {
    && (tab.AllProducts? || p.status == tab.status)
    && SearchHits([p.name, p.productType, p.location], search)
    && (filterType == "" || p.productType == filterType)
  }

  /** `filteredProducts`: the products the tab, the search and the type select admit, in list order. */
  function FilteredProducts(s: State): (r: seq<Product>)
    ensures IsSubsequence(r, s.products)
    ensures forall p :: p in r <==> p in s.products && Visible(p, s.tab, s.search, s.filterType)
  {
    Filter(s.products, (p: Product) => Visible(p, s.tab, s.search, s.filterType))
  }

  /** `products.map(p => p.type)`. */
  function Types(ps: seq<Product>): (r: seq<string>)
    ensures |r| == |ps| && forall i :: 0 <= i < |ps| ==> r[i] == ps[i].productType
  {
    seq(|ps|, i requires 0 <= i < |ps| => ps[i].productType)
  }

  predicate Distinct(xs: seq<string>)
  {
    forall i, j :: 0 <= i < j < |xs| ==> xs[i] != xs[j]
  }

  /** Adds the values of `xs` to the insertion-ordered set `acc`, as `new Set(...)` does. */
  function AddAll(acc: seq<string>, xs: seq<string>): (r: seq<string>)
    requires Distinct(acc)
    ensures Distinct(r)
    ensures |acc| <= |r| <= |acc| + |xs| && r[..|acc|] == acc
    ensures forall x :: x in r <==> x in acc || x in xs
    decreases |xs|
  {
    if xs == [] then acc
    else if xs[0] in acc then AddAll(acc, xs[1..])
    else
      var r := AddAll(acc + [xs[0]], xs[1..]);
      assert (acc + [xs[0]])[..|acc|] == acc;
      assert r[..|acc|] == r[..|acc| + 1][..|acc|];
      r
  }

  /** `productTypes`: each type once, in order of first appearance. */
  function ProductTypes(ps: seq<Product>): (r: seq<string>)
    ensures Distinct(r) && |r| <= |ps|
    ensures forall t :: t in r <==> exists i :: 0 <= i < |ps| && ps[i].productType == t
  {
    var r := AddAll([], Types(ps));
    assert forall t :: t in Types(ps) <==> exists i :: 0 <= i < |ps| && ps[i].productType == t;
    r
  }

  /** When no two values repeat, the set keeps them all, in order. */
  /** The prefix of a duplicate-free list is duplicate-free and misses the next value. */
  lemma DistinctSplit(acc: seq<string>, x: string, rest: seq<string>)
    requires Distinct(acc + [x] + rest)
    ensures Distinct(acc) && x !in acc && Distinct(acc + [x])
  {
    var all := acc + [x] + rest;
    var front := acc + [x];
    forall i, j | 0 <= i < j < |front|
      ensures front[i] != front[j]
    {
      assert front[i] == all[i] && front[j] == all[j];
    }
    forall i, j | 0 <= i < j < |acc|
      ensures acc[i] != acc[j]
    {
      assert acc[i] == front[i] && acc[j] == front[j];
    }
    forall k | 0 <= k < |acc|
      ensures acc[k] != x
    {
      assert acc[k] == front[k] && x == front[|acc|];
    }
  }

  lemma {:induction false} AddAllDistinct(acc: seq<string>, xs: seq<string>)
    requires Distinct(acc + xs)
    ensures Distinct(acc)
    ensures AddAll(acc, xs) == acc + xs
    decreases |xs|
  {
    if xs == [] {
      assert acc + xs == acc;
    } else {
      assert acc + [xs[0]] + xs[1..] == acc + xs;
      DistinctSplit(acc, xs[0], xs[1..]);
      AddAllDistinct(acc + [xs[0]], xs[1..]);
    }
  }

  /** With pairwise different types, `productTypes` is the list of types itself. */
  lemma DistinctTypesKept(ps: seq<Product>)
    requires Distinct(Types(ps))
    ensures ProductTypes(ps) == Types(ps)
  {
    assert [] + Types(ps) == Types(ps);
    AddAllDistinct([], Types(ps));
  }

  /** `p.revenue || 0` and `p.views || 0`. */
  function OrZero(v: Option<int>): int
  {
    match v
    case Some(n) => n
    case None => 0
  }

  function RevenueOf(p: Product): int { OrZero(p.revenue) }
  function ViewsOf(p: Product): int { OrZero(p.views) }

  /** The integer part of the dashboard: product count, total revenue, total views. */
  datatype Stats = Stats(totalProducts: nat, totalRevenue: int, totalViews: int)

  function ComputeStats(ps: seq<Product>): (st: Stats)
    ensures st.totalProducts == |ps|
  {
    Stats(|ps|, Sum(ps, RevenueOf), Sum(ps, ViewsOf))
  }

  /** Missing revenue and views count as zero: only the recorded numbers contribute. */
  lemma {:induction false} MissingCountsZero(ps: seq<Product>)
    requires forall i :: 0 <= i < |ps| ==> ps[i].revenue.None? && ps[i].views.None?
    ensures ComputeStats(ps) == Stats(|ps|, 0, 0)
    decreases |ps|
  {
    if ps != [] {
      MissingCountsZero(ps[1..]);
    }
  }

  /** An upload adds one product and, carrying no revenue and no views, leaves both totals alone. */
  lemma StatsAfterUpload(s: State, id: int, today: string, parsedPrice: Option<real>)
    ensures var before := ComputeStats(s.products);
      ComputeStats(Upload(s, id, today, parsedPrice).products)
        == before.(totalProducts := before.totalProducts + 1)
  {
    var p := NewProduct(s.form, id, today, parsedPrice);
    SumAppend([p], s.products, RevenueOf);
    SumAppend([p], s.products, ViewsOf);
  }

  /** A delete lowers each total by exactly what the removed products contributed. */
  lemma StatsAfterDelete(s: State, id: int)
    ensures var gone := Filter(s.products, (p: Product) => p.id == id);
      var after := ComputeStats(Delete(s, id).products);
      var before := ComputeStats(s.products);
      && after.totalProducts == before.totalProducts - |gone|
      && after.totalRevenue == before.totalRevenue - Sum(gone, RevenueOf)
      && after.totalViews == before.totalViews - Sum(gone, ViewsOf)
  {
    DeleteSplit(s.products, id, RevenueOf);
    DeleteSplit(s.products, id, ViewsOf);
  }

  /** The products a delete keeps and the ones it drops share out any per-product sum. */
  lemma DeleteSplit(ps: seq<Product>, id: int, f: Product -> int)
    ensures Sum(Filter(ps, (p: Product) => p.id != id), f)
         == Sum(ps, f) - Sum(Filter(ps, (p: Product) => p.id == id), f)
    ensures |Filter(ps, (p: Product) => p.id != id)| == |ps| - |Filter(ps, (p: Product) => p.id == id)|
  {
    SumSplit(ps, (p: Product) => p.id != id, (p: Product) => p.id == id, f);
  }

  /** A tab's badge count: `products.filter(p => p.status === status).length`. */
  function TabCount(ps: seq<Product>, status: Status): nat
  {
    Count(ps, (p: Product) => p.status == status)
  }

  /** With no search and no type selected, a status tab lists exactly as many products as its badge counts. */
  lemma TabCountMatchesListing(s: State, status: Status)
    requires s.tab == StatusTab(status) && s.search == "" && s.filterType == ""
    ensures |FilteredProducts(s)| == TabCount(s.products, status)
  {
    forall p: Product ensures Visible(p, s.tab, s.search, s.filterType) == (p.status == status) {
      EmptySearchHits([p.name, p.productType, p.location]);
    }
    SameFilter(s.products, (p: Product) => Visible(p, s.tab, s.search, s.filterType), (p: Product) => p.status == status);
  }

  /** An upload adds one to the pending ("uploaded") badge and leaves the other badges alone. */
  lemma TabCountsAfterUpload(s: State, id: int, today: string, parsedPrice: Option<real>, status: Status)
    ensures TabCount(Upload(s, id, today, parsedPrice).products, status)
         == TabCount(s.products, status) + (if status == Uploaded then 1 else 0)
  {
    var p := NewProduct(s.form, id, today, parsedPrice);
    FilterAppend([p], s.products, (q: Product) => q.status == status);
  }
}
