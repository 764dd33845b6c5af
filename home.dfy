/** The customer home page: which products it shows, and when it says there are none. */
module Home {
  import opened JsValues
  import opened Seqs
  import opened ProductList

  /** `product.is_active === true || product.is_active === 'true'`. */
  predicate IsVisible(p: Record) {
    StrictEquals(Flag(p), Bool(true)) || StrictEquals(Flag(p), Str("true"))
  }

  /** `products.filter(...)`: the products a customer sees, in catalog order. */
  function ActiveProducts(ps: seq<Record>): (r: seq<Record>)
    ensures forall p :: p in r <==> p in ps && (Flag(p) == Bool(true) || Flag(p) == Str("true"))
    ensures forall p :: multiset(r)[p] == if IsVisible(p) then multiset(ps)[p] else 0
    ensures |r| <= |ps|
  {
    Filter(ps, IsVisible)
  }

  /** The visible products keep the catalog's order. */
  lemma ActiveProductsKeepOrder(ps: seq<Record>)
    ensures IsSubsequence(ActiveProducts(ps), ps)
  {
    FilterIsSubsequence(ps, IsVisible);
  }

  /** Filtering the visible list again changes nothing. */
  lemma ActiveProductsIdempotent(ps: seq<Record>)
    ensures ActiveProducts(ActiveProducts(ps)) == ActiveProducts(ps)
  {
    FilterIdempotent(ps, IsVisible);
  }

  /**
   * The comparison is strict: `false`, `"false"`, the number 1, `"TRUE"` and a missing flag
   * all hide a product.
   */
  lemma StrictFlagExcludes(p: Record)
    requires Flag(p) in {Bool(false), Str("false"), Num(1.0), Str("TRUE"), Undefined}
    ensures ActiveProducts([p]) == []
  {
    assert !IsVisible(p);
    assert [p][1..] == [];
  }

  /**
   * The admin table labels a flag "Active" when it is merely truthy, so a flag the
   * customer filter accepts is one the admin table labels "Active", but not the other
   * way round: the string "false" reads "Active" and fails the filter. (The two pages
   * show different lists; this compares the two tests on the same flag value.)
   */
  lemma VisibleMeansLabelledActive(p: Record)
    ensures IsVisible(p) ==> Truthy(Flag(p))
    ensures var q := map["is_active" := Str("false")]; Truthy(Flag(q)) && !IsVisible(q)
  {
    var q: Record := map["is_active" := Str("false")];
    assert Flag(q) == Str("false");
  }

  /**
   * For a record with a boolean flag, the dashboard's toggle flips the verdict of the
   * customer filter on that record. The dashboard's list and the customer catalog are
   * separate lists, so this is a fact about the record, not about what customers see.
   */
  lemma ToggleFlipsFilterVerdict(ps: seq<Record>, id: JsValue, i: nat)
    requires i < |ps| && HasId(ps[i], id) && Flag(ps[i]).Bool?
    ensures IsVisible(ProductList.ToggleActive(ps, id)[i]) <==> !IsVisible(ps[i])
  {
  }

  /**
   * Every record of the dashboard's default seed has a flag the customer filter accepts,
   * so filtering the seed keeps all of it. The seed lives in the dashboard's stored list,
   * not in the customer catalog.
   */
  lemma DefaultFlagsPassFilter()
    ensures ActiveProducts(DefaultProducts()) == DefaultProducts()
  {
    var d := DefaultProducts();
    forall p | p in d ensures IsVisible(p) {
      var i :| 0 <= i < |d| && d[i] == p;
    }
    FilterKeepsAll(d, IsVisible);
  }

  /** What the products grid renders. */
  datatype Grid = Spinner | Cards(shown: seq<Record>) | NoProducts

  /** The grid: a spinner while loading, else the visible cards, else the "none" notice. */
  function ProductsGrid(loading: bool, ps: seq<Record>): (g: Grid)
    ensures g == Spinner <==> loading
    ensures g == NoProducts <==> !loading && ActiveProducts(ps) == []
    ensures g == NoProducts <==> !loading && forall p :: p in ps ==> !IsVisible(p)
    ensures g.Cards? ==> g.shown == ActiveProducts(ps) && |g.shown| > 0
  {
    if loading then Spinner
    else if |ActiveProducts(ps)| > 0 then
      assert ActiveProducts(ps)[0] in ActiveProducts(ps);
      Cards(ActiveProducts(ps))
    else NoProducts
  }
}
