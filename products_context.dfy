/**
 * The catalog store shared by the customer pages: the product list mirrored from the
 * remote 'product' collection and a loading flag. The fetch itself is an input.
 */
module ProductsContext {
  import opened JsValues
  import opened ProductList

  /** A fetched document: its id and its data. */
  datatype Doc = Doc(id: string, data: Record)

  /** How the fetch ended: with the documents, in collection order, or with an error. */
  datatype FetchOutcome = Fetched(docs: seq<Doc>) | FetchFailed

  /** `{ id: doc.id, ...doc.data() }`: the data's own fields, later ones winning. */
  function Entry(d: Doc): (r: Record)
    ensures Id(r) == if "id" in d.data then d.data["id"] else Str(d.id)
    ensures forall k :: k != "id" ==> Get(r, k) == Get(d.data, k)
    ensures r.Keys == d.data.Keys + {"id"}
  {
    map["id" := Str(d.id)] + d.data
  }

  /** `querySnapshot.docs.map(...)`. */
  function Entries(docs: seq<Doc>): (r: seq<Record>)
    ensures |r| == |docs|
  {
    seq(|docs|, i requires 0 <= i < |docs| => Entry(docs[i]))
  }

  /** One entry per document, in document order, each with the document's fields. */
  lemma EntriesFollowDocs(docs: seq<Doc>, i: nat)
    requires i < |docs|
    ensures Id(Entries(docs)[i]) == if "id" in docs[i].data then docs[i].data["id"] else Str(docs[i].id)
    ensures forall k :: k != "id" ==> Get(Entries(docs)[i], k) == Get(docs[i].data, k)
  {
    assert Entries(docs)[i] == Entry(docs[i]);
  }

  /** The product list once a load has finished with `outcome`. */
  function AfterLoad(products: seq<Record>, outcome: FetchOutcome): (r: seq<Record>)
    ensures outcome.FetchFailed? ==> r == products
    ensures outcome.Fetched? ==> |r| == |outcome.docs|
    ensures outcome.Fetched? ==> forall i :: 0 <= i < |r| ==> r[i] == Entry(outcome.docs[i])
  {
    match outcome
    case Fetched(docs) => Entries(docs)
    case FetchFailed => products
  }

  /** Loading twice with the same outcome is loading once. */
  lemma LoadIdempotent(products: seq<Record>, outcome: FetchOutcome)
    ensures AfterLoad(AfterLoad(products, outcome), outcome) == AfterLoad(products, outcome)
  {
  }

  /**
   * Of two overlapping loads, whichever finishes last and succeeds decides the list, even
   * when it was started first: responses are not ordered.
   */
  lemma LastFinishWins(products: seq<Record>, first: FetchOutcome, last: FetchOutcome)
    requires last.Fetched?
    ensures AfterLoad(AfterLoad(products, first), last) == Entries(last.docs)
  {
  }

  class ProductsProvider {
    var products: seq<Record>
    var loading: bool

    /** `useState([])` and `useState(true)`. */
    constructor ()
      ensures products == [] && loading
    {
      products := [];
      loading := true;
    }

    /** The part of `loadProducts` before the fetch is awaited. */
    method BeginLoad()
      modifies this`loading
      ensures loading
    {
      loading := true;
    }

    /** The part after it: replace the list on success, keep it on failure, stop loading. */
    method FinishLoad(outcome: FetchOutcome)
      modifies this
      ensures products == AfterLoad(old(products), outcome)
      ensures !loading
    {
      if outcome.Fetched? {
        products := Entries(outcome.docs);
      }
      loading := false;
    }

    /** `loadProducts`, with the fetch's outcome given. */
    method LoadProducts(outcome: FetchOutcome)
      modifies this
      ensures products == AfterLoad(old(products), outcome)
      ensures !loading
    {
      BeginLoad();
      FinishLoad(outcome);
    }

    /** `refreshProducts`: exactly a load. */
    method RefreshProducts(outcome: FetchOutcome)
      modifies this
      ensures products == AfterLoad(old(products), outcome)
      ensures !loading
    {
      LoadProducts(outcome);
    }
  }

  /** A failed refresh after a successful load keeps the loaded list. */
  method LoadThenFailedRefresh(docs: seq<Doc>)
  {
    var store := new ProductsProvider();
    store.LoadProducts(Fetched(docs));
    var loaded := store.products;
    store.RefreshProducts(FetchFailed);
    assert store.products == loaded == Entries(docs) && !store.loading;
  }
}
