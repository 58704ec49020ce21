/**
  The product store slice (src/store/slices/productSlice.js): the loading and error flags
  around fetching, replacing the list on fetch, prepending a created product, and replacing
  an updated one in place.
 */
module ProductSlice {

  import opened Wrappers
  import opened JsValues
  import SaleLedger

  type Product = SaleLedger.Product

  /** The update match: `p._id === q._id || p.id === q.id`; two absent ids count as equal. */
  predicate SameProduct(p: Product, q: Product)
  {
    p.dbId == q.dbId || p.id == q.id
  }

  /** Where an updated product lands: the first element it matches. */
  function ProductIndex(list: seq<Product>, q: Product): (r: Option<nat>)
    ensures r.Some? ==> r.value < |list| && SameProduct(list[r.value], q)
    ensures r.Some? ==> forall j | 0 <= j < r.value :: !SameProduct(list[j], q)
    ensures r.None? ==> forall j | 0 <= j < |list| :: !SameProduct(list[j], q)
  {
    FindIndex(list, (p: Product) => SameProduct(p, q))
  }

  /** An update whose payload has no `_id` lands on the first element that has none either. */
  lemma AbsentIdsMatch(list: seq<Product>, q: Product)
    requires |list| > 0 && list[0].dbId == NoId && q.dbId == NoId
    ensures ProductIndex(list, q) == Some(0)
  {
  }

  class ProductStore {
    var list: seq<Product>
    var loading: bool
    var error: Option<string>

    /** `initialState`: an empty list, not loading, no error. */
    constructor ()
      ensures list == [] && !loading && error == None
    {
      list := [];
      loading := false;
      error := None;
    }

    /** `fetchProducts.pending`. */
    method FetchPending()
      modifies this
      ensures loading && error == None && list == old(list)
    {
      loading := true;
      error := None;
    }

    /** `fetchProducts.fulfilled`: `payload.products || []`. */
    method FetchFulfilled(products: Option<seq<Product>>)
      modifies this
      ensures !loading && error == old(error)
      ensures list == if products.Some? then products.value else []
    {
      loading := false;
      list := if products.Some? then products.value else [];
    }

    /** `fetchProducts.rejected`: `payload || error.message`. */
    method FetchRejected(payload: Option<string>, message: string)
      modifies this
      ensures !loading && error == Some(MessageOr(payload, message)) && list == old(list)
    {
      loading := false;
      error := Some(MessageOr(payload, message));
    }

    /** `createProduct.fulfilled`: `list.unshift(payload)`. */
    method CreateFulfilled(p: Product)
      modifies this
      ensures list == [p] + old(list) && |list| == |old(list)| + 1
      ensures loading == old(loading) && error == old(error)
    {
      list := [p] + list;
    }

    /** Writes `q` over the first matching element, if any; shared by both update cases. */
    method ReplaceMatching(q: Product)
      modifies this
      ensures |list| == |old(list)|
      ensures ProductIndex(old(list), q).None? ==> list == old(list)
      ensures ProductIndex(old(list), q).Some? ==> list == old(list)[ProductIndex(old(list), q).value := q]
      ensures loading == old(loading) && error == old(error)
    {
      var index := ProductIndex(list, q);
      if index.Some? {
        list := list[index.value := q];
      }
    }

    /** `updateProduct.fulfilled`: replace only the first match; nothing when none matches. */
    method UpdateFulfilled(q: Product)
      modifies this
      ensures |list| == |old(list)|
      ensures ProductIndex(old(list), q).None? ==> list == old(list)
      ensures ProductIndex(old(list), q).Some? ==> list == old(list)[ProductIndex(old(list), q).value := q]
      ensures loading == old(loading) && error == old(error)
    {
      ReplaceMatching(q);
    }

    /** `updateStock.fulfilled`: the same rule as an update. */
    method UpdateStockFulfilled(q: Product)
      modifies this
      ensures |list| == |old(list)|
      ensures ProductIndex(old(list), q).None? ==> list == old(list)
      ensures ProductIndex(old(list), q).Some? ==> list == old(list)[ProductIndex(old(list), q).value := q]
      ensures loading == old(loading) && error == old(error)
    {
      ReplaceMatching(q);
    }
  }
}
