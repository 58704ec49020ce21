/**
  The customer store slice (src/store/slices/customerSlice.js): like the product slice, with
  pagination kept from the last fetch and a different rule for finding the updated customer.
 */
module CustomerSlice {

  import opened Wrappers
  import opened JsValues

  /** A customer as the server sends it. */
  datatype Customer = Customer(dbId: JsId, id: JsId, name: string, phone: string, pendingDue: real)

  datatype Pagination = Pagination(currentPage: int, totalPages: int, totalItems: int)

  /** `{ currentPage: 1, totalPages: 1, totalItems: 0 }`. */
  const InitialPagination := Pagination(1, 1, 0)

  /** The key a customer is compared by: `c._id || c.id`. */
  function CustomerKey(c: Customer): JsId
  {
    IdOr(c.dbId, c.id)
  }

  /** Where an updated customer lands: the first element with the same key. */
  function CustomerIndex(list: seq<Customer>, q: Customer): (r: Option<nat>)
    ensures r.Some? ==> r.value < |list| && CustomerKey(list[r.value]) == CustomerKey(q)
    ensures r.Some? ==> forall j | 0 <= j < r.value :: CustomerKey(list[j]) != CustomerKey(q)
    ensures r.None? ==> forall j | 0 <= j < |list| :: CustomerKey(list[j]) != CustomerKey(q)
  {
    FindIndex(list, (c: Customer) => CustomerKey(c) == CustomerKey(q))
  }

  /**
    The customer rule differs from the product rule: sharing `id` does not make a match when
    both `_id`s are present and different, because only the `_id` is compared then.
   */
  lemma SharedIdIsNotEnough()
    ensures CustomerIndex([Customer(Id("a"), Id("x"), "", "", 0.0)], Customer(Id("b"), Id("x"), "", "", 0.0)).None?
  {
  }

  class CustomerStore {
    var list: seq<Customer>
    var pagination: Pagination
    var loading: bool
    var error: Option<string>

    /** `initialState`. */
    constructor ()
      ensures list == [] && pagination == Pagination(1, 1, 0) && !loading && error == None
    {
      list := [];
      pagination := InitialPagination;
      loading := false;
      error := None;
    }

    /** `fetchCustomers.pending`. */
    method FetchPending()
      modifies this
      ensures loading && error == None && list == old(list) && pagination == old(pagination)
    {
      loading := true;
      error := None;
    }

    /** `fetchCustomers.fulfilled`: `customers || []`, `pagination || state.pagination`. */
    method FetchFulfilled(customers: Option<seq<Customer>>, page: Option<Pagination>)
      modifies this
      ensures !loading && error == old(error)
      ensures list == if customers.Some? then customers.value else []
      ensures pagination == if page.Some? then page.value else old(pagination)
    {
      loading := false;
      list := if customers.Some? then customers.value else [];
      pagination := if page.Some? then page.value else pagination;
    }

    /** `fetchCustomers.rejected`: `payload || error.message`. */
    method FetchRejected(payload: Option<string>, message: string)
      modifies this
      ensures !loading && error == Some(MessageOr(payload, message))
      ensures list == old(list) && pagination == old(pagination)
    {
      loading := false;
      error := Some(MessageOr(payload, message));
    }

    /** `createCustomer.fulfilled`: `list.unshift(payload)`. */
    method CreateFulfilled(c: Customer)
      modifies this
      ensures list == [c] + old(list) && |list| == |old(list)| + 1
      ensures pagination == old(pagination) && loading == old(loading) && error == old(error)
    {
      list := [c] + list;
    }

    /** `updateCustomer.fulfilled`: replace the first element with the same key, if any. */
    method UpdateFulfilled(q: Customer)
      modifies this
      ensures |list| == |old(list)|
      ensures CustomerIndex(old(list), q).None? ==> list == old(list)
      ensures CustomerIndex(old(list), q).Some? ==> list == old(list)[CustomerIndex(old(list), q).value := q]
      ensures pagination == old(pagination) && loading == old(loading) && error == old(error)
    {
      var index := CustomerIndex(list, q);
      if index.Some? {
        list := list[index.value := q];
      }
    }
  }
}
