/**
 * The product store `useHexabaseClient`: the cached list of products and
 * the operations that read and change it. The two remote calls of
 * `getProducts` (the datastore's field list and its items) are inputs.
 */
module Store {
  import opened Products
  import opened ProductList
  import opened FieldRemap

  /** What `items.get` reports, as `if (error)` reads it: `Failed` stands for
      a truthy error value, `Items` for a response whose error is absent or
      falsy. */
  datatype ItemsResponse = Failed(error: string) | Items(items: seq<RawItem>)

  /** The records `getProducts` stores on success: one remapped record per
      fetched item, in fetch order. */
  function FetchedProducts(items: seq<RawItem>, fields: map<string, string>): (r: seq<Product>)
    ensures |r| == |items|
    ensures forall k :: 0 <= k < |items| ==>
              r[k].props == Remapped(items[k].keys, items[k].props, fields)
  {
    if items == [] then []
    else [Product(Remapped(items[0].keys, items[0].props, fields))] + FetchedProducts(items[1..], fields)
  }

  /** The cache after `getProducts` has received `fields` and `response`: an
      error leaves it as it was, success replaces it by the fetched records. */
  function AfterFetch(cache: seq<Product>, fields: map<string, string>, response: ItemsResponse): (r: seq<Product>)
    ensures response.Failed? ==> r == cache
    ensures response.Items? ==>
              |r| == |response.items| &&
              forall k :: 0 <= k < |r| ==>
                r[k].props == Remapped(response.items[k].keys, response.items[k].props, fields)
  {
    match response
    case Failed(_) => cache
    case Items(items) => FetchedProducts(items, fields)
  }

  class ProductStore {
    /** The cached products, in insertion or fetch order. */
    var products: seq<Product>

    /** The store starts with an empty list. */
    constructor ()
      ensures products == []
    {
      products := [];
    }

    /** `addProducts`: the cache becomes the old cache followed by `ps`. */
    method AddProducts(ps: seq<Product>)
      modifies this
      ensures products == old(products) + ps
    {
      products := products + ps;
    }

    /** `getProducts`, with the answers of `getFields` and `items.get` given.
        On an error the cache is left alone (the error is only logged); on
        success every item is remapped and the list replaced. */
    method GetProducts(fields: map<string, string>, response: ItemsResponse)
      modifies this
      ensures products == AfterFetch(old(products), fields, response)
    {
      match response
      case Failed(_) =>
      case Items(items) =>
        var fetched: seq<Product> := [];
        var i := 0;
        while i < |items|
          invariant 0 <= i <= |items|
          invariant |fetched| == i
          invariant forall k :: 0 <= k < i ==>
                      fetched[k].props == Remapped(items[k].keys, items[k].props, fields)
        {
          var props := RemapItem(items[i], fields);
          fetched := fetched + [Product(props)];
          i := i + 1;
        }
        assert fetched == FetchedProducts(items, fields);
        products := fetched;
    }

    /** `findProduct`: an empty cache is filled by one `getProducts` first (with
        `fields` and `response` as that call's answers); a non-empty cache is
        searched as it is. The result is the first record carrying `id`. */
    method FindProduct(id: string, fields: map<string, string>, response: ItemsResponse)
      returns (found: Option<Product>)
      modifies this
      ensures products == if old(products) == [] then AfterFetch(old(products), fields, response)
                          else old(products)
      ensures found == Find(products, id)
    {
      if |products| == 0 {
        GetProducts(fields, response);
      }
      found := Find(products, id);
    }

    /** `updateProduct`: the slot `findIndex` gives is overwritten with
        `product`, whose own `i_id` is not checked. At index -1 no element
        changes. */
    method UpdateProduct(id: string, product: Product)
      modifies this
      ensures products == Updated(old(products), id, product)
    {
      var index := FindIndex(products, id);
      if 0 <= index {
        products := products[index := product];
      }
    }

    /** `removeProduct`: `splice(index, 1)` at the index `findIndex` gives,
        -1 included. */
    method RemoveProduct(id: string)
      modifies this
      ensures products == Removed(old(products), id)
    {
      var index := FindIndex(products, id);
      products := Splice(products, index, 1);
    }
  }
}
