/**
 * The records held by the product store: a product is the object the store
 * keeps in its list, seen as its own properties.
 */
module Products {

  datatype Option<+T> = None | Some(value: T)

  /** A property value. Only strings are ever inspected (the `i_id` match);
      nested objects and arrays are outside the model. */
  datatype Value = Str(s: string) | Num(n: real) | Bool(b: bool) | Null

  /** A cached product record (`DsProduct`). The `item as DsProduct` cast of
      `getProducts` checks nothing, so a record is whatever properties the
      object carries; `name`, `price`, `detail` and `salesDate` are among them
      when the datastore supplies them. */
  datatype Product = Product(props: map<string, Value>)

  /** `p.i_id === id` for a string `id`: the property exists and holds that
      same string (a missing property is `undefined`, which matches no string). */
  predicate HasId(p: Product, id: string)
  {
    "i_id" in p.props && p.props["i_id"] == Str(id)
  }
}
