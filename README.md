# Hexabase product store, modelled in Dafny

This project models the product cache of the Pinia store `useHexabaseClient`
in a Vue 3 product manager that keeps its records in a Hexabase datastore.
The store holds an ordered list of product records and offers these operations:

- `addProducts` appends records.
- `getProducts` replaces the list with the datastore's items. Before storing
  an item it renames the item's vendor field ids to display ids.
- `findProduct` looks a record up by `i_id`. If the list is empty, it first
  fills it with one fetch.
- `updateProduct` overwrites the slot found by `findIndex`.
- `removeProduct` splices out the slot found by `findIndex`.

Files:

- `products.dfy` (module `Products`): a record is the object's own properties,
  `map<string, Value>`. `HasId` is the test `p.i_id === id`. The
  `item as DsProduct` cast checks nothing, so a record need not carry an `i_id`.
  Such a record matches no id.
- `product_list.dfy` (module `ProductList`): `findIndex`, `find`, assignment at
  the found index, and `Array.prototype.splice`, all stated on the list's
  elements. The lemmas say what update and remove do when the id is present
  and when it is absent.
- `field_remap.dfy` (module `FieldRemap`): a raw item is an ordered key
  snapshot (what `Object.keys` returns) plus its property map. `Remapped`
  folds the `forEach` callback over the snapshot. The callback copies a
  mapped field's value under its display id, then deletes the field. The
  method `RemapItem` runs the loop, and lemmas describe its result.
- `store.dfy` (module `Store`): the class `ProductStore`. Its `products`
  field is reassigned by each method, and each method is specified by the
  functions above.

What happens when the id is absent:

- `findIndex` returns -1.
- `updateProduct` then assigns to `products[-1]`. That creates a property named
  "-1" on the array, so every element and the length stay as they were.
- `removeProduct` calls `splice(-1, 1)`. On a non-empty list this deletes the
  **last** record, which has nothing to do with the id. On an empty list it
  does nothing.
- No not-found guard is added: the model states exactly this behaviour.

Unmapped keys are kept: `return field` inside `forEach` only ends that one
callback (`UnmappedKeyKept`).

## Model

| member | source | states |
|---|---|---|
| `ProductList.FindIndex` | src/stores/hexabase.ts:99 | Returns -1 or an index into the list. A non-negative result holds a record with the id and no earlier record has it. -1 means no record has it. |
| `ProductList.Find` | src/stores/hexabase.ts:92 | None exactly when no record carries the id; otherwise a cached record that carries it. |
| `ProductList.FindAtFirstIndex` | src/stores/hexabase.ts:92 | `find` returns the element at the index `findIndex` gives, so the match is the FIRST one. |
| `ProductList.FindAppend` | src/stores/hexabase.ts:40-42 | After appending, a lookup hits the old records first and reaches the new batch only if the old ones lack the id. |
| `ProductList.Updated` | src/stores/hexabase.ts:98-101 | Length unchanged. The first matching slot holds the new record and every other slot is unchanged. With the id absent the list is unchanged. The new record's own `i_id` is not checked. |
| `ProductList.FindAfterUpdate` | src/stores/hexabase.ts:98-101 | If the id is present and the new record carries it, a later lookup of that id returns the new record. |
| `ProductList.Splice` | src/stores/hexabase.ts:108 | `splice` only deletes (the result's multiset is contained in the input's). `splice(i, 1)` at a valid index cuts out exactly element `i`. `splice(-1, 1)` on a non-empty list cuts out the last element. An empty list stays empty. |
| `ProductList.Removed` | src/stores/hexabase.ts:106-109 | Id present: length drops by one and the records before and after the first match keep their order. Id absent: a non-empty list loses its last record and an empty one stays empty. |
| `ProductList.RemovedPermutation` | src/stores/hexabase.ts:107-108 | Removing a present id takes out exactly the matched record: the old multiset is the new one plus that record. |
| `ProductList.RemovedUniqueIsGone` | src/stores/hexabase.ts:107-108 | When one record carries the id, no record carries it after removal. |
| `ProductList.RemovedAbsentDropsLast` | src/stores/hexabase.ts:107-108 | When `find` reports the id absent from a non-empty list, removal leaves the list minus its last record: the last record is the one taken out. |
| `Products.HasId` | src/stores/hexabase.ts:92 | Definition with no `ensures` of its own: the record has an `i_id` property holding exactly the string `id`, the test `p.i_id === id` used at lines 92, 99 and 107. Its use is proved through `FindIndex`'s and `Find`'s contracts. |
| `FieldRemap.Step` | src/stores/hexabase.ts:71-76 | Definition with no `ensures` of its own: a mapped field's value is copied under its display id and the field is then deleted; an unmapped field is left as it is. Its properties are proved in `RemappedMoves`, `RemappedUntouched`, `RemappedKeys` and `SelfMappedKeyDeleted`. |
| `FieldRemap.Remapped` | src/stores/hexabase.ts:70-77 | Definition with no `ensures` of its own: the callback applied to each key of the `Object.keys(item)` snapshot, first to last. Its properties are proved in `RemappedMoves`, `RemappedUntouched`, `RemappedKeys` and `SelfMappedKeyDeleted`; `RemapItem` is proved equal to it. |
| `FieldRemap.DisplayIdsMember` | src/stores/hexabase.ts:72 | The display ids written are exactly `fields[k]` for the snapshot keys `k` that the map knows. |
| `FieldRemap.RemappedUntouched` | src/stores/hexabase.ts:70-77 | A property that no step deletes and no display id overwrites keeps its value. A property that was absent stays absent. |
| `FieldRemap.RemappedKeys` | src/stores/hexabase.ts:70-77 | Each resulting property is either a written display id or an original property that was not both visited and mapped. |
| `FieldRemap.RemappedMoves` | src/stores/hexabase.ts:71-73 | Given distinct display ids that are not original keys, a mapped key disappears and its original value sits under its display id. |
| `FieldRemap.SelfMappedKeyDeleted` | src/stores/hexabase.ts:72-73 | A key whose display id is itself is deleted, unless a later key in the snapshot writes that name again. |
| `FieldRemap.OrderMatters` | src/stores/hexabase.ts:70-77 | One item and one field map, read in two key orders, give two different records. |
| `FieldRemap.RemapItem` | src/stores/hexabase.ts:70-77 | The loop over the key snapshot produces exactly `Remapped` of the snapshot, the item and the field map. |
| `FieldRemap.UnmappedKeyKept` | src/stores/hexabase.ts:74-76 | A key absent from the field map keeps its value, provided no display id lands on it. |
| `FieldRemap.MappedKeyMoved` | src/stores/hexabase.ts:71-73 | Given distinct display ids that do not coincide with the item's keys, a mapped key `k` is removed and its value appears under `fields[k]`. |
| `Store.FetchedProducts` | src/stores/hexabase.ts:69-79 | One record per fetched item in fetch order, each holding that item's remapped properties. |
| `Store.AfterFetch` | src/stores/hexabase.ts:64-79 | On a reported error the cache is unchanged. On success it has one remapped record per fetched item, in order. |
| `Store.ProductStore.constructor` | src/stores/hexabase.ts:26-27 | The cache starts empty. |
| `Store.ProductStore.AddProducts` | src/stores/hexabase.ts:40-42 | The cache becomes the old cache followed by the batch. |
| `Store.ProductStore.GetProducts` | src/stores/hexabase.ts:64-79 | The new cache is `AfterFetch` of the old cache, the field map and the response. |
| `Store.ProductStore.FindProduct` | src/stores/hexabase.ts:86-93 | It fetches only when the cache was empty; a non-empty cache stays unchanged even when it lacks the id. The result is the first record carrying the id in the resulting cache. |
| `Store.ProductStore.UpdateProduct` | src/stores/hexabase.ts:98-101 | The new cache is `Updated` of the old one. |
| `Store.ProductStore.RemoveProduct` | src/stores/hexabase.ts:106-109 | The new cache is `Removed` of the old one, -1 index included. |

## Left out

- `setToken` and the `localStorage` read and write of `hexabaseToken` (lines 8-10, 30-35) are left out. They are browser persistence with no logic to verify.
- Creating the `HexabaseClient` and the SDK calls `datastores.getFields` and `items.get` (lines 24, 49-62) are vendor network code. Their answers are parameters: a field map and an `ItemsResponse`.
- The field map is reduced to field id → `display_id` string. Other attributes of a field are never read.
- `field in fields` also matches names inherited from the object prototype, such as `constructor`. The model checks only the map's own keys.
- The non-null assertions `fields!` and `dsItems!` are taken to hold.
- `if (error)` tests truthiness. `Failed` stands for a truthy error value; a response whose error is absent or falsy, such as an empty string, is given as `Items`.
- The remap mutates the SDK's item objects in place. The model computes their new properties as values, which is enough because nothing else reads those objects.
- The "-1" property that `updateProduct` creates on the array for an absent id is not modelled, because nothing reads it.
- The key snapshot's order is an input. The model does not derive it from JavaScript's own-key ordering rules, where integer-like keys come first.
- Property values are strings, numbers (as `real`), booleans and null. Nested objects and arrays are left out, since the store only compares `i_id` with a string.
- Vue `ref` wrapping, Pinia `defineStore`, the `console.log` of the error and `config.json` are not modelled.
- Async interleaving is not modelled. Each operation runs atomically and in sequence, including the `await` of `getProducts` inside `findProduct`.
