# Inventory manager: product record and catalog

A Dafny model of a terminal inventory manager. A product holds a name, a price and a
quantity. The constructor refuses a negative price or a negative quantity. A product's
total value is price times quantity. The manager keeps an ordered list of products. It can
add a product, list the products with 1-based ids, per-line totals and the stock value,
remove or edit a product by id, and save the list to a JSON data file or load it back.

- `wrappers.dfy`: `Option` and `Result`.
- `product.dfy` (module `Products`, after `product.py`): the `Product` value, its
  validating constructor `NewProduct`, `ValueTotal`, and the JSON record of a product
  (`Value`, `Record`, `Lookup`, `ToRecord`). It also holds the encoder hook `Default`.
- `system.dfy` (module `Catalog`, after `system.py`): the class `System` holds the list in
  the field `products: seq<Product>`. Its methods replace that field as the source's
  `append`, `remove`, `clear` and `setattr` change the list. Persistence is a pair of pure
  mappings between the list and the file's records: `ToRecords` for saving, and
  `FromRecord` / `LoadItems` for loading. The file is a `Disk` value, either `Missing` or
  `Stored(items)`.

`WidgetGadgetSession` in `system.dfy` is a client session: it adds Widget (9.99 x 3) and Gadget
(5.00 x 0), lists them, removes id 1, saves, and loads into a new manager. Its assertions
prove that the method contracts alone fix every concrete result of that session: the ids,
the totals, the stock value of 29.97, and the list after the reload.

Prices are exact `real`s and quantities are `int`s. The data file is modelled as a
sequence of records, not as JSON text. Each record is a sequence of (key, value) members
in document order, and a later member with a repeated key hides an earlier one, as Python
dictionaries do.

The model follows the code where it departs from the documented design:
- An edit is not validated.
- Negative ids select products from the end of the list.
- A load that fails leaves the products read before the bad item in the list.
- Id 0 is handled as "cancel" by remove and edit themselves.

## Model

| member | source | states |
|---|---|---|
| `Products.NewProduct` | product.py:4-13 | Succeeds exactly when price >= 0 and quantity >= 0, and then stores the three values as given with no check on the name. A negative price is the error even when the quantity is also negative, because the price is checked first. A negative quantity with a valid price gives the quantity error. |
| `Products.ValueTotal` | product.py:15-16 | The total of a valid product is never negative. It is zero when the price or the quantity is zero. |
| `Products.Lookup` | system.py:219 | A key is found exactly when some member of the record has it. The value found belongs to a member with that key that no later member with the same key follows. |
| `Products.ToRecord` | product.py:24-28 | A product's record (its attribute dictionary, and the encoder's dict) has exactly the keys name, price and quantity, in that order. |
| `Products.LookupToRecord` | product.py:24-28 | In a product's record, `name`, `price` and `quantity` each hold that product's own value. |
| `Products.Default` | product.py:21-30 | Succeeds exactly for products. The record has the keys name, price and quantity, in that order, holding the product's own values. Any other object is refused (the base encoder's TypeError). |
| `Catalog.FromRecord` | system.py:218-219 | An item becomes a product exactly when its name is a string, its price a number >= 0 and its quantity an integer >= 0. The product then holds the item's values, is valid, and is read from the three keys only. An error other than a missing key means all three keys were present. |
| `Catalog.RecordRoundTrip` | system.py:198-219 | Reading back the record of a valid product gives that product. For an invalid product it gives the constructor's error, with the price error first. |
| `Catalog.ToRecords` | system.py:198 | The saved list has one record per product. Each valid product's record reads back as that product. |
| `Catalog.LoadItems` | system.py:218-220 | The products that the load loop appends, each valid, in file order, together with the error of the first item that fails. There is no error exactly when every item was read. |
| `Catalog.LoadItemsStopsAtFirstFailure` | system.py:212-220 | Loading appends the products of the items before the first bad item, one per item and in file order. It reports that item's error, and reports no error exactly when every item was read. |
| `Catalog.LoadItemsFrom` | system.py:218-220 | Loading from item i either stops at item i with its error, or appends item i's product ahead of what the later items load. |
| `Catalog.SaveLoadRoundTrip` | system.py:197-220 | Saving a list of valid products and loading the file gives back the same list, in the same order, with no error. |
| `Catalog.ReloadStopsAtInvalid` | system.py:218-219 | A saved list that holds an invalid product at index i cannot be loaded. Loading reports an error after appending at most i products. |
| `Catalog.PythonIndex` | system.py:179 | List indexing with k succeeds exactly for -n <= k < n. It selects index k, or index k + n counted from the end. |
| `Catalog.ListedIndex` | system.py:111-112 | An id selects a product exactly when it is one of the ids 1..n that the listing shows, and then it selects the product listed with it. |
| `Catalog.ListedIdsAgree` | system.py:179 | For ids >= 1, Python's indexing with id - 1 selects the same product as the listing's id. |
| `Catalog.NegativeIdSelectsProduct` | system.py:134 | On a list of n products, any id from 1 - n to -1 still selects a product (the one at index n + id - 1), although no listed row has that id. |
| `Catalog.OptionField` | system.py:142-146 | Options 1, 2 and 3 select name, price and quantity respectively. No other option selects a field. |
| `Catalog.SetField` | system.py:149-151 | The chosen field takes the entered value and the other two fields keep theirs. Nothing is validated. |
| `Catalog.SetFieldChecked` | product.py:7-13 | The corrected edit. It refuses exactly a negative new price or quantity. Otherwise it equals the plain field update and the product stays valid. |
| `Catalog.EditCanBreakReload` | system.py:151 | After an edit that gives any product a negative price or a negative quantity, the saved list can no longer be loaded. |
| `Catalog.StockTotal` | system.py:113 | The stock value of a list of valid products is never negative. |
| `Catalog.StockTotalCons` | system.py:113 | The stock value of a list is its first product's total plus the stock value of the rest. |
| `Catalog.StockTotalConcat` | system.py:113 | The stock value of two lists joined is the sum of their stock values. |
| `Catalog.StockTotalRemove` | system.py:180 | Removing the product at index i lowers the stock value by exactly that product's total. |
| `Catalog.StockTotalAppend` | system.py:93 | Appending a product raises the stock value by exactly that product's total. |
| `Catalog.System.constructor` | system.py:7-8 | A new manager starts with an empty list. |
| `Catalog.System.Add` | system.py:92-93 | Constructs the product. On success it is appended last and earlier products are unchanged; on a refusal the list is unchanged. The stock value rises by the new total, and an all-valid list stays all-valid. |
| `Catalog.System.ListProducts` | system.py:109-115 | The empty list takes the distinct "no products" branch. Otherwise row i shows id i + 1, the i-th product and its total, each row's id selects that row's product, and the stock value is the sum over the list, never negative for valid products. |
| `Catalog.System.Remove` | system.py:176-185 | Id 0 cancels and an id that raises IndexError leaves the list unchanged. Any other id, negative ones included, removes exactly the selected product, keeps the others in order, and lowers the stock value by its total. |
| `Catalog.System.Edit` | system.py:131-159 | Id 0 cancels. An id that raises IndexError, or an option outside 1..3, leaves the list unchanged. Otherwise only the chosen field of the selected product changes, with no check on the value. |
| `Catalog.System.RemoveListed` | system.py:176-185 | The corrected remove: only the listed ids 1..n remove a product, and every other id leaves the list unchanged. |
| `Catalog.System.EditChecked` | system.py:131-159 | The corrected edit: only listed ids select a product. A refused value leaves the list unchanged, an accepted one changes only the chosen field, and every product stays valid. |
| `Catalog.System.Save` | system.py:197-199 | Writes one record per product, in list order. When every product is valid, loading what was written gives back the same list. |
| `Catalog.System.Load` | system.py:211-223 | Empties the list first. A missing file is created holding `[]` and the list stays empty. Otherwise the list becomes the products of the items before the first bad one, in file order, and that item's error is reported. Every product in the list is valid. |

## Left out

- Terminal I/O is not modelled: `clear_screen` and its subprocess calls, `show_header`, every `print`, the colour codes and `sleep`.
- `input_str`, `input_int` and `input_float`, with their retry loops, are not modelled. The ids, options and values they return are method parameters.
- The retry loops of `edit_product` and `remove_product` are not modelled as loops. `Edit` and `Remove` model one attempt, and an attempt that does not end the loop leaves the list unchanged. The `ValueError` caught at system.py:160 comes from input and is not modelled.
- The column widths and `.2f` formatting of `list_products`, and `Product.__str__`, are not modelled. The listing returns ids, products, totals and the stock value.
- File access is not modelled: `open`, `os.makedirs`, the JSON text, UTF-8 and indentation. A write that fails is not modelled either. The file is a `Disk` value, and `Load` returns the file as it is afterwards.
- Floating point is not modelled. Prices, totals and the stock value are exact reals, so `value_total` and the sum are free of rounding. A price of `nan`, which `input_float` accepts and the constructor lets through because `nan < 0` is false, has no counterpart.
- Saving writes every price as a JSON number with a fraction. The source would write back a price that was loaded as a JSON integer as an integer.
- `FromRecord` types the record's values, so it treats two items as errors that Python accepts: one whose name is not a string, and one whose quantity is a JSON float. Items that are not objects are not modelled. Neither are JSON booleans, nulls, arrays or objects as values, although Python accepts any of them as a name.
- Products are values, not objects. `setattr` on the selected product becomes a replacement of that element. `list.remove(product)` becomes removal at the selected index: `Product` defines no equality, so `remove` compares by identity, and no product object appears twice in the list.
- Errors are returned as values. In the source, a `ValueError` from `add_product` and any error raised in `load_data` are not caught, and they end the program. `System.__init__` is the constructor followed by `Load`.
- `ProductEncoder` is never called on save, because the list is already converted to dictionaries at system.py:198. `Default` is modelled on its own.
- `quit` and its `sys.exit` calls are not modelled, including the unreachable one at system.py:241. Neither is the menu loop of main.py. Saving before exit is `Save`.

## Findings

| source | as written | input that shows it | evidently intended | confidence | as-written member | corrected member |
|---|---|---|---|---|---|---|
| system.py:134 | `self.products[product_id-1]` (also at line 179) uses Python indexing, so a negative id selects a product counted from the end | with three products, remove id -1: it removes the second product (index 1), though the listing shows ids 1 to 3 only | only the ids 1..n that the listing shows select a product; other ids report "product does not exist" | medium, not executed | `Catalog.NegativeIdSelectsProduct` | `Catalog.ListedIndex` |
| system.py:151 | `setattr(product, attr, func(prompt))` stores the new price or quantity without the constructor's checks | edit id 1, option 2, new price -1.0, save, restart: `load_data` raises ValueError while constructing the manager | an edit applies the same non-negativity checks as construction, so every product stays loadable | high, not executed | `Catalog.EditCanBreakReload` | `Catalog.SetFieldChecked` |

`Catalog.System.RemoveListed` and `Catalog.System.EditChecked` are the manager's operations
built on the corrected definitions. With them, all methods keep every product valid, so the
save/load round trip (`Catalog.System.Save`) always applies.
