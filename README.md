# Pharmacy ledger store — a Dafny model

This project models the ledger store of a small pharmacy record keeper
(`App.tsx`). The store holds six collections: medicines, patients, sales
transactions, patient credits (Udhari), supplier agencies and agency bills.
Handlers change those collections. Per-entity handlers add, update by id and
delete. A sale (`addTransaction`) prepends the transaction, moves each line
item's quantity from stock to sold, and may open a pending credit. Deleting an
agency also deletes that agency's bills. The vault backup writes all six
collections into one document, and restore copies back each collection the
document contains.

Layout, one module per file:

- `wrappers.dfy` (`Wrappers`): `Option`, for optional keys and absent fields.
- `seqs.dfy` (`Seqs`): the array combinators the updaters use: a conditional `map`, `filter`, a subsequence relation, counting by key.
- `types.dfy` (`Types`): the records of `types.ts`. Also the `Partial<T>` patches and their merge `{ ...r, ...patch }`.
- `handlers.dfy` (`Handlers`): the pure updaters of the per-entity handlers.
- `sale.dfy` (`Sale`): the stock update of a sale in closed form. Also its history over many sales, and the credit a sale on account opens.
- `vault.dfy` (`Vault`): the backup document (the six collections with a version and a timestamp), the parsed restore document and the field-wise restore.
- `app.dfy` (`App`): class `Store`. It has one `seq` field per collection, and each handler is a method that reassigns those fields.

Modelling choices:

- Money fields (prices, totals, balances) are `real`. They are only copied and compared, never computed.
- `stock`, `sold` and `quantity` are `int`.
- A patch field is `None` when its key is absent. A field that is optional in the record itself (`agencyId`, `unitsPerPackage`, `notes`) is `Option<Option<T>>` in the patch, because the key may be present holding `undefined`.
- A patch may carry `id`, as `Partial<T>` allows, and then renames the record.
- `isCredit` counts as truthy only when it is `Some(true)`.
- In a restore document, a field is `Some` when the key holds a truthy value. An empty array is truthy, so it still replaces its collection.
- The id of the credit a sale opens and the backup timestamp are parameters. The source takes them from `Math.random` and `Date`.
- `addTransaction`'s `forEach` over the line items is a `for` loop in `App.Store.AddTransaction`. Each step applies the next item's updater in turn, as React applies queued updaters in order.

Points where the store is more permissive than one might expect, modelled as the code has them:

- Nothing checks for duplicate ids on insertion (`Handlers.InsertKeepsDuplicates`).
- A line item updates every medicine that carries its id, not just one.
- Loading at start-up has no per-collection fallback when parsing fails. Only an absent or empty saved value gives an empty collection.
- Restore does not validate the document.

## Model

| member | source | states |
|---|---|---|
| Seqs.MapWhere | App.tsx:137 | `map` with a conditional rewrite: same length, and each element is rewritten exactly when it matches, otherwise kept |
| Seqs.MapWhereNoMatch | App.tsx:137 | when no element matches, the mapped array equals the input |
| Seqs.Filter | App.tsx:139 | `filter`: an element is in the result iff it was in the input and is kept; its multiplicity is preserved when kept and 0 otherwise; the result is a subsequence of the input (original relative order) |
| Seqs.FilterKeepsAll | App.tsx:139 | a filter that keeps every element returns the input unchanged |
| Types.ApplyMedicinePatch | App.tsx:137 | the spread merge `{ ...m, ...updates }`: each key present in the patch takes the patch's value, each absent key keeps the medicine's, `id` included, so a patch may rename the record; an optional field may be patched to absent |
| Types.ApplyCreditPatch | App.tsx:172 | the same merge for credits: present keys win (`id` and `status` included), absent keys are kept |
| Types.ApplyAgencyBillPatch | App.tsx:177 | the same merge for agency bills: present keys win, absent keys are kept; `pendingAmount` changes only when the patch carries it |
| Handlers.UpdateMedicines | App.tsx:136-138 | same length and order; each medicine with the id takes the patch and keeps every field the patch lacks; others unchanged; an id no medicine has leaves the list exactly unchanged |
| Handlers.UpdateCredits | App.tsx:171-173 | the same for credits: length and order kept, only records with the id merged, unknown id means no change |
| Handlers.UpdateAgencyBills | App.tsx:176-178 | the same for agency bills |
| Handlers.RemoveMedicine | App.tsx:139 | no medicine with the id remains; every other medicine remains with its multiplicity and in its relative order; unknown id means no change |
| Handlers.RemoveAgency | App.tsx:167 | no agency with the id remains; all others remain, in order |
| Handlers.RemoveBillsOf | App.tsx:168 | no bill with that `agencyId` remains; bills of other agencies remain, in order and with their multiplicity |
| Handlers.MarkPaid | App.tsx:171-173 | a `{status: 'paid'}` patch changes the matching credit's status and none of its other fields |
| Handlers.PaymentKeepsPendingAmount | App.tsx:176-178 | a patch writing only `paidAmount` does not recompute `pendingAmount` |
| Handlers.InsertKeepsDuplicates | App.tsx:135 | append and prepend never reject a record: its id occurs once more than before, at least twice if it was already present |
| Sale.Sell | App.tsx:147 | `{ ...m, stock: m.stock - q, sold: m.sold + q }`: stock falls and sold rises by the quantity, their sum is kept, and every other field is unchanged |
| Sale.SellItem | App.tsx:145-150 | one line item's updater: each medicine with the item's id loses `quantity` from stock and gains it in sold, the rest are unchanged |
| Sale.SellAll | App.tsx:144-151 | after all line items in turn, each medicine's stock falls and sold rises by the total quantity of the items naming its id (repeated items accumulate); length, order and every other field kept |
| Sale.QuantityForUnnamed | App.tsx:146 | items that never name an id contribute a total of 0 for it |
| Sale.QuantityForNonNegative | App.tsx:147 | non-negative item quantities give a non-negative total |
| Sale.SaleConservesUnits | App.tsx:147 | `stock + sold` is the same before and after a sale for every medicine |
| Sale.SaleLeavesUnnamed | App.tsx:144-151 | a medicine no line item names is left exactly as it was |
| Sale.SaleSoldMonotone | App.tsx:147 | with non-negative quantities, sold never falls and stock never rises |
| Sale.SellHistory | App.tsx:142-151 | after a sequence of sales, each medicine's stock is its initial stock minus, and its sold count its initial count plus, the total sold of it over all those sales |
| Sale.OpensCredit | App.tsx:153 | holds exactly when `isCredit` is true and `creditAmount > 0`; false when `isCredit` is false or absent, or nothing is owing |
| Sale.SaleCredit | App.tsx:154-160 | the new credit has the given id, the sale's patient, amount `creditAmount`, the sale's date, status pending and no notes |
| Sale.SaleCredits | App.tsx:153-162 | exactly one credit is prepended iff `isCredit` holds and `creditAmount > 0`, and it is the sale's credit; the earlier credits follow unchanged; otherwise the list is unchanged |
| Sale.CashSaleExample | App.tsx:142-162 | 4 units from 100 in stock and 0 sold gives 96 and 4; a fully paid sale opens no credit |
| Sale.CreditSaleExample | App.tsx:153-162 | a sale on account with 500 owing opens exactly one pending credit of 500 |
| Vault.Backup | App.tsx:79-88 | the document carries the snapshot's six collections, version `1.3` and the given timestamp |
| Vault.Reread | App.tsx:109 | a written backup, read back, has every collection key present |
| Vault.Replace | App.tsx:110-115 | `if (data.x) setX(data.x)` for one collection: a present value replaces the collection, an absent one keeps it |
| Vault.Restore | App.tsx:110-115 | a document with no collection present leaves the store unchanged |
| Vault.RestoreFieldwise | App.tsx:110-115 | each collection present in the document replaces the store's; each absent one is kept |
| Vault.BackupRestoreRoundTrip | App.tsx:79-115 | restoring a store's backup over any store gives back the backed-up six collections |
| Vault.RestoreEmptyArrayClears | App.tsx:110 | a present but empty array still replaces its collection |
| Vault.RestorePatientsOnly | App.tsx:110-115 | a document with only patients replaces the patients and leaves the other five collections unchanged |
| Vault.RestoreIdempotent | App.tsx:110-115 | restoring the same document twice equals restoring it once |
| App.Store.Load | App.tsx:38-66 | each collection starts as its saved value, or empty when none is saved |
| App.Store.AddMedicine | App.tsx:135 | appends the medicine; all other collections unchanged |
| App.Store.UpdateMedicine | App.tsx:136-138 | medicines become `UpdateMedicines` of the old list; nothing else changes |
| App.Store.DeleteMedicine | App.tsx:139 | medicines become `RemoveMedicine` of the old list; nothing else changes |
| App.Store.BatchAddMedicines | App.tsx:188 | appends the whole list in order; nothing else changes |
| App.Store.AddPatient | App.tsx:141 | appends the patient; nothing else changes |
| App.Store.AddTransaction | App.tsx:142-163 | transactions become `[txn] + old`; medicines become `SellAll` of the old list over the line items (loop invariant per item); credits become `SaleCredits`; patients, agencies and bills unchanged |
| App.Store.AddAgency | App.tsx:165 | appends the agency; nothing else changes |
| App.Store.DeleteAgency | App.tsx:166-169 | removes the agency and, in the same call, all its bills; nothing else changes |
| App.Store.UpdateCredit | App.tsx:171-173 | credits become `UpdateCredits` of the old list; nothing else changes |
| App.Store.AddAgencyBill | App.tsx:175 | prepends the bill; nothing else changes |
| App.Store.UpdateAgencyBill | App.tsx:176-178 | bills become `UpdateAgencyBills` of the old list; nothing else changes |
| App.Store.HandleBackup | App.tsx:78-88 | the document holds exactly the store's six collections, version `1.3` and the given timestamp; the store is not changed |
| App.Store.HandleRestore | App.tsx:98-115 | unconfirmed, no file or a parse failure: no change; otherwise the store becomes the field-wise restore of the document |
| App.BackupThenRestore | App.tsx:79-115 | restoring a store's backup into any store, the same one included, gives the target exactly the collections the source had |

## Left out

- Persistence to `localStorage` is not modelled (App.tsx:68-76, 124-133). This covers the write after every change, the manual save, and the "last saved" time. It is browser I/O with no effect on the collections.
- Start-up parsing of saved values is not modelled. `App.Store.Load` takes the already decoded values. In the source, a saved value that fails to parse throws, so the app does not start; the model has no such failure.
- JSON encoding and decoding are left out, as are the file download (`Blob`, object URL, anchor) and the `FileReader`. Reading a backup back is taken to give back the same collections (`Vault.Reread`).
- A restored key holding a truthy non-array value is not modelled. The source would install it as-is.
- The confirmation dialog and the alerts are left out. The user's answer is the `confirmed` parameter of `App.Store.HandleRestore`.
- `Math.random` credit ids and `Date` timestamps are caller-supplied parameters.
- The tabs, navigation and rendering (App.tsx:180-281) are presentation. `tailwind.config.js` is styling.
- `BillItem`, `ProfitFilter` and `ActiveTab` in `types.ts` are used only by the presentation layer.
- Floating-point behaviour of money amounts is not modelled. Relations between money fields, such as profit = total − cost or pending = total − paid, are never computed by the store and are not stated.
- A patch that sets a required field to `undefined` is not modelled. `Partial<T>` allows this, but a patch field here either holds a value of the field's type or is absent.
