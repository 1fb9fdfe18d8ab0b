/**
 * The records of the pharmacy ledger (types.ts) and the partial-record
 * patches the update handlers accept (`Partial<T>` merged with `{ ...r, ...patch }`).
 */
module Types {
  import opened Wrappers

  /**
   * A price, total or balance. JavaScript numbers in the source; the ledger
   * only copies and compares them, so they are modelled as reals.
   */
  type Money = real

  datatype Medicine = Medicine(
    id: string,
    name: string,
    category: string,
    costPrice: Money,              // cost of one unit
    mrp: Money,                    // retail price of one unit
    stock: int,                    // units on hand
    sold: int,                     // units sold so far
    expiryDate: string,            // MM/YYYY
    agencyId: Option<string>,
    unitsPerPackage: Option<int>)

  datatype Patient = Patient(id: string, name: string, phone: string, createdAt: string)

  /** One line of a sale: `price` is the total for the line, not per unit. */
  datatype LineItem = LineItem(medicineId: string, quantity: int, price: Money)

  datatype Transaction = Transaction(
    id: string,
    patientId: string,
    medicines: seq<LineItem>,
    totalAmount: Money,
    paidAmount: Money,
    creditAmount: Money,
    totalCost: Money,
    profit: Money,
    date: string,
    isCredit: Option<bool>)

  datatype CreditStatus = Pending | Paid

  /** An amount a patient owes (Udhari). */
  datatype Credit = Credit(
    id: string,
    patientId: string,
    amount: Money,
    date: string,
    status: CreditStatus,
    notes: Option<string>)

  datatype Agency = Agency(id: string, name: string, contact: string, address: string)

  datatype AgencyBill = AgencyBill(
    id: string,
    agencyId: string,
    billNumber: string,
    date: string,
    totalAmount: Money,
    paidAmount: Money,
    pendingAmount: Money,
    notes: Option<string>)

  function MedicineKey(m: Medicine): string { m.id }
  function PatientKey(p: Patient): string { p.id }
  function AgencyKey(a: Agency): string { a.id }
  function AgencyBillKey(b: AgencyBill): string { b.id }

  /**
   * `Partial<Medicine>`: `None` is an absent key. A key that is optional in the
   * record itself may be present with the value `undefined`, hence the nested
   * Option for `agencyId` and `unitsPerPackage`. `id` may be patched too.
   */
  datatype MedicinePatch = MedicinePatch(
    id: Option<string>,
    name: Option<string>,
    category: Option<string>,
    costPrice: Option<Money>,
    mrp: Option<Money>,
    stock: Option<int>,
    sold: Option<int>,
    expiryDate: Option<string>,
    agencyId: Option<Option<string>>,
    unitsPerPackage: Option<Option<int>>)

  /** `Partial<Credit>`. */
  datatype CreditPatch = CreditPatch(
    id: Option<string>,
    patientId: Option<string>,
    amount: Option<Money>,
    date: Option<string>,
    status: Option<CreditStatus>,
    notes: Option<Option<string>>)

  /** `Partial<AgencyBill>`. */
  datatype AgencyBillPatch = AgencyBillPatch(
    id: Option<string>,
    agencyId: Option<string>,
    billNumber: Option<string>,
    date: Option<string>,
    totalAmount: Option<Money>,
    paidAmount: Option<Money>,
    pendingAmount: Option<Money>,
    notes: Option<Option<string>>)

  /** `{ ...m, ...p }`: every key present in the patch wins, every other key is kept. */
  function ApplyMedicinePatch(m: Medicine, p: MedicinePatch): (r: Medicine)
    ensures r.id == (if p.id.Some? then p.id.value else m.id)
    ensures r.name == (if p.name.Some? then p.name.value else m.name)
    ensures r.category == (if p.category.Some? then p.category.value else m.category)
    ensures r.costPrice == (if p.costPrice.Some? then p.costPrice.value else m.costPrice)
    ensures r.mrp == (if p.mrp.Some? then p.mrp.value else m.mrp)
    ensures r.stock == (if p.stock.Some? then p.stock.value else m.stock)
    ensures r.sold == (if p.sold.Some? then p.sold.value else m.sold)
    ensures r.expiryDate == (if p.expiryDate.Some? then p.expiryDate.value else m.expiryDate)
    ensures r.agencyId == (if p.agencyId.Some? then p.agencyId.value else m.agencyId)
    ensures r.unitsPerPackage == (if p.unitsPerPackage.Some? then p.unitsPerPackage.value else m.unitsPerPackage)
  {
    Medicine(
      p.id.GetOr(m.id), p.name.GetOr(m.name), p.category.GetOr(m.category),
      p.costPrice.GetOr(m.costPrice), p.mrp.GetOr(m.mrp),
      p.stock.GetOr(m.stock), p.sold.GetOr(m.sold), p.expiryDate.GetOr(m.expiryDate),
      p.agencyId.GetOr(m.agencyId), p.unitsPerPackage.GetOr(m.unitsPerPackage))
  }

  function ApplyCreditPatch(c: Credit, p: CreditPatch): (r: Credit)
    ensures r.id == (if p.id.Some? then p.id.value else c.id)
    ensures r.patientId == (if p.patientId.Some? then p.patientId.value else c.patientId)
    ensures r.amount == (if p.amount.Some? then p.amount.value else c.amount)
    ensures r.date == (if p.date.Some? then p.date.value else c.date)
    ensures r.status == (if p.status.Some? then p.status.value else c.status)
    ensures r.notes == (if p.notes.Some? then p.notes.value else c.notes)
  {
    Credit(
      p.id.GetOr(c.id), p.patientId.GetOr(c.patientId), p.amount.GetOr(c.amount),
      p.date.GetOr(c.date), p.status.GetOr(c.status), p.notes.GetOr(c.notes))
  }

  function ApplyAgencyBillPatch(b: AgencyBill, p: AgencyBillPatch): (r: AgencyBill)
    ensures r.id == (if p.id.Some? then p.id.value else b.id)
    ensures r.agencyId == (if p.agencyId.Some? then p.agencyId.value else b.agencyId)
    ensures r.billNumber == (if p.billNumber.Some? then p.billNumber.value else b.billNumber)
    ensures r.date == (if p.date.Some? then p.date.value else b.date)
    ensures r.totalAmount == (if p.totalAmount.Some? then p.totalAmount.value else b.totalAmount)
    ensures r.paidAmount == (if p.paidAmount.Some? then p.paidAmount.value else b.paidAmount)
    ensures r.pendingAmount == (if p.pendingAmount.Some? then p.pendingAmount.value else b.pendingAmount)
    ensures r.notes == (if p.notes.Some? then p.notes.value else b.notes)
  {
    AgencyBill(
      p.id.GetOr(b.id), p.agencyId.GetOr(b.agencyId), p.billNumber.GetOr(b.billNumber),
      p.date.GetOr(b.date), p.totalAmount.GetOr(b.totalAmount), p.paidAmount.GetOr(b.paidAmount),
      p.pendingAmount.GetOr(b.pendingAmount), p.notes.GetOr(b.notes))
  }
}
