/**
 * The pure updaters behind the per-entity handlers of App.tsx: each takes the
 * previous collection and returns the next one.
 */
module Handlers {
  import opened Wrappers
  import opened Types
  import opened Seqs

  /** updateMedicine: every medicine carrying `id` takes the patch, the rest stay as they are. */
  function UpdateMedicines(ms: seq<Medicine>, id: string, patch: MedicinePatch): (r: seq<Medicine>)
    ensures |r| == |ms|
    ensures forall k :: 0 <= k < |ms| ==> r[k] == if ms[k].id == id then ApplyMedicinePatch(ms[k], patch) else ms[k]
    ensures (forall k :: 0 <= k < |ms| ==> ms[k].id != id) ==> r == ms
  {
    MapWhere(ms, (m: Medicine) => m.id == id, (m: Medicine) => ApplyMedicinePatch(m, patch))
  }

  /** updateCredit. */
  function UpdateCredits(cs: seq<Credit>, id: string, patch: CreditPatch): (r: seq<Credit>)
    ensures |r| == |cs|
    ensures forall k :: 0 <= k < |cs| ==> r[k] == if cs[k].id == id then ApplyCreditPatch(cs[k], patch) else cs[k]
    ensures (forall k :: 0 <= k < |cs| ==> cs[k].id != id) ==> r == cs
  {
    MapWhere(cs, (c: Credit) => c.id == id, (c: Credit) => ApplyCreditPatch(c, patch))
  }

  /** updateAgencyBill. */
  function UpdateAgencyBills(bs: seq<AgencyBill>, id: string, patch: AgencyBillPatch): (r: seq<AgencyBill>)
    ensures |r| == |bs|
    ensures forall k :: 0 <= k < |bs| ==> r[k] == if bs[k].id == id then ApplyAgencyBillPatch(bs[k], patch) else bs[k]
    ensures (forall k :: 0 <= k < |bs| ==> bs[k].id != id) ==> r == bs
  {
    MapWhere(bs, (b: AgencyBill) => b.id == id, (b: AgencyBill) => ApplyAgencyBillPatch(b, patch))
  }

  /** deleteMedicine: drops every medicine carrying `id`, keeps the others in order. */
  function RemoveMedicine(ms: seq<Medicine>, id: string): (r: seq<Medicine>)
    ensures forall m :: m in r <==> m in ms && m.id != id
    ensures forall m :: multiset(r)[m] == if m.id != id then multiset(ms)[m] else 0
    ensures IsSubsequence(r, ms)
    ensures (forall k :: 0 <= k < |ms| ==> ms[k].id != id) ==> r == ms
  {
    var r := Filter(ms, (m: Medicine) => m.id != id);
    if forall k :: 0 <= k < |ms| ==> ms[k].id != id then
      FilterKeepsAll(ms, (m: Medicine) => m.id != id);
      r
    else
      r
  }

  /** The first half of deleteAgency. */
  function RemoveAgency(agencies: seq<Agency>, id: string): (r: seq<Agency>)
    ensures forall a :: a in r <==> a in agencies && a.id != id
    ensures forall a :: multiset(r)[a] == if a.id != id then multiset(agencies)[a] else 0
    ensures IsSubsequence(r, agencies)
  {
    Filter(agencies, (a: Agency) => a.id != id)
  }

  /** The cascade of deleteAgency: drops every bill of agency `agencyId`. */
  function RemoveBillsOf(bills: seq<AgencyBill>, agencyId: string): (r: seq<AgencyBill>)
    ensures forall b :: b in r <==> b in bills && b.agencyId != agencyId
    ensures forall b :: multiset(r)[b] == if b.agencyId != agencyId then multiset(bills)[b] else 0
    ensures IsSubsequence(r, bills)
  {
    Filter(bills, (b: AgencyBill) => b.agencyId != agencyId)
  }

  /** Marking a credit paid changes its status and nothing else about it. */
  lemma MarkPaid(cs: seq<Credit>, id: string, k: nat)
    requires k < |cs| && cs[k].id == id
    ensures UpdateCredits(cs, id, CreditPatch(None, None, None, None, Some(Paid), None))[k]
            == cs[k].(status := Paid)
  {
  }

  /**
   * Recording a payment on a bill without also writing `pendingAmount` leaves
   * the stored pending amount as it was: the updater does not recompute it.
   */
  lemma PaymentKeepsPendingAmount(bs: seq<AgencyBill>, id: string, paid: Money, k: nat)
    requires k < |bs| && bs[k].id == id
    ensures var r := UpdateAgencyBills(bs, id, AgencyBillPatch(None, None, None, None, None, Some(paid), None, None));
            r[k].paidAmount == paid && r[k].pendingAmount == bs[k].pendingAmount
  {
  }

  /**
   * Appending (addMedicine, addPatient, addAgency, batch add) and prepending
   * (addAgencyBill) never reject a record whose id is already present: the id
   * then occurs once more than before, so at least twice.
   */
  lemma InsertKeepsDuplicates<T>(xs: seq<T>, x: T, key: T -> string)
    ensures Occurrences(xs + [x], key, key(x)) == Occurrences(xs, key, key(x)) + 1
    ensures Occurrences([x] + xs, key, key(x)) == Occurrences(xs, key, key(x)) + 1
    ensures (exists k :: 0 <= k < |xs| && key(xs[k]) == key(x)) ==> Occurrences(xs + [x], key, key(x)) >= 2
    ensures (exists k :: 0 <= k < |xs| && key(xs[k]) == key(x)) ==> Occurrences([x] + xs, key, key(x)) >= 2
  {
    OccurrencesConcat(xs, [x], key, key(x));
    OccurrencesConcat([x], xs, key, key(x));
    OccurrencesPositive(xs, key, key(x));
  }
}
