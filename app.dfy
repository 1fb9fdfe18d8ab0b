/**
 * The ledger store of App.tsx: the six collections the component holds in
 * state, and the handlers that change them.
 */
module App {
  import opened Wrappers
  import opened Types
  import opened Handlers
  import opened Sale
  import opened Vault

  class Store {
    var medicines: seq<Medicine>
    var patients: seq<Patient>
    var transactions: seq<Transaction>
    var agencies: seq<Agency>
    var credits: seq<Credit>
    var agencyBills: seq<AgencyBill>

    /** The six collections as one value. */
    function State(): Snapshot
      reads this
    {
      Snapshot(medicines, patients, transactions, agencies, credits, agencyBills)
    }

    /**
     * Start-up: each collection is the one saved under its key, or empty when
     * nothing is saved there.
     */
    constructor Load(saved: ImportDocument)
      ensures State() == Restore(Empty, saved)
    {
      medicines := saved.medicines.GetOr([]);
      patients := saved.patients.GetOr([]);
      transactions := saved.transactions.GetOr([]);
      agencies := saved.agencies.GetOr([]);
      credits := saved.credits.GetOr([]);
      agencyBills := saved.agencyBills.GetOr([]);
    }

    method AddMedicine(med: Medicine)
      modifies this
      ensures State() == old(State()).(medicines := old(medicines) + [med])
    {
      medicines := medicines + [med];
    }

    method UpdateMedicine(id: string, patch: MedicinePatch)
      modifies this
      ensures State() == old(State()).(medicines := UpdateMedicines(old(medicines), id, patch))
    {
      medicines := UpdateMedicines(medicines, id, patch);
    }

    method DeleteMedicine(id: string)
      modifies this
      ensures State() == old(State()).(medicines := RemoveMedicine(old(medicines), id))
    {
      medicines := RemoveMedicine(medicines, id);
    }

    /** The batch add behind onBatchAddMedicines: the whole list, in order, at the end. */
    method BatchAddMedicines(meds: seq<Medicine>)
      modifies this
      ensures State() == old(State()).(medicines := old(medicines) + meds)
    {
      medicines := medicines + meds;
    }

    method AddPatient(pat: Patient)
      modifies this
      ensures State() == old(State()).(patients := old(patients) + [pat])
    {
      patients := patients + [pat];
    }

    /**
     * Records a sale: the transaction goes in front, each line item in turn
     * moves its quantity from stock to sold, and a sale on account opens a
     * pending credit under `creditId`. Patients, agencies and bills are untouched.
     */
    method AddTransaction(txn: Transaction, creditId: string)
      modifies this
      ensures transactions == [txn] + old(transactions)
      ensures medicines == SellAll(old(medicines), txn.medicines)
      ensures credits == SaleCredits(old(credits), txn, creditId)
      ensures patients == old(patients) && agencies == old(agencies) && agencyBills == old(agencyBills)
    {
      transactions := [txn] + transactions;
      var items := txn.medicines;
      for i := 0 to |items|
        invariant medicines == SellAll(old(medicines), items[..i])
        invariant transactions == [txn] + old(transactions) && credits == old(credits)
        invariant patients == old(patients) && agencies == old(agencies) && agencyBills == old(agencyBills)
      {
        assert items[..i + 1][..i] == items[..i];
        medicines := SellItem(medicines, items[i]);
      }
      assert items[..|items|] == items;
      if OpensCredit(txn) {
        credits := [SaleCredit(txn, creditId)] + credits;
      }
    }

    method AddAgency(agn: Agency)
      modifies this
      ensures State() == old(State()).(agencies := old(agencies) + [agn])
    {
      agencies := agencies + [agn];
    }

    /** Removes the agency and, with it, every bill of that agency. */
    method DeleteAgency(id: string)
      modifies this
      ensures State() == old(State()).(agencies := RemoveAgency(old(agencies), id),
                                       agencyBills := RemoveBillsOf(old(agencyBills), id))
    {
      agencies := RemoveAgency(agencies, id);
      agencyBills := RemoveBillsOf(agencyBills, id);
    }

    method UpdateCredit(id: string, patch: CreditPatch)
      modifies this
      ensures State() == old(State()).(credits := UpdateCredits(old(credits), id, patch))
    {
      credits := UpdateCredits(credits, id, patch);
    }

    method AddAgencyBill(bill: AgencyBill)
      modifies this
      ensures State() == old(State()).(agencyBills := [bill] + old(agencyBills))
    {
      agencyBills := [bill] + agencyBills;
    }

    method UpdateAgencyBill(id: string, patch: AgencyBillPatch)
      modifies this
      ensures State() == old(State()).(agencyBills := UpdateAgencyBills(old(agencyBills), id, patch))
    {
      agencyBills := UpdateAgencyBills(agencyBills, id, patch);
    }

    /** The document handleBackup builds: the store's six collections, the version and `timestamp`. */
    method HandleBackup(timestamp: string) returns (doc: BackupDocument)
      ensures doc.collections.medicines == medicines && doc.collections.patients == patients
      ensures doc.collections.transactions == transactions && doc.collections.agencies == agencies
      ensures doc.collections.credits == credits && doc.collections.agencyBills == agencyBills
      ensures doc.version == Version && doc.timestamp == timestamp
    {
      doc := Backup(State(), timestamp);
    }

    /**
     * handleRestore: nothing happens unless the user confirmed and the file
     * parsed (`parsed` is None when no file was chosen or parsing failed);
     * otherwise each collection present in the document replaces the store's.
     */
    method HandleRestore(confirmed: bool, parsed: Option<ImportDocument>)
      modifies this
      ensures State() == if confirmed && parsed.Some? then Restore(old(State()), parsed.value)
                         else old(State())
    {
      if !confirmed || parsed.None? {
        return;
      }
      var d := parsed.value;
      if d.medicines.Some? { medicines := d.medicines.value; }
      if d.patients.Some? { patients := d.patients.value; }
      if d.transactions.Some? { transactions := d.transactions.value; }
      if d.agencies.Some? { agencies := d.agencies.value; }
      if d.credits.Some? { credits := d.credits.value; }
      if d.agencyBills.Some? { agencyBills := d.agencyBills.value; }
    }
  }

  /**
   * Backing up one store and restoring that document into another, or into
   * the same one, gives the target exactly the source's collections.
   */
  method BackupThenRestore(source: Store, target: Store, timestamp: string)
    modifies target
    ensures target.State() == old(source.State()) && target.State() == source.State()
  {
    var doc := source.HandleBackup(timestamp);
    target.HandleRestore(true, Some(Reread(doc)));
  }
}
