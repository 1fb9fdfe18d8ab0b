/**
 * The vault backup document (handleBackup) and the field-wise restore
 * (handleRestore), as values.
 */
module Vault {
  import opened Wrappers
  import opened Types

  /** The backup format version written into every document. */
  const Version: string := "1.3"

  /** The six collections the store holds. */
  datatype Snapshot = Snapshot(
    medicines: seq<Medicine>,
    patients: seq<Patient>,
    transactions: seq<Transaction>,
    agencies: seq<Agency>,
    credits: seq<Credit>,
    agencyBills: seq<AgencyBill>)

  /**
   * The document handleBackup writes: all six collections, the version and a
   * timestamp. Written out, the six collections sit at the document's top
   * level beside `version` and `timestamp`, under the same keys as here.
   */
  datatype BackupDocument = BackupDocument(collections: Snapshot, version: string, timestamp: string)

  /**
   * A parsed document as handleRestore reads it: a collection is `Some` when
   * its key holds a truthy value (any array, the empty one included) and
   * `None` when the key is absent or falsy.
   */
  datatype ImportDocument = ImportDocument(
    medicines: Option<seq<Medicine>>,
    patients: Option<seq<Patient>>,
    transactions: Option<seq<Transaction>>,
    agencies: Option<seq<Agency>>,
    credits: Option<seq<Credit>>,
    agencyBills: Option<seq<AgencyBill>>)

  const Empty: Snapshot := Snapshot([], [], [], [], [], [])

  /** The document that carries no collection at all. */
  const NothingPresent: ImportDocument := ImportDocument(None, None, None, None, None, None)

  /** The backup of a snapshot taken at `timestamp`. */
  function Backup(s: Snapshot, timestamp: string): (d: BackupDocument)
    ensures d.collections.medicines == s.medicines && d.collections.patients == s.patients
    ensures d.collections.transactions == s.transactions && d.collections.agencies == s.agencies
    ensures d.collections.credits == s.credits && d.collections.agencyBills == s.agencyBills
    ensures d.version == Version && d.timestamp == timestamp
  {
    BackupDocument(s, Version, timestamp)
  }

  /** What reading a backup document back yields: every collection key is present. */
  function Reread(d: BackupDocument): (i: ImportDocument)
    ensures i.medicines.Some? && i.patients.Some? && i.transactions.Some?
    ensures i.agencies.Some? && i.credits.Some? && i.agencyBills.Some?
  {
    var c := d.collections;
    ImportDocument(Some(c.medicines), Some(c.patients), Some(c.transactions),
                   Some(c.agencies), Some(c.credits), Some(c.agencyBills))
  }

  /** `if (data.key) setKey(data.key)` for one collection. */
  function Replace<T>(current: seq<T>, incoming: Option<seq<T>>): (r: seq<T>)
    ensures incoming.Some? ==> r == incoming.value
    ensures incoming.None? ==> r == current
  {
    if incoming.Some? then incoming.value else current
  }

  /** The store's collections after restoring `d` over `s`. */
  function Restore(s: Snapshot, d: ImportDocument): (r: Snapshot)
    ensures d == NothingPresent ==> r == s
  {
    Snapshot(Replace(s.medicines, d.medicines), Replace(s.patients, d.patients),
             Replace(s.transactions, d.transactions), Replace(s.agencies, d.agencies),
             Replace(s.credits, d.credits), Replace(s.agencyBills, d.agencyBills))
  }

  /**
   * Restore replaces exactly the collections present in the document: each
   * present one becomes the document's, each absent one stays the store's.
   */
  lemma RestoreFieldwise(s: Snapshot, d: ImportDocument)
    ensures var r := Restore(s, d);
      (r.medicines == if d.medicines.Some? then d.medicines.value else s.medicines)
      && (r.patients == if d.patients.Some? then d.patients.value else s.patients)
      && (r.transactions == if d.transactions.Some? then d.transactions.value else s.transactions)
      && (r.agencies == if d.agencies.Some? then d.agencies.value else s.agencies)
      && (r.credits == if d.credits.Some? then d.credits.value else s.credits)
      && (r.agencyBills == if d.agencyBills.Some? then d.agencyBills.value else s.agencyBills)
  {
  }

  /** Restoring a store's own backup over any store gives back the backed-up collections. */
  lemma BackupRestoreRoundTrip(s: Snapshot, current: Snapshot, timestamp: string)
    ensures Restore(current, Reread(Backup(s, timestamp))) == s
  {
  }

  /** A present collection replaces the store's even when it is empty. */
  lemma RestoreEmptyArrayClears(s: Snapshot, d: ImportDocument)
    requires d.medicines == Some([])
    ensures Restore(s, d).medicines == []
  {
  }

  /** A document holding only patients replaces the patients and nothing else. */
  lemma RestorePatientsOnly(s: Snapshot, ps: seq<Patient>)
    ensures Restore(s, NothingPresent.(patients := Some(ps))) == s.(patients := ps)
  {
  }

  /** Restoring the same document twice is the same as restoring it once. */
  lemma RestoreIdempotent(s: Snapshot, d: ImportDocument)
    ensures Restore(Restore(s, d), d) == Restore(s, d)
  {
  }
}
