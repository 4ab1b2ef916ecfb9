/**
 * The dedup ledger of db.py: the sqlite table `leads`, whose primary key is
 * `phone_number` (db.py, line 11), modelled as a map from phone number to the
 * rest of the row. sqlite connections, commits and durability are not modelled.
 */
module Ledger {
  import opened Wrappers

  /** A row of the lead file (leads.csv): the columns the program reads. */
  datatype Row = Row(jobTitle: string, location: string, linkedinUrl: string, phoneNumber: string)

  /** The non-key columns of a row of the `leads` table. */
  datatype Lead = Lead(jobTitle: string, location: string, linkedinUrl: string, requestSent: int)

  type Table = map<string, Lead>

  /** What `save_lead` writes for a row whose phone number is not in the table yet. */
  function Fresh(row: Row): (l: Lead)
    ensures l.requestSent == 0
  {
    Lead(row.jobTitle, row.location, row.linkedinUrl, 0)
  }

  /**
   * `INSERT OR IGNORE` keyed by the phone number (db.py, lines 21-24): a row is
   * added when its key is absent; when the key is present nothing changes.
   */
  function InsertOrIgnore(t: Table, row: Row): (t': Table)
    ensures t'.Keys == t.Keys + {row.phoneNumber}
    ensures row.phoneNumber in t ==> t' == t
    ensures row.phoneNumber !in t ==> t'[row.phoneNumber] == Fresh(row)
    ensures forall p :: p in t ==> t'[p] == t[p]
  {
    if row.phoneNumber in t then t else t[row.phoneNumber := Fresh(row)]
  }

  /** A second insert of the same phone number is a no-op. */
  lemma InsertOrIgnoreIdempotent(t: Table, row: Row, other: Row)
    requires other.phoneNumber == row.phoneNumber
    ensures InsertOrIgnore(InsertOrIgnore(t, row), other) == InsertOrIgnore(t, row)
  {
  }

  /** The file leads.db: `hasTable` once `init_db` has created `leads`. */
  class LeadStore {
    var hasTable: bool
    var leads: Table

    ghost predicate Valid()
      reads this
    {
      !hasTable ==> leads == map[]
    }

    /** Opens leads.db as found on disk: `None` when it has no `leads` table yet. */
    constructor (onDisk: Option<Table>)
      ensures Valid()
      ensures hasTable == onDisk.Some?
      ensures onDisk.Some? ==> leads == onDisk.value
    {
      hasTable := onDisk.Some?;
      leads := if onDisk.Some? then onDisk.value else map[];
    }

    /** `init_db` (db.py, lines 3-16): `CREATE TABLE IF NOT EXISTS leads`. */
    method InitDb()
      requires Valid()
      modifies this
      ensures Valid() && hasTable
      ensures leads == old(leads)
    {
      if !hasTable {
        hasTable := true;
        leads := map[];
      }
    }

    /** `save_lead` (db.py, lines 18-26). */
    method SaveLead(row: Row)
      requires Valid() && hasTable
      modifies this
      ensures Valid() && hasTable
      ensures leads == InsertOrIgnore(old(leads), row)
    {
      leads := InsertOrIgnore(leads, row);
    }

    /** `is_message_sent` (db.py, lines 28-34): a row exists, whatever its `requestSent`. */
    method IsMessageSent(phone: string) returns (sent: bool)
      requires Valid() && hasTable
      ensures sent <==> phone in leads
    {
      sent := phone in leads;
    }
  }

  /** `init_db` twice is `init_db` once, and on an existing table it keeps every row. */
  method InitDbIdempotent(store: LeadStore)
    requires store.Valid()
    modifies store
    ensures store.Valid() && store.hasTable
    ensures store.leads == old(store.leads)
  {
    store.InitDb();
    store.InitDb();
  }

  /** After `save_lead(row)` the ledger reports the row's phone number as contacted. */
  method SaveThenCheck(store: LeadStore, row: Row) returns (sent: bool)
    requires store.Valid() && store.hasTable
    modifies store
    ensures sent
    ensures store.leads == InsertOrIgnore(old(store.leads), row)
  {
    store.SaveLead(row);
    sent := store.IsMessageSent(row.phoneNumber);
  }
}
