/** The data sink: the `company_enriched_data` table as `insert_enriched_data` uses it. */
module Sink {
  import opened Wrappers
  import opened Client

  /** The table's rows by `company_id`, the primary key. */
  type Table = map<int, Company>

  /** Why an insert failed; `insert_enriched_data` logs either and returns normally. */
  datatype InsertError =
    | DuplicateKey   // the primary-key constraint rejects a second row for a `company_id`
    | WriteFault     // any other error that fails only the INSERT itself (e.g. a string too long for its column)

  datatype InsertOutcome = Inserted | Rejected(error: InsertError)

  /** The table after an insert attempt, and how the attempt went. */
  datatype Insertion = Insertion(table: Table, outcome: InsertOutcome)

  /** `CREATE TABLE ... IF NOT EXISTS`: `None` is a database without the table. */
  function EnsureSchema(t: Option<Table>): Table {
    if t.Some? then t.value else map[]
  }

  /** Creating the table a second time changes nothing. */
  lemma EnsureSchemaIdempotent(t: Option<Table>)
    ensures EnsureSchema(Some(EnsureSchema(t))) == EnsureSchema(t)
  {
  }

  /** `insert_enriched_data`: ensure the table exists, then insert the row for `id` unless the
      key is taken or the database reports `fault`; a rejected insert leaves the table as it
      was (the statement fails alone, the transaction goes on). */
  function InsertEnrichedData(t: Option<Table>, id: int, record: Company, fault: bool): (r: Insertion)
    ensures r.outcome == Inserted <==> id !in EnsureSchema(t) && !fault
    ensures r.outcome == Inserted ==> id in r.table && r.table[id] == record
    ensures r.outcome.Rejected? ==> r.table == EnsureSchema(t)
    ensures r.table.Keys <= EnsureSchema(t).Keys + {id}
    ensures forall k :: k in EnsureSchema(t) ==> k in r.table && r.table[k] == EnsureSchema(t)[k]
  {
    var table := EnsureSchema(t);
    if id in table then Insertion(table, Rejected(DuplicateKey))
    else if fault then Insertion(table, Rejected(WriteFault))
    else Insertion(table[id := record], Inserted)
  }

  /** Read-back: after a successful insert, looking the row up by its key gives back exactly the
      record that was inserted, and every other key reads as before. */
  lemma InsertThenRead(t: Option<Table>, id: int, record: Company, fault: bool, other: int)
    requires id !in EnsureSchema(t) && !fault
    requires other != id
    ensures var r := InsertEnrichedData(t, id, record, fault).table;
            && r[id] == record
            && (other in r <==> other in EnsureSchema(t))
            && (other in r ==> r[other] == EnsureSchema(t)[other])
  {
  }
}
