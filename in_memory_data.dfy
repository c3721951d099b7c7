/**
 The in-memory backend's database: every schema record becomes an entry
 keyed by its title, and the list of type names is the entries' keys in
 the same order. The records' own contents are not modelled beyond their
 title; `T` stands for the rest of each record.
 */
module InMemoryData {

  /** A schema record: its title and the rest of its contents. */
  datatype SchemaRecord<T> = SchemaRecord(title: string, body: T)

  /** A database entry: the type name and the whole record it came from. */
  datatype SchemaEntry<T> = SchemaEntry(typeName: string, schema: SchemaRecord<T>)

  datatype Db<T> = Db(typeNames: seq<string>, schemas: seq<SchemaEntry<T>>)

  /** One entry per record, in order, named by the record's title and
      carrying the record unchanged. */
  function Entries<T>(records: seq<SchemaRecord<T>>): (r: seq<SchemaEntry<T>>)
    ensures |r| == |records|
    ensures forall i :: 0 <= i < |r| ==> r[i].typeName == records[i].title && r[i].schema == records[i]
  {
    if records == [] then []
    else [SchemaEntry(records[0].title, records[0])] + Entries(records[1..])
  }

  /** The type name of every entry, in order. */
  function TypeNames<T>(entries: seq<SchemaEntry<T>>): (r: seq<string>)
    ensures |r| == |entries|
    ensures forall i :: 0 <= i < |r| ==> r[i] == entries[i].typeName
  {
    if entries == [] then []
    else [entries[0].typeName] + TypeNames(entries[1..])
  }

  function CreateDb<T>(records: seq<SchemaRecord<T>>): (db: Db<T>)
    ensures |db.schemas| == |records| && |db.typeNames| == |db.schemas|
    ensures forall i :: 0 <= i < |records| ==>
      && db.schemas[i].typeName == records[i].title
      && db.schemas[i].schema == records[i]
      && db.typeNames[i] == db.schemas[i].typeName
  {
    var schemas := Entries(records);
    Db(TypeNames(schemas), schemas)
  }

  /** The records an entry list carries. */
  function Records<T>(entries: seq<SchemaEntry<T>>): seq<SchemaRecord<T>> {
    if entries == [] then [] else [entries[0].schema] + Records(entries[1..])
  }

  /** The record titles, in order. */
  function Titles<T>(records: seq<SchemaRecord<T>>): seq<string> {
    if records == [] then [] else [records[0].title] + Titles(records[1..])
  }

  /** The database gives back exactly the records it was built from. */
  lemma {:induction false} RecordsRoundTrip<T>(records: seq<SchemaRecord<T>>)
    ensures Records(CreateDb(records).schemas) == records
  {
    if records != [] {
      RecordsRoundTrip(records[1..]);
      assert Entries(records)[1..] == Entries(records[1..]);
    }
  }

  /** The type names are the record titles, in order. */
  lemma {:induction false} TypeNamesAreTitles<T>(records: seq<SchemaRecord<T>>)
    ensures CreateDb(records).typeNames == Titles(records)
  {
    if records != [] {
      TypeNamesAreTitles(records[1..]);
      assert Entries(records)[1..] == Entries(records[1..]);
    }
  }

  /** Every entry is named by the title of the record it carries. */
  lemma EntriesNamedByTheirRecord<T>(records: seq<SchemaRecord<T>>)
    ensures forall e :: e in CreateDb(records).schemas ==> e.typeName == e.schema.title
  {
    var db := CreateDb(records);
    forall e | e in db.schemas ensures e.typeName == e.schema.title {
      var i :| 0 <= i < |db.schemas| && db.schemas[i] == e;
    }
  }
}
