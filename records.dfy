/**
 * The shape in which the remote document store hands data to the view
 * models: a document is an identifier plus a dictionary of loosely typed
 * field values, and a collection is addressed by a (year, month name)
 * partition key.
 */
module Records {
  import opened Wrappers

  /** A stored field value; the four kinds the view models read. */
  datatype Value = Text(text: string) | Integer(integer: int) | Decimal(dec: real) | Flag(flag: bool)

  datatype Document = Document(documentID: string, data: map<string, Value>)

  /** `data[key] as? String`. */
  function StringField(d: Document, key: string): (r: Option<string>)
    ensures r.Some? <==> key in d.data && d.data[key].Text?
  {
    if key in d.data && d.data[key].Text? then Some(d.data[key].text) else None
  }

  /** `data[key] as? Int`. */
  function IntField(d: Document, key: string): (r: Option<int>)
    ensures r.Some? <==> key in d.data && d.data[key].Integer?
  {
    if key in d.data && d.data[key].Integer? then Some(d.data[key].integer) else None
  }

  /** `data[key] as? Double`. */
  function DoubleField(d: Document, key: string): (r: Option<real>)
    ensures r.Some? <==> key in d.data && d.data[key].Decimal?
  {
    if key in d.data && d.data[key].Decimal? then Some(d.data[key].dec) else None
  }

  /** `data[key] as? Bool`. */
  function BoolField(d: Document, key: string): (r: Option<bool>)
    ensures r.Some? <==> key in d.data && d.data[key].Flag?
  {
    if key in d.data && d.data[key].Flag? then Some(d.data[key].flag) else None
  }

  /** The key of a per-month collection: `.document(String(year)).collection(month)`. */
  datatype Partition = Partition(year: int, month: string)

  /** The per-month collections of one user's records. */
  type Store = map<Partition, seq<Document>>

  /** The documents of one collection; a collection never written to reads as empty. */
  function Collection(store: Store, p: Partition): (docs: seq<Document>)
    ensures p in store ==> docs == store[p]
    ensures p !in store ==> docs == []
  {
    if p in store then store[p] else []
  }
}
