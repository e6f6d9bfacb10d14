/** The storage port the handlers run against: every table is a map from
    primary key to record, `findByPk` is a lookup that may also fault, and
    `findAll` reads every row of a table in no particular order. */
module Storage {

  /** Primary keys. Both tables use UUID columns; the model keeps their text. */
  type Uuid = string

  datatype Option<+T> = None | Some(value: T)

  /** What a `findByPk` call gives the handler: the stored record, no record,
      or a thrown storage error. */
  datatype Lookup<+R> = Found(record: R) | Missing | Fault

  function FindByPk<R>(table: map<Uuid, R>, id: Uuid, fails: bool): Lookup<R>
  {
    if fails then Fault
    else if id in table then Found(table[id])
    else Missing
  }

  /** `findAll`: every row of the table exactly once. `keys` records which key
      each row was read under; the order is whatever the set iteration picks,
      as the source asks for no ordering. */
  method FindAll<R(==)>(table: map<Uuid, R>) returns (rows: seq<R>, ghost keys: seq<Uuid>)
    ensures |rows| == |table|
    ensures forall k :: k in table ==> table[k] in rows
    ensures forall r :: r in rows ==> r in table.Values
    ensures |keys| == |rows|
    ensures forall i :: 0 <= i < |keys| ==> keys[i] in table && rows[i] == table[keys[i]]
    ensures forall i, j :: 0 <= i < j < |keys| ==> keys[i] != keys[j]
    ensures forall k :: k in table ==> k in keys
  {
    rows, keys := [], [];
    var pending := table.Keys;
    while pending != {}
      invariant pending <= table.Keys
      invariant |rows| == |keys|
      invariant |keys| + |pending| == |table|
      invariant forall i :: 0 <= i < |keys| ==> keys[i] in table && keys[i] !in pending && rows[i] == table[keys[i]]
      invariant forall i, j :: 0 <= i < j < |keys| ==> keys[i] != keys[j]
      invariant forall k :: k in table && k !in pending ==> k in keys
      decreases pending
    {
      var k :| k in pending;
      rows, keys := rows + [table[k]], keys + [k];
      pending := pending - {k};
    }
  }
}
