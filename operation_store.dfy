/** The operation store: a JSON file that maps operation ids to their payloads. Every call reads
    the whole file; `set` and `delete` then change the map and write it all back. */
module OperationStore {
  import opened Json

  /** What the backing file holds: nothing, text that does not parse, or a JSON object. */
  datatype BackingFile = Missing | Unparseable | Stored(ops: map<string, Value>)

  /** `_read_operations`: a missing or unparseable file reads as the empty map. */
  function Read(file: BackingFile): (ops: map<string, Value>)
    ensures file.Stored? ==> ops == file.ops
    ensures !file.Stored? ==> ops == map[]
  {
    match file
    case Stored(ops) => ops
    case _ => map[]
  }

  /** `get_operation`: `ops.get(op_id)`, which is Python's None (here `Null`) for an absent id. */
  function Lookup(file: BackingFile, id: string): (r: Value)
    ensures id in Read(file) ==> r == Read(file)[id]
    ensures id !in Read(file) ==> r == Null
    ensures !file.Stored? ==> r == Null
  {
    var ops := Read(file);
    if id in ops then ops[id] else Null
  }

  /** The file after `set_operation(id, data)`: whatever was read, with `id` bound to `data`. */
  function AfterSet(file: BackingFile, id: string, data: Value): (r: BackingFile)
    ensures r.Stored? && id in Read(r) && Read(r)[id] == data
    ensures forall k :: k != id ==> (k in Read(r) <==> k in Read(file))
    ensures forall k :: k != id && k in Read(file) ==> Read(r)[k] == Read(file)[k]
    ensures !file.Stored? ==> Read(r) == map[id := data]
  {
    Stored(Read(file)[id := data])
  }

  /** The file after `delete_operation(id)`: rewritten without `id` when it was there, and not
      written at all otherwise. */
  function AfterDelete(file: BackingFile, id: string): (r: BackingFile)
    ensures id !in Read(r)
    ensures forall k :: k != id ==> (k in Read(r) <==> k in Read(file))
    ensures forall k :: k != id && k in Read(file) ==> Read(r)[k] == Read(file)[k]
    ensures id !in Read(file) ==> r == file
    ensures id in Read(file) ==> r.Stored? && |Read(r)| == |Read(file)| - 1
  {
    var ops := Read(file);
    if id in ops then Stored(ops - {id}) else file
  }

  /** The last of two writes to the same id is the one that stays. */
  lemma LastWriteWins(file: BackingFile, id: string, first: Value, second: Value)
    ensures AfterSet(AfterSet(file, id, first), id, second) == AfterSet(file, id, second)
  {
    assert Read(AfterSet(file, id, first))[id := second] == Read(file)[id := second];
  }

  /** Two writes to different ids, one after the other, both stay readable. */
  lemma DistinctWritesBothKept(file: BackingFile, a: string, da: Value, b: string, db: Value)
    requires a != b
    ensures var r := Read(AfterSet(AfterSet(file, a, da), b, db));
      a in r && r[a] == da && b in r && r[b] == db
  {
    var first := AfterSet(file, a, da);
    assert Read(first)[a] == da;
  }

  /** Writing to a store whose file was missing or unparseable leaves exactly one entry. */
  lemma SetOnEmptyLeavesOneEntry(file: BackingFile, id: string, data: Value)
    requires !file.Stored?
    ensures |Read(AfterSet(file, id, data))| == 1
  {
    assert Read(AfterSet(file, id, data)) == map[id := data];
  }

  /** Deleting what was just set gives back the old entries: the id is gone, the rest intact. */
  lemma DeleteUndoesSet(file: BackingFile, id: string, data: Value)
    requires id !in Read(file)
    ensures Read(AfterDelete(AfterSet(file, id, data), id)) == Read(file)
  {
    assert Read(file)[id := data] - {id} == Read(file);
  }

  /** The store as a stateful object over its backing file. */
  class Store {
    var file: BackingFile

    constructor (initial: BackingFile)
      ensures file == initial
    {
      file := initial;
    }

    function Operations(): map<string, Value>
      reads this
    {
      Read(file)
    }

    /** `get_operation`: reads the file and never writes it. */
    method Get(id: string) returns (r: Value)
      ensures r == Lookup(file, id)
    {
      var ops := Read(file);
      r := if id in ops then ops[id] else Null;
    }

    /** `set_operation`: read, bind, write back. */
    method Set(id: string, data: Value)
      modifies this
      ensures file == AfterSet(old(file), id, data)
      ensures Operations() == old(Operations())[id := data]
    {
      var ops := Read(file);
      ops := ops[id := data];
      file := Stored(ops);
    }

    /** `delete_operation`: read, and only when the id is present, remove it and write back. */
    method Delete(id: string)
      modifies this
      ensures file == AfterDelete(old(file), id)
      ensures id in old(Operations()) ==> Operations() == old(Operations()) - {id}
      ensures id !in old(Operations()) ==> file == old(file)
    {
      var ops := Read(file);
      if id in ops {
        ops := ops - {id};
        file := Stored(ops);
      }
    }
  }
}
