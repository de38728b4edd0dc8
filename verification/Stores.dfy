/** The two stores side by side: what one answers, the other answers. */
module Stores {
  import opened Pour
  import opened Ledger
  import opened Clamping
  import MemoryStore
  import SqliteStore

  datatype Op = DoAppend(call: Call) | DoGet(id: string, ownerID: string) | DoList(ownerID: string)

  datatype Answer = Appended(r: Result<Minted>) | Got(g: Result<Record>) | Listed(records: seq<Record>)

  /** The reference ledger's answer, and the ledger afterwards. */
  function Perform(ledger: seq<Record>, op: Op, root: Root): (seq<Record>, Answer)
  {
    match op
    case DoAppend(c) =>
      var (after, r) := Append(ledger, c.Key(), c.Minter(root));
      (after, Appended(r))
    case DoGet(id, ownerID) => (ledger, Got(Get(ledger, id, ownerID)))
    case DoList(ownerID) => (ledger, Listed(List(ledger, ownerID)))
  }

  function PerformAll(ops: seq<Op>, root: Root): (seq<Record>, seq<Answer>)
  {
    if ops == [] then ([], [])
    else
      var n := |ops| - 1;
      var (ledger, answers) := PerformAll(ops[..n], root);
      var (after, a) := Perform(ledger, ops[n], root);
      (after, answers + [a])
  }

  /**
   * The SQLite store refines the memory store: opened empty and given the same operations, with Mint as
   * the callback, the two return equal results throughout, and both are the reference ledger's.
   */
  method Lockstep(ops: seq<Op>, root: Root) returns (memory: seq<Answer>, sqlite: seq<Answer>)
    ensures memory == sqlite
    ensures memory == PerformAll(ops, root).1
  {
    hide Append, Get, List;
    var mem := new MemoryStore.MemoryStore();
    var sql := new SqliteStore.SqliteStore();
    memory, sqlite := [], [];
    assert ops[..0] == [];
    for i := 0 to |ops|
      invariant mem.Valid() && sql.Valid() && fresh(mem) && fresh(sql)
      invariant (mem.records, memory) == PerformAll(ops[..i], root)
      invariant (sql.ledger, sqlite) == PerformAll(ops[..i], root)
    {
      assert ops[..i + 1][..i] == ops[..i];
      match ops[i]
      case DoAppend(c) =>
        CallHonours(c, root);
        var a := mem.Append(c.Key(), c.Minter(root));
        var b := sql.Append(c.Key(), c.Minter(root));
        memory, sqlite := memory + [Appended(a)], sqlite + [Appended(b)];
      case DoGet(id, ownerID) =>
        var a := mem.Get(id, ownerID);
        var b := sql.Get(id, ownerID);
        memory, sqlite := memory + [Got(a)], sqlite + [Got(b)];
      case DoList(ownerID) =>
        var a := mem.List(ownerID);
        var b := sql.List(ownerID);
        memory, sqlite := memory + [Listed(a)], sqlite + [Listed(b)];
    }
    assert ops[..|ops|] == ops;
  }
}
