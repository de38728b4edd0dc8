/**
 * The SQLite store: a table of rows under uniqueness constraints, queried and extended in transactions.
 * The queries are stated by what SQL promises of them, on a table that is a set.
 */
module SqliteStore {
  import opened Options
  import opened Numbers
  import opened Sim
  import opened Clamping
  import opened Pour
  import opened Ledger
  import Rarity
  import Seed
  import MemoryStore

  datatype Row = Row(
    id: string, ownerID: string, ledgerPosition: nat, tierIndex: TierIndex, amountCents: int, timestampMs: int,
    dropletsLanded: real, peakVelocity: real, tiltEnergy: real, holdMs: real,
    violations: seq<Field>, seed: int, rarity: Rarity.Band, rarityScore: real,
    serial: string, batch: string, massGrams: real, issued: string)

  function RowOf(r: Record): Row
  {
    Row(r.id, r.ownerID, r.position, r.tierIndex, r.amountCents, r.timestampMs,
        r.telemetry.dropletsLanded, r.telemetry.peakVelocity, r.telemetry.tiltEnergy, r.telemetry.holdMs,
        r.violations, r.seed, r.rarity, r.rarityScore, r.serial, r.batch, r.massGrams, r.issued)
  }

  /** scanRecord: the signed 64-bit seed column is narrowed back to 32 bits. */
  function ScanRecord(w: Row): Record
  {
    Record(w.id, w.ownerID, w.ledgerPosition, w.tierIndex, w.amountCents, w.timestampMs,
           Telemetry(w.dropletsLanded, w.peakVelocity, w.tiltEnergy, w.holdMs), w.violations,
           w.seed % Seed.TWO32, w.rarity, w.rarityScore, w.serial, w.batch, w.massGrams, w.issued)
  }

  /** Nothing is lost between a record and its row. */
  lemma ScanRoundTrip(r: Record)
    ensures ScanRecord(RowOf(r)) == r
  {
  }

  function RowsOf(ledger: seq<Record>): set<Row> { set r | r in ledger :: RowOf(r) }

  /** PRIMARY KEY (id), UNIQUE (ledger_position), UNIQUE (serial) and UNIQUE (owner_id, timestamp_ms). */
  predicate Clash(a: Row, b: Row)
  {
    a.id == b.id || a.ledgerPosition == b.ledgerPosition || a.serial == b.serial
    || (a.ownerID == b.ownerID && a.timestampMs == b.timestampMs)
  }

  /** No two rows share an id, a position, a serial, or an owner and start. */
  predicate Keyed(table: set<Row>)
  {
    forall v, w :: v in table && w in table && v != w ==>
      && v.id != w.id && v.ledgerPosition != w.ledgerPosition && v.serial != w.serial
      && (v.ownerID != w.ownerID || v.timestampMs != w.timestampMs)
  }

  /** The constraints let a row in exactly when it is new and the table stays keyed. */
  lemma ConstraintsExactly(table: set<Row>, row: Row)
    requires Keyed(table)
    ensures (forall w :: w in table ==> !Clash(w, row)) <==> row !in table && Keyed(table + {row})
  {
    if row !in table && Keyed(table + {row}) {
      forall w | w in table
        ensures !Clash(w, row)
      {
        assert w in table + {row} && row in table + {row};
      }
    }
  }

  class SqliteStore {
    var table: set<Row>
    /** The ledger the table holds. */
    ghost var ledger: seq<Record>

    ghost predicate Valid()
      reads this
    {
      Sound(ledger) && table == RowsOf(ledger)
    }

    constructor ()
      ensures Valid() && ledger == []
    {
      table, ledger := {}, [];
    }

    /** SELECT ... WHERE ...: one row that meets the condition, if there is one. */
    method Select(where: Row -> bool) returns (row: Option<Row>)
      ensures row.Some? ==> row.value in table && where(row.value)
      ensures row.None? ==> forall w :: w in table ==> !where(w)
    {
      if exists w :: w in table && where(w) {
        var w :| w in table && where(w);
        return Some(w);
      }
      return None;
    }

    /** SELECT COALESCE(MAX(ledger_position), 0) + 1 */
    method NextPosition() returns (position: nat)
      ensures table == {} ==> position == 1
      ensures forall w :: w in table ==> w.ledgerPosition < position
      ensures table != {} ==> exists w :: w in table && w.ledgerPosition + 1 == position
    {
      var max, left := 0, table;
      while left != {}
        invariant left <= table
        invariant forall w :: w in table - left ==> w.ledgerPosition <= max
        invariant table == left ==> max == 0
        invariant table != left ==> exists w :: w in table - left && w.ledgerPosition == max
        decreases left
      {
        var w :| w in left;
        ghost var done := table - left;
        left := left - {w};
        assert table - left == done + {w};
        if w.ledgerPosition > max {
          max := w.ledgerPosition;
        }
        assert done == {} ==> w.ledgerPosition == max;
      }
      position := max + 1;
    }

    /** INSERT, which fails and changes nothing when a constraint is violated. */
    method Insert(row: Row) returns (ok: bool)
      modifies this`table
      ensures ok <==> forall w :: w in old(table) ==> !Clash(w, row)
      ensures table == if ok then old(table) + {row} else old(table)
      ensures old(Keyed(table)) ==> Keyed(table)
    {
      ok := forall w :: w in table ==> !Clash(w, row);
      if Keyed(table) {
        ConstraintsExactly(table, row);
      }
      if ok {
        table := table + {row};
      }
    }

    /** SELECT ... WHERE owner_id = ? ORDER BY ledger_position DESC */
    method SelectByOwner(ownerID: string) returns (rows: seq<Row>)
      ensures forall w :: w in rows <==> w in table && w.ownerID == ownerID
      ensures forall i, j :: 0 <= i < j < |rows| ==> rows[i].ledgerPosition >= rows[j].ledgerPosition && rows[i] != rows[j]
    {
      rows := [];
      var left := set w | w in table && w.ownerID == ownerID;
      ghost var all := left;
      while left != {}
        invariant left <= all
        invariant forall w :: w in rows <==> w in all - left
        invariant forall v, w :: v in rows && w in left ==> v.ledgerPosition >= w.ledgerPosition
        invariant forall i, j :: 0 <= i < j < |rows| ==> rows[i].ledgerPosition >= rows[j].ledgerPosition && rows[i] != rows[j]
        decreases left
      {
        var top := Highest(left);
        rows := rows + [top];
        left := left - {top};
      }
    }

    /**
     * Any callback may be given: only a fresh mint adds a row, one that no constraint forbids. Under a
     * callback that mints under the key it is called with this is the reference Append.
     */
    method Append(key: MintKey, mint: MintFn) returns (r: Result<Minted>)
      modifies this
      ensures r.Ok? && !r.value.replayed ==>
        table == old(table) + {RowOf(r.value.rec)} && forall w :: w in old(table) ==> !Clash(w, RowOf(r.value.rec))
      ensures r.Ok? && r.value.replayed ==>
        exists w :: w in table && w.ownerID == key.ownerID && w.timestampMs == key.timestampMs && r.value.rec == ScanRecord(w)
      ensures r.Err? || r.value.replayed ==> table == old(table)
      ensures old(Keyed(table)) ==> Keyed(table)
      ensures old(Valid()) && Honours(mint, key) ==> Valid() && (ledger, r) == Ledger.Append(old(ledger), key, mint)
    {
      hide Sound, Honours, RowOf, ScanRecord, RowsOf, Clash, Keyed;
      ghost var honoured := Valid() && Honours(mint, key);
      if honoured {
        AppendKeeps(ledger, key, mint);
      }
      var found := Select((w: Row) => w.ownerID == key.ownerID && w.timestampMs == key.timestampMs);
      if found.Some? {
        var existing := ScanRecord(found.value);
        if honoured {
          RowIsRecord(ledger, found.value);
          StartIndex(ledger, existing);
        }
        if existing.tierIndex != key.tierIndex {
          return Err(Conflict);
        }
        return Ok(Minted(existing, true));
      }

      var position := NextPosition();
      if honoured {
        NoStart(ledger, key.ownerID, key.timestampMs, table);
        MaxIsLength(ledger, position);
      }
      var minted := mint(position);
      if minted.Err? {
        return Err(minted.error);
      }
      var rec := minted.value;
      if honoured {
        MemoryStore.HonouredRecord(mint, key, position);
        NoClash(ledger, rec);
        RowsAppend(ledger, rec);
      }
      var ok := Insert(RowOf(rec));
      if !ok {
        return Err(Constraint);
      }
      ledger := ledger + [rec];
      return Ok(Minted(rec, false));
    }

    method Get(id: string, ownerID: string) returns (r: Result<Record>)
      requires Valid()
      ensures r == Ledger.Get(ledger, id, ownerID)
    {
      hide Sound, RowOf, ScanRecord, RowsOf, Ledger.Get;
      GetFinds(ledger, id, ownerID);
      var found := Select((w: Row) => w.id == id && w.ownerID == ownerID);
      if found.None? {
        NoId(ledger, id, ownerID, table);
        return Err(NotFound);
      }
      RowIsRecord(ledger, found.value);
      MemoryStore.SameId(ledger, ScanRecord(found.value), Ledger.Get(ledger, id, ownerID).value);
      return Ok(ScanRecord(found.value));
    }

    /** The row loop over an owner's records, newest first. */
    method List(ownerID: string) returns (out: seq<Record>)
      requires Valid()
      ensures out == Ledger.List(ledger, ownerID)
    {
      hide Sound, RowOf, ScanRecord, RowsOf, Ledger.List;
      var rows := SelectByOwner(ownerID);
      out := [];
      for i := 0 to |rows|
        invariant |out| == i && forall k :: 0 <= k < i ==> out[k] == ScanRecord(rows[k])
      {
        out := out + [ScanRecord(rows[i])];
      }
      ScannedList(ledger, ownerID, rows, out);
    }
  }

  /** The row at the top of ORDER BY ledger_position DESC. */
  method Highest(rows: set<Row>) returns (top: Row)
    requires rows != {}
    ensures top in rows && forall w :: w in rows ==> w.ledgerPosition <= top.ledgerPosition
  {
    top :| top in rows;
    var left := rows - {top};
    while left != {}
      invariant left <= rows && top in rows
      invariant forall w :: w in rows - left ==> w.ledgerPosition <= top.ledgerPosition
      decreases left
    {
      var w :| w in left;
      left := left - {w};
      if w.ledgerPosition > top.ledgerPosition {
        top := w;
      }
    }
  }

  // ---- the table and the ledger ------------------------------------------------------------

  /** Every row of the table is the row of a record of the ledger. */
  lemma RowIsRecord(ledger: seq<Record>, w: Row)
    requires w in RowsOf(ledger)
    ensures var r := ScanRecord(w);
      r in ledger && RowOf(r) == w && r.ownerID == w.ownerID && r.timestampMs == w.timestampMs && r.id == w.id
      && r.position == w.ledgerPosition
  {
  }

  lemma RecordIsRow(ledger: seq<Record>, r: Record)
    requires r in ledger
    ensures RowOf(r) in RowsOf(ledger) && ScanRecord(RowOf(r)) == r
    ensures var w := RowOf(r);
      w.ownerID == r.ownerID && w.timestampMs == r.timestampMs && w.id == r.id && w.ledgerPosition == r.position
      && w.serial == r.serial
  {
  }

  lemma StartIndex(ledger: seq<Record>, r: Record)
    requires Sound(ledger) && r in ledger
    ensures var i := IndexOf(ledger, StartOf(r)); i >= 0 && ledger[i] == r
  {
  }

  lemma NoStart(ledger: seq<Record>, ownerID: string, timestampMs: int, table: set<Row>)
    requires table == RowsOf(ledger) && forall w :: w in table ==> w.ownerID != ownerID || w.timestampMs != timestampMs
    ensures IndexOf(ledger, StartKey(ownerID, timestampMs)) == -1
  {
    hide RowOf, ScanRecord, RowsOf;
    var i := IndexOf(ledger, StartKey(ownerID, timestampMs));
    if i >= 0 {
      RecordIsRow(ledger, ledger[i]);
    }
  }

  lemma NoId(ledger: seq<Record>, id: string, ownerID: string, table: set<Row>)
    requires table == RowsOf(ledger) && forall w :: w in table ==> w.id != id || w.ownerID != ownerID
    ensures Ledger.Get(ledger, id, ownerID) == Err(NotFound)
  {
    hide RowOf, ScanRecord, RowsOf, Ledger.Get;
    GetFinds(ledger, id, ownerID);
    var g := Ledger.Get(ledger, id, ownerID);
    if g.Ok? {
      RecordIsRow(ledger, g.value);
    }
  }

  /** MAX(ledger_position) + 1 is one more than the number of records. */
  lemma MaxIsLength(ledger: seq<Record>, position: nat)
    requires Sound(ledger)
    requires RowsOf(ledger) == {} ==> position == 1
    requires forall w :: w in RowsOf(ledger) ==> w.ledgerPosition < position
    requires RowsOf(ledger) != {} ==> exists w :: w in RowsOf(ledger) && w.ledgerPosition + 1 == position
    ensures position == |ledger| + 1
  {
    hide Sound, RowOf, ScanRecord, RowsOf;
    SoundPositions(ledger);
    if ledger == [] {
      assert RowsOf(ledger) == {} by {
        NoRows();
      }
    } else {
      RecordIsRow(ledger, ledger[|ledger| - 1]);
      var w :| w in RowsOf(ledger) && w.ledgerPosition + 1 == position;
      RowIsRecord(ledger, w);
    }
  }

  lemma NoRows()
    ensures RowsOf([]) == {}
  {
  }

  /** No uniqueness constraint can fire on the row of a genuine record at the next position. */
  lemma NoClash(ledger: seq<Record>, rec: Record)
    requires Sound(ledger) && GenuineAt(rec, |ledger| + 1) && IndexOf(ledger, StartOf(rec)) == -1
    ensures forall w :: w in RowsOf(ledger) ==> !Clash(w, RowOf(rec))
  {
    hide Sound, GenuineAt, RowsOf, ScanRecord;
    forall w | w in RowsOf(ledger)
      ensures !Clash(w, RowOf(rec))
    {
      RowIsRecord(ledger, w);
      MemoryStore.Fresh(ledger, rec, ScanRecord(w));
    }
  }

  lemma RowsAppend(ledger: seq<Record>, rec: Record)
    ensures RowsOf(ledger + [rec]) == RowsOf(ledger) + {RowOf(rec)}
  {
  }

  /** Two lists of falling positions with the same members are the same list. */
  lemma {:induction false} FallingUnique(a: seq<Record>, b: seq<Record>)
    requires Falling(a) && Falling(b) && forall r :: r in a <==> r in b
    ensures a == b
  {
    HeadMember(a);
    HeadMember(b);
    if a != [] {
      var i :| 0 <= i < |a| && a[i] == b[0];
      var j :| 0 <= j < |b| && b[j] == a[0];
      assert a[0] == b[0];
      forall r
        ensures r in a[1..] <==> r in b[1..]
      {
        TailMembers(a, r);
        TailMembers(b, r);
      }
      FallingUnique(a[1..], b[1..]);
    }
  }

  lemma HeadMember(a: seq<Record>)
    ensures a != [] ==> a[0] in a
  {
  }

  lemma TailMembers(a: seq<Record>, r: Record)
    requires a != [] && Falling(a)
    ensures r in a[1..] <==> r in a && r != a[0]
  {
  }

  /** What the row loop builds is the owner's List. */
  lemma ScannedList(ledger: seq<Record>, ownerID: string, rows: seq<Row>, out: seq<Record>)
    requires Sound(ledger)
    requires forall w :: w in rows <==> w in RowsOf(ledger) && w.ownerID == ownerID
    requires forall i, j :: 0 <= i < j < |rows| ==> rows[i].ledgerPosition >= rows[j].ledgerPosition && rows[i] != rows[j]
    requires |out| == |rows| && forall k :: 0 <= k < |rows| ==> out[k] == ScanRecord(rows[k])
    ensures out == Ledger.List(ledger, ownerID)
  {
    hide Sound, RowOf, ScanRecord, RowsOf, Ledger.List;
    forall r
      ensures r in out <==> r in ledger && r.ownerID == ownerID
    {
      if r in ledger && r.ownerID == ownerID {
        RecordIsRow(ledger, r);
        var k :| 0 <= k < |rows| && rows[k] == RowOf(r);
        assert out[k] == r;
      }
      if r in out {
        var k :| 0 <= k < |out| && out[k] == r;
        assert rows[k] in rows;
        RowIsRecord(ledger, rows[k]);
      }
    }
    forall i, j | 0 <= i < j < |out|
      ensures out[i].position > out[j].position
    {
      assert rows[i] in rows && rows[j] in rows;
      RowIsRecord(ledger, rows[i]);
      RowIsRecord(ledger, rows[j]);
      SamePosition(ledger, out[i], out[j]);
    }
    ListShape(ledger, ownerID);
    FallingUnique(out, Ledger.List(ledger, ownerID));
  }

  lemma SamePosition(ledger: seq<Record>, a: Record, b: Record)
    requires Sound(ledger) && a in ledger && b in ledger
    ensures a.position == b.position ==> a == b
  {
  }

  /** Each column holds the field it is named for. */
  lemma ColumnsHold(r: Record)
    ensures var w := RowOf(r);
      && w.id == r.id && w.ownerID == r.ownerID && w.ledgerPosition == r.position && w.tierIndex == r.tierIndex
      && w.amountCents == r.amountCents && w.timestampMs == r.timestampMs
      && w.dropletsLanded == r.telemetry.dropletsLanded && w.peakVelocity == r.telemetry.peakVelocity
      && w.tiltEnergy == r.telemetry.tiltEnergy && w.holdMs == r.telemetry.holdMs
      && w.violations == r.violations && w.seed == r.seed && w.rarity == r.rarity && w.rarityScore == r.rarityScore
      && w.serial == r.serial && w.batch == r.batch && w.massGrams == r.massGrams && w.issued == r.issued
  {
  }
}
