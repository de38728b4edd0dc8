/** The in-memory store: the record list and the two maps kept beside it. */
module MemoryStore {
  import opened Pour
  import opened Ledger
  import Printing

  datatype Tables = Tables(records: seq<Record>, byID: map<string, Record>, byStart: map<StartKey, Record>)

  /** What an Append makes of the list and the maps, whatever the callback. */
  function AppendTo(t: Tables, key: MintKey, mint: MintFn): (Tables, Result<Minted>)
  {
    var sk := StartKey(key.ownerID, key.timestampMs);
    if sk in t.byStart then
      (t, if t.byStart[sk].tierIndex != key.tierIndex then Err(Conflict) else Ok(Minted(t.byStart[sk], true)))
    else
      match mint(|t.records| + 1)
      case Err(e) => (t, Err(e))
      case Ok(rec) =>
        (Tables(t.records + [rec], t.byID[rec.id := rec], t.byStart[sk := rec]), Ok(Minted(rec, false)))
  }

  /** The maps agree with the record list, and the list is a sound ledger. */
  predicate TablesOk(t: Tables)
  {
    Sound(t.records) && IDsAgree(t.records, t.byID) && StartsAgree(t.records, t.byStart)
  }

  class MemoryStore {
    var records: seq<Record>
    var byID: map<string, Record>
    var byStart: map<StartKey, Record>

    ghost predicate Valid()
      reads this
    {
      TablesOk(Contents())
    }

    constructor ()
      ensures Valid() && records == []
    {
      records, byID, byStart := [], map[], map[];
    }

    ghost function Contents(): Tables
      reads this
    {
      Tables(records, byID, byStart)
    }

    /**
     * Any callback may be given. One that mints under the key it is called with, as the handler's does,
     * makes this the reference Append.
     */
    method Append(key: MintKey, mint: MintFn) returns (r: Result<Minted>)
      modifies this
      ensures (Contents(), r) == AppendTo(old(Contents()), key, mint)
      ensures old(Valid()) && Honours(mint, key) ==> Valid() && (records, r) == Ledger.Append(old(records), key, mint)
    {
      hide Sound, Honours, IDsAgree, StartsAgree, Ledger.Append;
      if Valid() && Honours(mint, key) {
        AppendRefines(Contents(), key, mint);
      }
      var sk := StartKey(key.ownerID, key.timestampMs);
      if sk in byStart {
        var existing := byStart[sk];
        if existing.tierIndex != key.tierIndex {
          return Err(Conflict);
        }
        return Ok(Minted(existing, true));
      }

      var position := |records| + 1;
      var minted := mint(position);
      if minted.Err? {
        return Err(minted.error);
      }
      var rec := minted.value;
      records := records + [rec];
      byID := byID[rec.id := rec];
      byStart := byStart[sk := rec];
      return Ok(Minted(rec, false));
    }

    method Get(id: string, ownerID: string) returns (r: Result<Record>)
      requires Valid()
      ensures r == Ledger.Get(records, id, ownerID)
    {
      hide Sound, IDsAgree, StartsAgree;
      GetById(records, byID, id, ownerID);
      if id !in byID || byID[id].ownerID != ownerID {
        return Err(NotFound);
      }
      return Ok(byID[id]);
    }

    /** Newest first, by walking the list backwards. */
    method List(ownerID: string) returns (out: seq<Record>)
      requires Valid()
      ensures out == Ledger.List(records, ownerID)
    {
      hide Sound, IDsAgree, StartsAgree;
      out := [];
      var i := |records| - 1;
      assert records[..i + 1] == records;
      while i >= 0
        invariant -1 <= i < |records|
        invariant out + Ledger.List(records[..i + 1], ownerID) == Ledger.List(records, ownerID)
      {
        assert records[..i + 1][..i] == records[..i];
        if records[i].ownerID == ownerID {
          out := out + [records[i]];
        }
        i := i - 1;
      }
    }
  }

  /** byID maps exactly the ids of the records, each to its record. */
  predicate IDsAgree(ledger: seq<Record>, byID: map<string, Record>)
  {
    && (forall r :: r in ledger ==> r.id in byID && byID[r.id] == r)
    && (forall id :: id in byID ==> byID[id] in ledger && byID[id].id == id)
  }

  /** byStart maps exactly the starts of the records, each to its record. */
  predicate StartsAgree(ledger: seq<Record>, byStart: map<StartKey, Record>)
  {
    && (forall r :: r in ledger ==> StartOf(r) in byStart && byStart[StartOf(r)] == r)
    && (forall k :: k in byStart ==> byStart[k] in ledger && StartOf(byStart[k]) == k)
  }

  lemma StartFound(ledger: seq<Record>, start: StartKey, byStart: map<StartKey, Record>)
    requires Sound(ledger) && StartsAgree(ledger, byStart) && start in byStart
    ensures var i := IndexOf(ledger, start); i >= 0 && ledger[i] == byStart[start]
  {
  }

  lemma StartAbsent(ledger: seq<Record>, start: StartKey, byStart: map<StartKey, Record>)
    requires StartsAgree(ledger, byStart) && start !in byStart
    ensures IndexOf(ledger, start) == -1
  {
  }

  lemma HonouredRecord(mint: MintFn, key: MintKey, position: nat)
    requires Honours(mint, key) && mint(position).Ok?
    ensures var rec := mint(position).value;
      GenuineAt(rec, position) && StartOf(rec) == StartKey(key.ownerID, key.timestampMs)
  {
  }

  /** A genuine record at the next position has an id and a serial no record has. */
  lemma Fresh(ledger: seq<Record>, rec: Record, r: Record)
    requires Sound(ledger) && GenuineAt(rec, |ledger| + 1) && r in ledger
    ensures r.id != rec.id && r.serial != rec.serial && r.position != rec.position
  {
    hide Printing.Id, Printing.Serial;
    var i :| 0 <= i < |ledger| && ledger[i] == r;
    assert GenuineAt(ledger[i], i + 1);
    Printing.PositionsNeverCollide(i + 1, r.seed, |ledger| + 1, rec.seed);
  }

  lemma IDsAppend(ledger: seq<Record>, byID: map<string, Record>, rec: Record)
    requires Sound(ledger) && IDsAgree(ledger, byID) && GenuineAt(rec, |ledger| + 1)
    ensures IDsAgree(ledger + [rec], byID[rec.id := rec])
  {
    hide Sound, GenuineAt;
    forall r | r in ledger
      ensures r.id != rec.id
    {
      Fresh(ledger, rec, r);
    }
  }

  lemma StartsAppend(ledger: seq<Record>, byStart: map<StartKey, Record>, rec: Record)
    requires StartsAgree(ledger, byStart) && StartOf(rec) !in byStart
    ensures StartsAgree(ledger + [rec], byStart[StartOf(rec) := rec])
  {
  }

  lemma SameId(ledger: seq<Record>, a: Record, b: Record)
    requires Sound(ledger) && a in ledger && b in ledger && a.id == b.id
    ensures a == b
  {
    hide Sound;
    var i :| 0 <= i < |ledger| && ledger[i] == a;
    var j :| 0 <= j < |ledger| && ledger[j] == b;
    if i < j {
      IdsDistinct(ledger, i, j);
    } else if j < i {
      IdsDistinct(ledger, j, i);
    }
  }

  /** Get through the map is Get through the list. */
  lemma GetById(ledger: seq<Record>, byID: map<string, Record>, id: string, ownerID: string)
    requires Sound(ledger) && IDsAgree(ledger, byID)
    ensures Ledger.Get(ledger, id, ownerID) ==
      if id in byID && byID[id].ownerID == ownerID then Ok(byID[id]) else Err(NotFound)
  {
    hide Sound, Ledger.Get;
    GetFinds(ledger, id, ownerID);
    var g := Ledger.Get(ledger, id, ownerID);
    if g.Ok? {
      SameId(ledger, g.value, byID[id]);
    }
  }

  /** Under a callback that honours its key, the list and the maps stay in step and follow the reference ledger. */
  lemma AppendRefines(t: Tables, key: MintKey, mint: MintFn)
    requires TablesOk(t) && Honours(mint, key)
    ensures var (u, r) := AppendTo(t, key, mint); TablesOk(u) && (u.records, r) == Ledger.Append(t.records, key, mint)
  {
    hide Sound, Honours, IDsAgree, StartsAgree;
    AppendKeeps(t.records, key, mint);
    var sk := StartKey(key.ownerID, key.timestampMs);
    if sk in t.byStart {
      StartFound(t.records, sk, t.byStart);
    } else {
      StartAbsent(t.records, sk, t.byStart);
      var position := |t.records| + 1;
      if mint(position).Ok? {
        HonouredRecord(mint, key, position);
        IDsAppend(t.records, t.byID, mint(position).value);
        StartsAppend(t.records, t.byStart, mint(position).value);
      }
    }
  }
}
