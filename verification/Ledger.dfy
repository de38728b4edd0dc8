/** The ledger as a sequence of records, and what every run of it keeps. */
module Ledger {
  import opened Sim
  import opened Clamping
  import opened Pour
  import Printing

  /** What names a pour before it has a position. */
  datatype MintKey = MintKey(ownerID: string, timestampMs: int, tierIndex: int)

  /** What no two records may share: the owner and the instant the pour began. */
  datatype StartKey = StartKey(ownerID: string, timestampMs: int)

  /** A successful Append: the record, and whether it was already there. */
  datatype Minted = Minted(rec: Record, replayed: bool)

  type MintFn = nat -> Result<Record>

  /** The callback keeps to its key, as Mint under the handler's key does. */
  ghost predicate Honours(mint: MintFn, key: MintKey)
  {
    forall p: nat :: mint(p).Ok? ==> Genuine(mint(p).value, key.ownerID, key.timestampMs, key.tierIndex, p)
  }

  function StartOf(r: Record): StartKey { StartKey(r.ownerID, r.timestampMs) }

  /** The position in the sequence of the record with this start, if there is one. */
  function IndexOf(ledger: seq<Record>, start: StartKey): (i: int)
    ensures -1 <= i < |ledger|
    ensures i >= 0 ==> StartOf(ledger[i]) == start
    ensures i == -1 ==> forall k :: 0 <= k < |ledger| ==> StartOf(ledger[k]) != start
  {
    if ledger == [] then -1
    else
      var n := |ledger| - 1;
      if StartOf(ledger[n]) == start then n else IndexOf(ledger[..n], start)
  }

  /** Append: replay, refuse, or mint at the next position. */
  function Append(ledger: seq<Record>, key: MintKey, mint: MintFn): (seq<Record>, Result<Minted>)
  {
    var i := IndexOf(ledger, StartKey(key.ownerID, key.timestampMs));
    if i >= 0 then
      if ledger[i].tierIndex != key.tierIndex then (ledger, Err(Conflict)) else (ledger, Ok(Minted(ledger[i], true)))
    else
      match mint(|ledger| + 1)
      case Err(e) => (ledger, Err(e))
      case Ok(rec) => (ledger + [rec], Ok(Minted(rec, false)))
  }

  function Get(ledger: seq<Record>, id: string, ownerID: string): Result<Record>
  {
    if ledger == [] then Err(NotFound)
    else
      var n := |ledger| - 1;
      if ledger[n].id == id && ledger[n].ownerID == ownerID then Ok(ledger[n]) else Get(ledger[..n], id, ownerID)
  }

  /** The owner's records, newest first. */
  function List(ledger: seq<Record>, ownerID: string): seq<Record>
  {
    if ledger == [] then []
    else
      var n := |ledger| - 1;
      if ledger[n].ownerID == ownerID then [ledger[n]] + List(ledger[..n], ownerID) else List(ledger[..n], ownerID)
  }

  /** Positions are exactly 1..n in append order, one record per start, and every record is genuine. */
  predicate Sound(ledger: seq<Record>)
  {
    && (forall i :: 0 <= i < |ledger| ==> GenuineAt(ledger[i], i + 1))
    && (forall i, j :: 0 <= i < j < |ledger| ==> StartOf(ledger[i]) != StartOf(ledger[j]))
  }

  predicate GenuineAt(r: Record, position: nat)
  {
    Genuine(r, r.ownerID, r.timestampMs, r.tierIndex, position)
  }

  // ---- one Append ------------------------------------------------------------------------

  /**
   * Append keeps the ledger sound and append-only. It grows by one record at the next position exactly
   * when it reports a fresh mint; replays, conflicts and failed mints leave it alone.
   */
  lemma AppendKeeps(ledger: seq<Record>, key: MintKey, mint: MintFn)
    requires Sound(ledger) && Honours(mint, key)
    ensures var (after, r) := Append(ledger, key, mint);
      && Sound(after) && ledger <= after
      && (r.Ok? && !r.value.replayed ==> after == ledger + [r.value.rec] && r.value.rec.position == |ledger| + 1)
      && (r.Ok? && r.value.replayed ==> after == ledger)
      && (r.Err? ==> after == ledger)
      && (r.Ok? ==> r.value.rec in after && StartOf(r.value.rec) == StartKey(key.ownerID, key.timestampMs)
                    && r.value.rec.tierIndex == key.tierIndex)
      && (r == Err(Conflict) && mint(|ledger| + 1) != Err(Conflict) ==>
            exists c :: c in ledger && StartOf(c) == StartKey(key.ownerID, key.timestampMs) && c.tierIndex != key.tierIndex)
  {
    hide Printing.Id, Printing.Serial;
    var start := StartKey(key.ownerID, key.timestampMs);
    var i := IndexOf(ledger, start);
    var (after, r) := Append(ledger, key, mint);
    if i >= 0 {
      assert ledger[i] in ledger;
    } else if r.Ok? {
      assert Genuine(r.value.rec, key.ownerID, key.timestampMs, key.tierIndex, |ledger| + 1);
      assert after[|ledger|] == r.value.rec;
    }
  }

  /** A start is looked up by its one record. */
  lemma IndexUnique(ledger: seq<Record>, i: nat)
    requires Sound(ledger) && i < |ledger|
    ensures IndexOf(ledger, StartOf(ledger[i])) == i
  {
  }

  // ---- identifiers -----------------------------------------------------------------------

  /** In a sound ledger no two records share an id or a serial. */
  lemma IdsDistinct(ledger: seq<Record>, i: nat, j: nat)
    requires Sound(ledger) && i < j < |ledger|
    ensures ledger[i].id != ledger[j].id && ledger[i].serial != ledger[j].serial
  {
    hide Printing.Id, Printing.Serial;
    assert GenuineAt(ledger[i], i + 1) && GenuineAt(ledger[j], j + 1);
    Printing.PositionsNeverCollide(i + 1, ledger[i].seed, j + 1, ledger[j].seed);
  }

  // ---- reads -----------------------------------------------------------------------------

  lemma {:induction false} ListMembers(ledger: seq<Record>, ownerID: string)
    ensures forall r :: r in List(ledger, ownerID) <==> r in ledger && r.ownerID == ownerID
  {
    if ledger != [] {
      var n := |ledger| - 1;
      ListMembers(ledger[..n], ownerID);
      assert ledger == ledger[..n] + [ledger[n]];
    }
  }

  /** Consing a higher position onto a falling list keeps it falling. */
  lemma FallingCons(r: Record, rest: seq<Record>)
    requires Falling(rest) && forall i :: 0 <= i < |rest| ==> rest[i].position < r.position
    ensures Falling([r] + rest)
  {
  }

  /** Strictly falling positions. */
  predicate Falling(out: seq<Record>)
  {
    forall i, j :: 0 <= i < j < |out| ==> out[i].position > out[j].position
  }

  lemma {:induction false} ListFalls(ledger: seq<Record>, ownerID: string)
    requires forall i :: 0 <= i < |ledger| ==> ledger[i].position == i + 1
    ensures var out := List(ledger, ownerID);
      Falling(out) && forall i :: 0 <= i < |out| ==> 1 <= out[i].position <= |ledger|
  {
    if ledger != [] {
      var n := |ledger| - 1;
      hide Falling;
      ListFalls(ledger[..n], ownerID);
      var r, rest := ledger[n], List(ledger[..n], ownerID);
      if r.ownerID == ownerID {
        FallingCons(r, rest);
      }
    }
  }

  lemma SoundPositions(ledger: seq<Record>)
    requires Sound(ledger)
    ensures forall i :: 0 <= i < |ledger| ==> ledger[i].position == i + 1
  {
  }

  /** A List is one owner's records, each once, with strictly falling positions. */
  lemma ListShape(ledger: seq<Record>, ownerID: string)
    requires Sound(ledger)
    ensures var out := List(ledger, ownerID);
      && (forall r :: r in out <==> r in ledger && r.ownerID == ownerID)
      && Falling(out)
  {
    ListMembers(ledger, ownerID);
    SoundPositions(ledger);
    ListFalls(ledger, ownerID);
  }

  /** The owners' Lists partition the ledger: every record is in its owner's List and in no other. */
  lemma ListsPartition(ledger: seq<Record>, r: Record, ownerID: string)
    requires Sound(ledger) && r in ledger
    ensures r in List(ledger, ownerID) <==> ownerID == r.ownerID
  {
    ListShape(ledger, ownerID);
  }

  lemma {:induction false} GetFinds(ledger: seq<Record>, id: string, ownerID: string)
    ensures var g := Get(ledger, id, ownerID);
      && (g.Ok? ==> g.value in ledger && g.value.id == id && g.value.ownerID == ownerID)
      && (g.Err? ==> g == Err(NotFound) && forall r :: r in ledger ==> r.id != id || r.ownerID != ownerID)
  {
    if ledger != [] {
      var n := |ledger| - 1;
      GetFinds(ledger[..n], id, ownerID);
      assert ledger == ledger[..n] + [ledger[n]];
    }
  }

  /** Get succeeds for exactly the members of that owner's List, and returns the member. */
  lemma GetIsListMember(ledger: seq<Record>, r: Record, ownerID: string)
    requires Sound(ledger)
    ensures Get(ledger, r.id, ownerID) == Ok(r) <==> r in List(ledger, ownerID)
  {
    hide List, Get, Sound;
    ListMembers(ledger, ownerID);
    GetFinds(ledger, r.id, ownerID);
    var g := Get(ledger, r.id, ownerID);
    if r in List(ledger, ownerID) {
      var i :| 0 <= i < |ledger| && ledger[i] == r;
      var j :| 0 <= j < |ledger| && ledger[j] == g.value;
      if i < j {
        IdsDistinct(ledger, i, j);
      } else if j < i {
        IdsDistinct(ledger, j, i);
      }
    }
  }

  /** A record asked for by anyone but its owner might as well not exist. */
  lemma OthersNotFound(ledger: seq<Record>, r: Record, ownerID: string)
    requires Sound(ledger) && r in ledger && r.ownerID != ownerID
    ensures Get(ledger, r.id, ownerID) == Err(NotFound)
  {
    hide Get, Sound;
    GetFinds(ledger, r.id, ownerID);
    var g := Get(ledger, r.id, ownerID);
    if g.Ok? {
      var i :| 0 <= i < |ledger| && ledger[i] == r;
      var j :| 0 <= j < |ledger| && ledger[j] == g.value;
      if i < j {
        IdsDistinct(ledger, i, j);
      } else if j < i {
        IdsDistinct(ledger, j, i);
      }
    }
  }

  // ---- whole runs ------------------------------------------------------------------------

  /** A mint as the handler calls it: key and callback come from one request. */
  datatype Call = Call(req: Request, ownerID: string, now: Clock)
  {
    function Key(): MintKey { MintKey(ownerID, req.timestampMs, req.tierIndex) }
    function Minter(root: Root): MintFn { (p: nat) => Mint(req, p, ownerID, now, root) }
  }

  lemma CallHonours(c: Call, root: Root)
    ensures Honours(c.Minter(root), c.Key())
  {
    forall p: nat | c.Minter(root)(p).Ok?
      ensures Genuine(c.Minter(root)(p).value, c.ownerID, c.req.timestampMs, c.req.tierIndex, p)
    {
      MintGenuine(c.req, p, c.ownerID, c.now, root);
    }
  }

  function RunCalls(calls: seq<Call>, root: Root): seq<Record>
  {
    if calls == [] then []
    else
      var n := |calls| - 1;
      Append(RunCalls(calls[..n], root), calls[n].Key(), calls[n].Minter(root)).0
  }

  /** Over every run from empty, positions are exactly 1..n in append order and no start is minted twice. */
  lemma {:induction false} RunSound(calls: seq<Call>, root: Root)
    ensures Sound(RunCalls(calls, root))
  {
    if calls != [] {
      var n := |calls| - 1;
      RunSound(calls[..n], root);
      CallHonours(calls[n], root);
      AppendKeeps(RunCalls(calls[..n], root), calls[n].Key(), calls[n].Minter(root));
    }
  }

  /** A retry of any earlier successful call is answered with the record that call minted, for ever. */
  lemma {:induction false} ReplayForever(calls: seq<Call>, retry: Call, rec: Record, root: Root)
    requires rec in RunCalls(calls, root) && StartOf(rec) == StartKey(retry.ownerID, retry.req.timestampMs)
    ensures Append(RunCalls(calls, root), retry.Key(), retry.Minter(root)) ==
      (RunCalls(calls, root), if rec.tierIndex == retry.req.tierIndex then Ok(Minted(rec, true)) else Err(Conflict))
  {
    RunSound(calls, root);
    var ledger := RunCalls(calls, root);
    var i :| 0 <= i < |ledger| && ledger[i] == rec;
    IndexUnique(ledger, i);
  }

  // ---- every answer, on the records themselves ------------------------------------------------

  /**
   * What Append answers and leaves behind. A record of this owner and instant is returned as a replay if its
   * tier is the asked one and is a conflict if not; without one, whatever the callback makes of the next
   * position is the answer, and a record it makes is appended.
   */
  lemma AppendAnswers(ledger: seq<Record>, key: MintKey, mint: MintFn)
    requires Sound(ledger)
    ensures var (after, r) := Append(ledger, key, mint);
      && (forall rec :: rec in ledger && rec.ownerID == key.ownerID && rec.timestampMs == key.timestampMs ==>
            after == ledger && r == if rec.tierIndex == key.tierIndex then Ok(Minted(rec, true)) else Err(Conflict))
      && ((forall rec :: rec in ledger ==> rec.ownerID != key.ownerID || rec.timestampMs != key.timestampMs) ==>
            match mint(|ledger| + 1)
            case Err(e) => after == ledger && r == Err(e)
            case Ok(rec) => after == ledger + [rec] && r == Ok(Minted(rec, false)))
  {
    hide Sound;
    var start := StartKey(key.ownerID, key.timestampMs);
    forall rec | rec in ledger && rec.ownerID == key.ownerID && rec.timestampMs == key.timestampMs
      ensures IndexOf(ledger, start) >= 0 && ledger[IndexOf(ledger, start)] == rec
    {
      var i :| 0 <= i < |ledger| && ledger[i] == rec;
      IndexUnique(ledger, i);
    }
    var k := IndexOf(ledger, start);
    if k >= 0 {
      assert ledger[k] in ledger;
    }
  }
}
