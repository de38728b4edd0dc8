/** The mint handler: limiter, session, body, tier ceiling, then the ledger. */
module Server {
  import opened Options
  import opened Sim
  import opened Clamping
  import opened Pour
  import opened Ledger
  import Limiter
  import SqliteStore

  /** An HTTP answer: the status, the record of a success, and the Retry-After of a refusal. */
  datatype Reply = Reply(status: int, body: Option<Record>, retryAfter: Option<int>)

  function Refusal(status: int): Reply { Reply(status, None, None) }

  /** What arrives: the client's address, the session's owner if one could be had, and the body if it parses. */
  datatype Arrival = Arrival(address: string, ownerID: Option<string>, body: Option<Request>)

  /** The answer to an Append. */
  function ReplyTo(r: Result<Minted>): Reply
  {
    match r
    case Ok(m) => Reply(if m.replayed then 200 else 201, Some(m.rec), None)
    case Err(Validation) => Refusal(400)
    case Err(Conflict) => Refusal(409)
    case Err(_) => Refusal(500)
  }

  /** Everything past the limiter. */
  function Handle(ledger: seq<Record>, a: Arrival, maxTierIndex: int, now: Clock, root: Root): (seq<Record>, Reply)
  {
    if a.ownerID.None? then (ledger, Refusal(500))
    else if a.body.None? then (ledger, Refusal(400))
    else if a.body.value.tierIndex > maxTierIndex then (ledger, Refusal(400))
    else
      var c := Call(a.body.value, a.ownerID.value, now);
      var (after, r) := Append(ledger, c.Key(), c.Minter(root));
      (after, ReplyTo(r))
  }

  /** The whole handler, on the limiter's map and the ledger. */
  function HandleMint(s: Limiter.State, cfg: Limiter.Config, ledger: seq<Record>, a: Arrival, maxTierIndex: int,
                      nanos: int, now: Clock, root: Root): (Limiter.State, seq<Record>, Reply)
    requires Limiter.ConfigOk(cfg)
  {
    var (after, d) := Limiter.Allow(s, a.address, nanos, cfg);
    if !d.ok then (after, ledger, Reply(429, None, Some(Limiter.RetryAfter(d.wait))))
    else
      var (grown, reply) := Handle(ledger, a, maxTierIndex, now, root);
      (after, grown, reply)
  }

  class Server {
    const store: SqliteStore.SqliteStore
    const mintLimit: Limiter.Limiter
    const maxTierIndex: int
    const root: Root

    ghost predicate Valid()
      reads this, store
    {
      store.Valid() && mintLimit.Valid()
    }

    constructor (maxTierIndex: int, burst: nat, every: nat, zeroTime: int, root: Root)
      requires burst >= 1 && every >= 1
      ensures Valid() && store.ledger == [] && fresh(store) && fresh(mintLimit)
      ensures mintLimit.Model() == Limiter.State(map[], zeroTime) && mintLimit.cfg == Limiter.Config(burst, every)
      ensures this.maxTierIndex == maxTierIndex && this.root == root
    {
      store := new SqliteStore.SqliteStore();
      mintLimit := new Limiter.Limiter(burst, every, zeroTime);
      this.maxTierIndex, this.root := maxTierIndex, root;
    }

    method Mint(a: Arrival, nanos: int, now: Clock) returns (reply: Reply)
      requires Valid()
      modifies store, mintLimit
      ensures Valid()
      ensures (mintLimit.Model(), store.ledger, reply) ==
        HandleMint(old(mintLimit.Model()), mintLimit.cfg, old(store.ledger), a, maxTierIndex, nanos, now, root)
    {
      hide Append, Limiter.Allow, Limiter.RetryAfter, Sound;
      var ok, wait := mintLimit.AllowKey(a.address, nanos);
      if !ok {
        return Reply(429, None, Some(Limiter.RetryAfter(wait)));
      }
      if a.ownerID.None? {
        return Refusal(500);
      }
      if a.body.None? {
        return Refusal(400);
      }
      if a.body.value.tierIndex > maxTierIndex {
        return Refusal(400);
      }
      ghost var c := Call(a.body.value, a.ownerID.value, now);
      CallHonours(c, root);
      var req, ownerID := a.body.value, a.ownerID.value;
      var key := MintKey(ownerID, req.timestampMs, req.tierIndex);
      var r := store.Append(key, Call(req, ownerID, now).Minter(root));
      match r
      case Err(e) =>
        match e {
          case Validation => return Refusal(400);
          case Conflict => return Refusal(409);
          case NotFound => return Refusal(500);
          case Constraint => return Refusal(500);
        }
      case Ok(m) =>
        if m.replayed {
          return Reply(200, Some(m.rec), None);
        }
        return Reply(201, Some(m.rec), None);
    }
  }

  /**
   * What one request does to the ledger: it grows by exactly one record on a 201, and every other answer
   * (a replay, a conflict, a refused tier, a bad request, a rate limit) leaves it untouched, so refusals
   * leave no gap in the register.
   */
  lemma OnlyCreatedGrows(s: Limiter.State, cfg: Limiter.Config, ledger: seq<Record>, a: Arrival, maxTierIndex: int,
                         nanos: int, now: Clock, root: Root)
    requires Limiter.ConfigOk(cfg) && Sound(ledger)
    ensures var (_, after, reply) := HandleMint(s, cfg, ledger, a, maxTierIndex, nanos, now, root);
      && Sound(after)
      && (reply.status == 201 ==> reply.body.Some? && after == ledger + [reply.body.value]
                                  && reply.body.value.position == |ledger| + 1)
      && (reply.status != 201 ==> after == ledger)
      && (reply.body.Some? <==> reply.status == 200 || reply.status == 201)
      && (reply.body.Some? ==> reply.body.value in after && reply.body.value.tierIndex <= maxTierIndex
                               && a.ownerID == Some(reply.body.value.ownerID))
  {
    hide Append, Limiter.Allow, Sound;
    if a.ownerID.Some? && a.body.Some? {
      var c := Call(a.body.value, a.ownerID.value, now);
      CallHonours(c, root);
      AppendKeeps(ledger, c.Key(), c.Minter(root));
    }
  }

  /**
   * A rate-limited client that waits the advertised seconds gets past the limiter, whatever other
   * addresses do in the meantime, so long as its own makes no other call.
   */
  lemma RetryAfterIsEnough(calls: seq<Limiter.Call>, a: Arrival, nanos: int, others: seq<Limiter.Call>, later: int,
                           zeroTime: int, cfg: Limiter.Config, ledger: seq<Record>, maxTierIndex: int, now: Clock, root: Root)
    requires Limiter.ConfigOk(cfg)
    requires Limiter.InOrder(calls + [Limiter.Call(a.address, nanos)] + others + [Limiter.Call(a.address, later)])
    requires forall i :: 0 <= i < |others| ==> others[i].key != a.address
    ensures var (_, _, reply) := HandleMint(Limiter.RunState(calls, zeroTime, cfg), cfg, ledger, a, maxTierIndex, nanos, now, root);
      var history := calls + [Limiter.Call(a.address, nanos)] + others;
      reply.status == 429 ==>
        && reply.retryAfter.Some?
        && (later >= nanos + reply.retryAfter.value * Limiter.SECOND ==>
              Limiter.Allow(Limiter.RunState(history, zeroTime, cfg), a.address, later, cfg).1.ok)
  {
    hide Limiter.Allow, Limiter.RunState, Limiter.Answer, Limiter.RetryAfter, HandleMint, Limiter.InOrder;
    var s := Limiter.RunState(calls, zeroTime, cfg);
    if HandleMint(s, cfg, ledger, a, maxTierIndex, nanos, now, root).2.status == 429 {
      Refused(s, cfg, ledger, a, maxTierIndex, nanos, now, root);
      if later >= nanos + Limiter.RetryAfter(Limiter.Allow(s, a.address, nanos, cfg).1.wait) * Limiter.SECOND {
        WaitedOut(calls, a.address, nanos, others, later, zeroTime, cfg);
      }
    }
  }

  /** The same on the limiter alone. */
  lemma WaitedOut(calls: seq<Limiter.Call>, address: string, nanos: int, others: seq<Limiter.Call>, later: int,
                  zeroTime: int, cfg: Limiter.Config)
    requires Limiter.ConfigOk(cfg)
    requires Limiter.InOrder(calls + [Limiter.Call(address, nanos)] + others + [Limiter.Call(address, later)])
    requires forall i :: 0 <= i < |others| ==> others[i].key != address
    requires var d := Limiter.Allow(Limiter.RunState(calls, zeroTime, cfg), address, nanos, cfg).1;
      !d.ok && later >= nanos + Limiter.RetryAfter(d.wait) * Limiter.SECOND
    ensures var history := calls + [Limiter.Call(address, nanos)] + others;
      Limiter.Allow(Limiter.RunState(history, zeroTime, cfg), address, later, cfg).1.ok
  {
    hide Limiter.Allow, Limiter.RunState, Limiter.Answer, Limiter.RetryAfter;
    var refused, c := Limiter.Call(address, nanos), Limiter.Call(address, later);
    assert calls + [refused] + others + [c] == calls + [refused] + (others + [c]);
    InOrderPrefix(calls + [refused], others + [c]);
    Limiter.SweepInvisible(calls, refused, zeroTime, cfg);
    Limiter.RetryAfterHonoured(calls, refused, others, later, cfg);
    Limiter.SweepInvisible(calls + [refused] + others, c, zeroTime, cfg);
  }

  lemma InOrderPrefix(a: seq<Limiter.Call>, b: seq<Limiter.Call>)
    requires Limiter.InOrder(a + b)
    ensures Limiter.InOrder(a)
  {
    assert forall i :: 0 <= i < |a| ==> (a + b)[i] == a[i];
  }

  lemma Refused(s: Limiter.State, cfg: Limiter.Config, ledger: seq<Record>, a: Arrival, maxTierIndex: int,
                nanos: int, now: Clock, root: Root)
    requires Limiter.ConfigOk(cfg)
    requires HandleMint(s, cfg, ledger, a, maxTierIndex, nanos, now, root).2.status == 429
    ensures var d := Limiter.Allow(s, a.address, nanos, cfg).1;
      !d.ok && HandleMint(s, cfg, ledger, a, maxTierIndex, nanos, now, root).2.retryAfter == Some(Limiter.RetryAfter(d.wait))
  {
    hide Limiter.Allow, Append;
  }

  /**
   * Which status each request gets, on its own fields: 429 from the limiter; then 500 without a session,
   * 400 without a body or above the tier ceiling; then 200 or 409 if the ledger has a record of this owner
   * and instant, by its tier; then 400 outside tiers 0 to 5 or five minutes of the clock; and 201 otherwise.
   */
  lemma StatusInNumbers(s: Limiter.State, cfg: Limiter.Config, ledger: seq<Record>, a: Arrival, maxTierIndex: int,
                        nanos: int, now: Clock, root: Root)
    requires Limiter.ConfigOk(cfg) && Sound(ledger)
    ensures var (after, _, reply) := HandleMint(s, cfg, ledger, a, maxTierIndex, nanos, now, root);
      var (charged, d) := Limiter.Allow(s, a.address, nanos, cfg);
      && after == charged
      && reply.retryAfter == if d.ok then None else Some(d.wait / 1000000000 + 1)
    ensures var status := HandleMint(s, cfg, ledger, a, maxTierIndex, nanos, now, root).2.status;
      && (status == 429 <==> !Limiter.Allow(s, a.address, nanos, cfg).1.ok)
      && (status != 429 ==>
            && (a.ownerID.None? ==> status == 500)
            && (a.ownerID.Some? && a.body.None? ==> status == 400)
            && (a.ownerID.Some? && a.body.Some? ==>
                  var req := a.body.value;
                  && (req.tierIndex > maxTierIndex ==> status == 400)
                  && (req.tierIndex <= maxTierIndex ==>
                        && (forall rec :: rec in ledger && rec.ownerID == a.ownerID.value && rec.timestampMs == req.timestampMs
                              ==> status == if rec.tierIndex == req.tierIndex then 200 else 409)
                        && ((forall rec :: rec in ledger ==> rec.ownerID != a.ownerID.value || rec.timestampMs != req.timestampMs)
                              ==> status == if 0 <= req.tierIndex <= 5 && -300000 <= now.ms - req.timestampMs <= 300000
                                            then 201 else 400))))
  {
    hide Append, Mint, Limiter.Allow, Sound;
    if a.ownerID.Some? && a.body.Some? {
      var c := Call(a.body.value, a.ownerID.value, now);
      AppendAnswers(ledger, c.Key(), c.Minter(root));
      MintAcceptsExactly(c.req, |ledger| + 1, c.ownerID, now, root);
    }
  }
}
