/**
 * Minting end to end: retrying clients, a network that loses, delays and repeats, and one ledger.
 *
 * Requests and answers are sets that only grow. A request that was sent may be processed at any later
 * time, any number of times or never; an answer may arrive or not. That covers lost requests, lost
 * answers, requests that execute after their client timed out, and duplicates. Append is atomic.
 */
module Protocol {
  import opened Options
  import opened Pour
  import opened Ledger
  import opened Clamping
  import Server
  import Client

  /** A request on the wire, with the owner its cookie names and the attempt it belongs to. */
  datatype Msg = Msg(client: nat, seal: nat, attempt: nat, ownerID: string, req: Request)

  datatype Answer = Answer(msg: Msg, reply: Server.Reply)

  /** Where a client is with its current seal. */
  datatype Status =
    | Resting
    | Waiting(attempt: nat)
    | Pausing(attempt: nat)
    | Sealed(rec: Record)
    | GaveUp(code: Client.Code)
  {
    predicate InFlight() { Waiting? || Pausing? }
  }

  /** A browser: its owner cookie, the pour it would seal, how often it has sealed. */
  datatype Browser = Browser(ownerID: string, req: Request, seal: nat, status: Status)

  datatype System = System(ledger: seq<Record>, browsers: map<nat, Browser>, sent: set<Msg>, answers: set<Answer>)

  datatype Settings = Settings(retries: nat, maxTierIndex: int, root: Root)

  datatype Event =
    /** A browser appears with its cookie, or an idle one starts another pour. */
    | NewPour(c: nat, ownerID: string, req: Request)
    /** The user seals, or seals again. */
    | Seal(c: nat)
    /** The server takes up a request it was ever sent. */
    | Process(msg: Msg, limited: bool, storeFails: bool, now: Clock)
    /** An answer reaches the attempt that is waiting for it; its body may be unreadable. */
    | Receive(c: nat, answer: Answer, readable: bool)
    /** The attempt ends with no answer. */
    | NoAnswer(c: nat, timedOut: bool)
    /** The backoff is over. */
    | Resume(c: nat)

  function Sent(sys: System, c: nat, attempt: nat): System
    requires c in sys.browsers
  {
    var b := sys.browsers[c];
    sys.(sent := sys.sent + {Msg(c, b.seal, attempt, b.ownerID, b.req)},
         browsers := sys.browsers[c := b.(status := Waiting(attempt))])
  }

  /** mintPour around the loop: a success whose body is not a record is a server failure. */
  function Ended(f: Client.Fetched, readable: bool): Status
  {
    match f
    case Failure(e) => GaveUp(e.code)
    case Success(reply) =>
      if readable && reply.body.Some? then Sealed(reply.body.value) else GaveUp(Client.Failed)
  }

  function AfterAttempt(b: Browser, o: Client.Outcome, readable: bool, retries: nat): Browser
    requires b.status.Waiting?
  {
    match Client.NextTurn(o, b.status.attempt, retries)
    case Retry => b.(status := Pausing(b.status.attempt + 1))
    case Done(f) => b.(status := Ended(f, readable))
  }

  /** The answer the server gives to a request, and the ledger it leaves. */
  function Serve(ledger: seq<Record>, m: Msg, limited: bool, storeFails: bool, now: Clock, s: Settings)
      : (seq<Record>, Server.Reply)
  {
    if limited then (ledger, Server.Refusal(429))
    else if storeFails then (ledger, Server.Refusal(500))
    else Server.Handle(ledger, Server.Arrival("", Some(m.ownerID), Some(m.req)), s.maxTierIndex, now, s.root)
  }

  function Apply(sys: System, e: Event, s: Settings): System
  {
    match e
    case NewPour(c, ownerID, req) =>
      if c !in sys.browsers then sys.(browsers := sys.browsers[c := Browser(ownerID, req, 0, Resting)])
      else if sys.browsers[c].status.InFlight() then sys
      else sys.(browsers := sys.browsers[c := sys.browsers[c].(req := req, status := Resting)])
    case Seal(c) =>
      if c !in sys.browsers || sys.browsers[c].status.InFlight() then sys
      else Sent(sys.(browsers := sys.browsers[c := sys.browsers[c].(seal := sys.browsers[c].seal + 1)]), c, 0)
    case Process(m, limited, storeFails, now) =>
      if m !in sys.sent then sys
      else
        var (ledger, reply) := Serve(sys.ledger, m, limited, storeFails, now, s);
        sys.(ledger := ledger, answers := sys.answers + {Answer(m, reply)})
    case Receive(c, a, readable) =>
      if c in sys.browsers && a in sys.answers && sys.browsers[c].status.Waiting? && Current(sys.browsers[c], c, a.msg) then
        sys.(browsers := sys.browsers[c := AfterAttempt(sys.browsers[c], Client.Answered(a.reply), readable, s.retries)])
      else sys
    case NoAnswer(c, timedOut) =>
      if c in sys.browsers && sys.browsers[c].status.Waiting? then
        var o := if timedOut then Client.TimedOut else Client.Unreachable;
        sys.(browsers := sys.browsers[c := AfterAttempt(sys.browsers[c], o, false, s.retries)])
      else sys
    case Resume(c) =>
      if c in sys.browsers && sys.browsers[c].status.Pausing? then Sent(sys, c, sys.browsers[c].status.attempt) else sys
  }

  /** Is this the request the browser is waiting on? */
  predicate Current(b: Browser, c: nat, m: Msg)
    requires b.status.Waiting?
  {
    m.client == c && m.seal == b.seal && m.attempt == b.status.attempt
  }

  const START: System := System([], map[], {}, {})

  function Run(events: seq<Event>, s: Settings): System
  {
    if events == [] then START else Apply(Run(events[..|events| - 1], s), events[|events| - 1], s)
  }

  // ---- what every state satisfies ----------------------------------------------------------

  /** The record is on the ledger, and it is this pour's. */
  predicate OnLedger(ledger: seq<Record>, rec: Record, ownerID: string, req: Request)
  {
    rec in ledger && StartOf(rec) == StartKey(ownerID, req.timestampMs) && rec.tierIndex == req.tierIndex
  }

  /** The ledger holds a record of another tier at this start. */
  predicate OtherTier(ledger: seq<Record>, ownerID: string, req: Request)
  {
    exists r :: r in ledger && StartOf(r) == StartKey(ownerID, req.timestampMs) && r.tierIndex != req.tierIndex
  }

  /** An answer tells the truth about the ledger. */
  predicate Truthful(ledger: seq<Record>, a: Answer)
  {
    && (Client.IsOk(a.reply.status) ==> a.reply.body.Some?)
    && (a.reply.body.Some? ==> OnLedger(ledger, a.reply.body.value, a.msg.ownerID, a.msg.req))
    && (a.reply.status == 409 ==> OtherTier(ledger, a.msg.ownerID, a.msg.req))
  }

  /** A request belongs to a browser, to one of its seals, and to one of the attempts it may make. */
  predicate Posted(browsers: map<nat, Browser>, m: Msg, retries: nat)
  {
    && m.client in browsers && m.ownerID == browsers[m.client].ownerID
    && m.attempt <= retries && m.seal <= browsers[m.client].seal
    && (m.seal == browsers[m.client].seal && browsers[m.client].status.InFlight() ==> m.req == browsers[m.client].req)
  }

  /** What a browser believes is true of the ledger. */
  predicate Justified(ledger: seq<Record>, b: Browser, retries: nat)
  {
    match b.status
    case Resting => true
    case Waiting(k) => k <= retries
    case Pausing(k) => k <= retries
    case Sealed(rec) => OnLedger(ledger, rec, b.ownerID, b.req)
    case GaveUp(code) => code == Client.Conflicting ==> OtherTier(ledger, b.ownerID, b.req)
  }

  predicate Safe(sys: System, s: Settings)
  {
    && Sound(sys.ledger)
    && (forall m :: m in sys.sent ==> Posted(sys.browsers, m, s.retries))
    && (forall m, n :: m in sys.sent && n in sys.sent && m.client == n.client && m.seal == n.seal ==> m.req == n.req)
    && (forall a :: a in sys.answers ==> a.msg in sys.sent && Truthful(sys.ledger, a))
    && (forall c :: c in sys.browsers ==> Justified(sys.ledger, sys.browsers[c], s.retries))
  }

  // ---- one event ---------------------------------------------------------------------------

  /** The server's answer is truthful, and the ledger only grows. */
  lemma ServeTruthful(ledger: seq<Record>, m: Msg, limited: bool, storeFails: bool, now: Clock, s: Settings)
    requires Sound(ledger)
    ensures var (after, reply) := Serve(ledger, m, limited, storeFails, now, s);
      Sound(after) && ledger <= after && Truthful(after, Answer(m, reply))
  {
    hide Sound, Append, Mint;
    var c := Call(m.req, m.ownerID, now);
    CallHonours(c, s.root);
    AppendKeeps(ledger, c.Key(), c.Minter(s.root));
    MintNeverConflicts(c, |ledger| + 1, s.root);
  }

  /** A validation failure is the only failure of Mint. */
  lemma MintNeverConflicts(c: Call, position: nat, root: Root)
    ensures c.Minter(root)(position) != Err(Conflict)
  {
  }

  lemma ProcessSafe(sys: System, e: Event, s: Settings)
    requires Safe(sys, s) && e.Process?
    ensures Safe(Apply(sys, e, s), s)
  {
    hide Sound, Serve, Truthful, OnLedger, OtherTier;
    if e.msg in sys.sent {
      var after := Apply(sys, e, s);
      ServeTruthful(sys.ledger, e.msg, e.limited, e.storeFails, e.now, s);
      forall a | a in sys.answers
        ensures Truthful(after.ledger, a)
      {
        TruthfulStays(sys.ledger, after.ledger, a);
      }
      forall c | c in sys.browsers
        ensures Justified(after.ledger, sys.browsers[c], s.retries)
      {
        JustifiedStays(sys.ledger, after.ledger, sys.browsers[c], s.retries);
      }
    }
  }

  lemma TruthfulStays(ledger: seq<Record>, after: seq<Record>, a: Answer)
    requires ledger <= after && Truthful(ledger, a)
    ensures Truthful(after, a)
  {
  }

  lemma JustifiedStays(ledger: seq<Record>, after: seq<Record>, b: Browser, retries: nat)
    requires ledger <= after && Justified(ledger, b, retries)
    ensures Justified(after, b, retries)
  {
  }

  /** The end of an attempt leaves the browser with a belief the answer backs. */
  lemma AttemptJustified(ledger: seq<Record>, b: Browser, c: nat, a: Answer, readable: bool, retries: nat)
    requires b.status.Waiting? && b.status.attempt <= retries && Truthful(ledger, a)
    requires a.msg.ownerID == b.ownerID && a.msg.req == b.req
    ensures Justified(ledger, AfterAttempt(b, Client.Answered(a.reply), readable, retries), retries)
  {
    hide OnLedger, OtherTier;
  }

  lemma ReceiveSafe(sys: System, e: Event, s: Settings)
    requires Safe(sys, s) && e.Receive?
    ensures Safe(Apply(sys, e, s), s)
  {
    hide Sound, Truthful, AfterAttempt, OnLedger, OtherTier;
    if Apply(sys, e, s) != sys {
      var b := sys.browsers[e.c];
      assert Posted(sys.browsers, e.answer.msg, s.retries);
      AttemptJustified(sys.ledger, b, e.c, e.answer, e.readable, s.retries);
      AttemptKeepsIdentity(b, Client.Answered(e.answer.reply), e.readable, s.retries);
      BrowserReplaced(sys, e.c, AfterAttempt(b, Client.Answered(e.answer.reply), e.readable, s.retries), s);
    }
  }

  lemma AttemptKeepsIdentity(b: Browser, o: Client.Outcome, readable: bool, retries: nat)
    requires b.status.Waiting?
    ensures var d := AfterAttempt(b, o, readable, retries);
      d.ownerID == b.ownerID && d.req == b.req && d.seal == b.seal
  {
  }

  /** A browser that keeps its cookie, its seal and (while in flight) its pour can change its belief. */
  lemma BrowserReplaced(sys: System, c: nat, d: Browser, s: Settings)
    requires Safe(sys, s) && c in sys.browsers && Justified(sys.ledger, d, s.retries)
    requires d.ownerID == sys.browsers[c].ownerID && d.seal == sys.browsers[c].seal
    requires d.status.InFlight() ==> sys.browsers[c].status.InFlight() && d.req == sys.browsers[c].req
    ensures Safe(sys.(browsers := sys.browsers[c := d]), s)
  {
    hide Sound, Truthful, Justified;
    var after := sys.browsers[c := d];
    forall m | m in sys.sent
      ensures Posted(after, m, s.retries)
    {
      assert Posted(sys.browsers, m, s.retries);
    }
  }

  lemma NoAnswerSafe(sys: System, e: Event, s: Settings)
    requires Safe(sys, s) && e.NoAnswer?
    ensures Safe(Apply(sys, e, s), s)
  {
    hide Sound, Truthful, OnLedger, OtherTier, Posted;
    if e.c in sys.browsers && sys.browsers[e.c].status.Waiting? {
      var b, o := sys.browsers[e.c], if e.timedOut then Client.TimedOut else Client.Unreachable;
      assert Justified(sys.ledger, b, s.retries);
      BrowserReplaced(sys, e.c, AfterAttempt(b, o, false, s.retries), s);
    }
  }

  lemma NewPourSafe(sys: System, e: Event, s: Settings)
    requires Safe(sys, s) && e.NewPour?
    ensures Safe(Apply(sys, e, s), s)
  {
    hide Sound, Truthful, OnLedger, OtherTier;
    if e.c !in sys.browsers {
      var after := Apply(sys, e, s);
      forall m | m in sys.sent
        ensures Posted(after.browsers, m, s.retries)
      {
        assert Posted(sys.browsers, m, s.retries);
      }
    } else if !sys.browsers[e.c].status.InFlight() {
      BrowserReplaced(sys, e.c, sys.browsers[e.c].(req := e.req, status := Resting), s);
    }
  }

  /** Posting an attempt of the current seal. */
  lemma SentSafe(sys: System, c: nat, attempt: nat, s: Settings)
    requires Safe(sys, s) && c in sys.browsers && attempt <= s.retries
    requires forall m :: m in sys.sent && m.client == c && m.seal == sys.browsers[c].seal ==> m.req == sys.browsers[c].req
    ensures Safe(Sent(sys, c, attempt), s)
  {
    hide Sound, Truthful, OnLedger, OtherTier;
    var after := Sent(sys, c, attempt);
    forall m | m in after.sent
      ensures Posted(after.browsers, m, s.retries)
    {
      if m in sys.sent {
        assert Posted(sys.browsers, m, s.retries);
      }
    }
  }

  lemma SealSafe(sys: System, e: Event, s: Settings)
    requires Safe(sys, s) && e.Seal?
    ensures Safe(Apply(sys, e, s), s)
  {
    hide Sound, Truthful, OnLedger, OtherTier;
    if e.c in sys.browsers && !sys.browsers[e.c].status.InFlight() {
      var b := sys.browsers[e.c];
      var t := sys.(browsers := sys.browsers[e.c := b.(seal := b.seal + 1)]);
      forall m | m in sys.sent
        ensures Posted(t.browsers, m, s.retries)
        ensures m.client == e.c ==> m.seal < b.seal + 1
      {
        assert Posted(sys.browsers, m, s.retries);
      }
      assert Justified(sys.ledger, b, s.retries);
      assert Safe(t, s);
      SentSafe(t, e.c, 0, s);
    }
  }

  lemma ResumeSafe(sys: System, e: Event, s: Settings)
    requires Safe(sys, s) && e.Resume?
    ensures Safe(Apply(sys, e, s), s)
  {
    hide Sound, Truthful, OnLedger, OtherTier;
    if e.c in sys.browsers && sys.browsers[e.c].status.Pausing? {
      assert Justified(sys.ledger, sys.browsers[e.c], s.retries);
      forall m | m in sys.sent && m.client == e.c && m.seal == sys.browsers[e.c].seal
        ensures m.req == sys.browsers[e.c].req
      {
        assert Posted(sys.browsers, m, s.retries);
      }
      SentSafe(sys, e.c, sys.browsers[e.c].status.attempt, s);
    }
  }

  lemma EventSafe(sys: System, e: Event, s: Settings)
    requires Safe(sys, s)
    ensures Safe(Apply(sys, e, s), s)
  {
    hide Safe, Apply;
    match e
    case NewPour(_, _, _) => NewPourSafe(sys, e, s);
    case Seal(_) => SealSafe(sys, e, s);
    case Process(_, _, _, _) => ProcessSafe(sys, e, s);
    case Receive(_, _, _) => ReceiveSafe(sys, e, s);
    case NoAnswer(_, _) => NoAnswerSafe(sys, e, s);
    case Resume(_) => ResumeSafe(sys, e, s);
  }

  lemma {:induction false} RunSafe(events: seq<Event>, s: Settings)
    ensures Safe(Run(events, s), s)
  {
    hide Apply;
    if events == [] {
      hide Truthful, Posted, Justified;
    } else {
      RunSafe(events[..|events| - 1], s);
      EventSafe(Run(events[..|events| - 1], s), events[|events| - 1], s);
    }
  }

  // ---- exactly once ------------------------------------------------------------------------

  /** A ledger position holds at most one record of a start. */
  lemma OneRecordPerStart(ledger: seq<Record>, a: Record, b: Record)
    requires Sound(ledger) && a in ledger && b in ledger && StartOf(a) == StartOf(b)
    ensures a == b
  {
  }

  /**
   * Exactly-once minting. In every state the whole system can reach, for one owner and pour-start: the
   * ledger has at most one record of it; every success answer ever given for it carries that record; a
   * browser that reports success holds that record; and a reported conflict means that a record of
   * another tier is there.
   */
  lemma ExactlyOnce(events: seq<Event>, s: Settings)
    ensures var sys := Run(events, s);
      && (forall a, b :: a in sys.ledger && b in sys.ledger && StartOf(a) == StartOf(b) ==> a == b)
      && (forall x, r ::
            (x in sys.answers && x.reply.body.Some? && r in sys.ledger
             && StartOf(r) == StartKey(x.msg.ownerID, x.msg.req.timestampMs))
            ==> x.reply.body.value == r)
      && (forall x :: x in sys.answers && x.reply.body.Some? ==>
            OnLedger(sys.ledger, x.reply.body.value, x.msg.ownerID, x.msg.req))
      && (forall c :: c in sys.browsers && sys.browsers[c].status.Sealed? ==>
            OnLedger(sys.ledger, sys.browsers[c].status.rec, sys.browsers[c].ownerID, sys.browsers[c].req))
      && (forall c :: c in sys.browsers && sys.browsers[c].status == GaveUp(Client.Conflicting) ==>
            OtherTier(sys.ledger, sys.browsers[c].ownerID, sys.browsers[c].req))
  {
    hide Run, Sound;
    var sys := Run(events, s);
    RunSafe(events, s);
    forall a, b | a in sys.ledger && b in sys.ledger && StartOf(a) == StartOf(b)
      ensures a == b
    {
      OneRecordPerStart(sys.ledger, a, b);
    }
    forall x | x in sys.answers && x.reply.body.Some?
      ensures OnLedger(sys.ledger, x.reply.body.value, x.msg.ownerID, x.msg.req)
    {
      assert Truthful(sys.ledger, x);
    }
    forall c | c in sys.browsers
      ensures Justified(sys.ledger, sys.browsers[c], s.retries)
    {
    }
  }

  /** The requests one seal has put on the wire. */
  function SealRequests(sys: System, c: nat, seal: nat): set<Msg>
  {
    set m | m in sys.sent && m.client == c && m.seal == seal
  }

  lemma {:induction false} FewAttempts(msgs: set<Msg>, n: nat)
    requires forall m :: m in msgs ==> m.attempt < n
    requires forall m, k :: m in msgs && k in msgs && m.attempt == k.attempt ==> m == k
    ensures |msgs| <= n
  {
    if n == 0 {
      assert forall m :: m !in msgs;
    } else {
      var top := set m | m in msgs && m.attempt == n - 1;
      if top == {} {
        forall m | m in msgs
          ensures m.attempt < n - 1
        {
          assert m !in top;
        }
        FewAttempts(msgs, n - 1);
      } else {
        var m :| m in top;
        FewAttempts(msgs - {m}, n - 1);
        assert msgs == (msgs - {m}) + {m};
      }
    }
  }

  /** One seal never puts more than retries + 1 requests on the wire. */
  lemma AttemptsBounded(events: seq<Event>, s: Settings, c: nat, seal: nat)
    ensures |SealRequests(Run(events, s), c, seal)| <= s.retries + 1
  {
    hide Run, Sound, Truthful, Justified;
    RunSafe(events, s);
    var sys := Run(events, s);
    var msgs := SealRequests(sys, c, seal);
    forall m | m in msgs
      ensures m.attempt < s.retries + 1
      ensures m.ownerID == sys.browsers[c].ownerID
    {
      assert Posted(sys.browsers, m, s.retries);
    }
    FewAttempts(msgs, s.retries + 1);
  }

  /**
   * A pour that is on the ledger can always be recovered: whatever happened to earlier answers, the next
   * request for it that the server serves is answered 200 with the record, and changes nothing.
   */
  lemma ResealRecovers(events: seq<Event>, s: Settings, m: Msg, rec: Record, now: Clock)
    requires OnLedger(Run(events, s).ledger, rec, m.ownerID, m.req) && m.req.tierIndex <= s.maxTierIndex
    ensures Serve(Run(events, s).ledger, m, false, false, now, s) ==
      (Run(events, s).ledger, Server.Reply(200, Some(rec), None))
  {
    hide Run, Mint, Sound;
    RunSafe(events, s);
    var ledger := Run(events, s).ledger;
    SafeSound(Run(events, s), s);
    var i :| 0 <= i < |ledger| && ledger[i] == rec;
    IndexUnique(ledger, i);
  }

  lemma SafeSound(sys: System, s: Settings)
    requires Safe(sys, s)
    ensures Sound(sys.ledger)
  {
  }

  // ---- a seal gets through -----------------------------------------------------------------

  /** A pour the server will take now: an available tier, a start near the clock, and nothing else at its start. */
  predicate Mintable(sys: System, b: Browser, now: Clock, s: Settings)
  {
    && 0 <= b.req.tierIndex <= 5 && b.req.tierIndex <= s.maxTierIndex
    && -300000 <= now.ms - b.req.timestampMs <= 300000
    && !OtherTier(sys.ledger, b.ownerID, b.req)
  }

  /** The request of attempt k of a browser's current seal. */
  function Attempt(sys: System, c: nat, k: nat): Msg
    requires c in sys.browsers
  {
    Msg(c, sys.browsers[c].seal, k, sys.browsers[c].ownerID, sys.browsers[c].req)
  }

  /** The state after the server has served a request, and its answer. */
  function Served(sys: System, m: Msg, now: Clock, s: Settings): (System, Answer)
  {
    (Apply(sys, Process(m, false, false, now), s), Answer(m, Serve(sys.ledger, m, false, false, now, s).1))
  }

  /** A request for a mintable pour is answered with its record, which is then on the ledger. */
  lemma ServeMints(sys: System, m: Msg, b: Browser, now: Clock, s: Settings)
    requires Safe(sys, s) && Mintable(sys, b, now, s) && m.ownerID == b.ownerID && m.req == b.req
    ensures var (after, reply) := Serve(sys.ledger, m, false, false, now, s);
      && reply.body.Some? && (reply.status == 200 || reply.status == 201)
      && OnLedger(after, reply.body.value, b.ownerID, b.req)
      && sys.ledger <= after && |after| <= |sys.ledger| + 1
  {
    hide Sound, Append, Mint, Safe;
    SafeSound(sys, s);
    var c := Call(m.req, m.ownerID, now);
    CallHonours(c, s.root);
    AppendKeeps(sys.ledger, c.Key(), c.Minter(s.root));
    AppendAnswers(sys.ledger, c.Key(), c.Minter(s.root));
    MintAcceptsExactly(c.req, |sys.ledger| + 1, c.ownerID, now, s.root);
  }

  /** Seal, served, answered: the browser holds its record, and the record is on the ledger. */
  lemma SealDelivers(sys: System, c: nat, now: Clock, s: Settings)
    requires Safe(sys, s) && c in sys.browsers && !sys.browsers[c].status.InFlight()
    requires Mintable(sys, sys.browsers[c], now, s)
    ensures var sys1 := Apply(sys, Seal(c), s);
      c in sys1.browsers &&
      var (sys2, a) := Served(sys1, Attempt(sys1, c, 0), now, s);
      var sys3 := Apply(sys2, Receive(c, a, true), s);
      && c in sys3.browsers && sys3.browsers[c].status.Sealed?
      && OnLedger(sys3.ledger, sys3.browsers[c].status.rec, sys3.browsers[c].ownerID, sys3.browsers[c].req)
  {
    hide Sound, Serve, OnLedger, Mintable, OtherTier, Safe;
    var sys1 := Apply(sys, Seal(c), s);
    SealSafe(sys, Seal(c), s);
    MintableKept(sys, sys1, sys.browsers[c], sys1.browsers[c], now, s);
    ServeMints(sys1, Attempt(sys1, c, 0), sys1.browsers[c], now, s);
  }

  lemma MintableKept(sys: System, after: System, b: Browser, d: Browser, now: Clock, s: Settings)
    requires Mintable(sys, b, now, s) && after.ledger == sys.ledger && d.ownerID == b.ownerID && d.req == b.req
    ensures Mintable(after, d, now, s)
  {
  }

  /** A waiting browser whose answer is lost tries again, and a retry that is served delivers the one record. */
  lemma LostAnswerRecovered(sys: System, c: nat, rec: Record, now: Clock, s: Settings)
    requires Safe(sys, s) && c in sys.browsers && sys.browsers[c].status.Waiting?
    requires sys.browsers[c].status.attempt < s.retries && sys.browsers[c].req.tierIndex <= s.maxTierIndex
    requires OnLedger(sys.ledger, rec, sys.browsers[c].ownerID, sys.browsers[c].req)
    ensures var k := sys.browsers[c].status.attempt + 1;
      var sys1 := Apply(Apply(sys, NoAnswer(c, true), s), Resume(c), s);
      c in sys1.browsers && sys1.browsers[c].status == Waiting(k) &&
      var (sys2, a) := Served(sys1, Attempt(sys1, c, k), now, s);
      var sys3 := Apply(sys2, Receive(c, a, true), s);
      && sys3.ledger == sys.ledger
      && c in sys3.browsers && sys3.browsers[c].status == Sealed(rec)
  {
    hide Sound, Serve, OnLedger, Safe;
    var sys1 := Apply(Apply(sys, NoAnswer(c, true), s), Resume(c), s);
    ServeReplays(sys, Attempt(sys1, c, sys.browsers[c].status.attempt + 1), rec, now, s);
  }

  lemma ServeReplays(sys: System, m: Msg, rec: Record, now: Clock, s: Settings)
    requires Safe(sys, s) && OnLedger(sys.ledger, rec, m.ownerID, m.req) && m.req.tierIndex <= s.maxTierIndex
    ensures Serve(sys.ledger, m, false, false, now, s) == (sys.ledger, Server.Reply(200, Some(rec), None))
  {
    hide Sound, Append, Mint, Safe;
    SafeSound(sys, s);
    var c := Call(m.req, m.ownerID, now);
    AppendAnswers(sys.ledger, c.Key(), c.Minter(s.root));
  }

  // ---- what each event may touch -----------------------------------------------------------

  /** The browser an event is about; the server's events are about none. */
  function Actor(e: Event): Option<nat>
  {
    match e
    case NewPour(c, _, _) => Some(c)
    case Seal(c) => Some(c)
    case Process(_, _, _, _) => None
    case Receive(c, _, _) => Some(c)
    case NoAnswer(c, _) => Some(c)
    case Resume(c) => Some(c)
  }

  /**
   * Only the server's events touch the ledger and the answers, and they touch nothing else; a browser's
   * event changes that browser alone and never its cookie, and only a seal or the end of a backoff posts,
   * each at most one request.
   */
  lemma EventFrame(sys: System, e: Event, s: Settings)
    ensures var after := Apply(sys, e, s);
      && sys.sent <= after.sent && sys.answers <= after.answers && sys.browsers.Keys <= after.browsers.Keys
      && (e.Process? ==> after.browsers == sys.browsers && after.sent == sys.sent)
      && (!e.Process? ==> after.ledger == sys.ledger && after.answers == sys.answers)
      && (forall c :: c in sys.browsers ==> after.browsers[c].ownerID == sys.browsers[c].ownerID)
      && (forall c :: c in sys.browsers && Actor(e) != Some(c) ==> after.browsers[c] == sys.browsers[c])
      && (after.sent != sys.sent ==>
            (e.Seal? || e.Resume?) && exists m :: m !in sys.sent && after.sent == sys.sent + {m})
  {
    hide Serve, AfterAttempt;
    match e
    case Receive(c, a, readable) =>
      if c in sys.browsers && sys.browsers[c].status.Waiting? {
        AttemptKeepsIdentity(sys.browsers[c], Client.Answered(a.reply), readable, s.retries);
      }
    case NoAnswer(c, timedOut) =>
      if c in sys.browsers && sys.browsers[c].status.Waiting? {
        AttemptKeepsIdentity(sys.browsers[c], if timedOut then Client.TimedOut else Client.Unreachable, false, s.retries);
      }
    case Seal(c) =>
      if Apply(sys, e, s) != sys {
        var b := sys.browsers[c];
        OnePosted(sys.sent, Msg(c, b.seal + 1, 0, b.ownerID, b.req));
      }
    case Resume(c) =>
      if Apply(sys, e, s) != sys {
        var b := sys.browsers[c];
        OnePosted(sys.sent, Msg(c, b.seal, b.status.attempt, b.ownerID, b.req));
      }
    case NewPour(c, ownerID, req) =>
    case Process(m, limited, storeFails, now) =>
  }

  lemma OnePosted(sent: set<Msg>, m: Msg)
    ensures sent + {m} != sent ==> exists n :: n !in sent && sent + {m} == sent + {n}
  {
    if m in sent {
      assert sent + {m} == sent;
    }
  }

  /** While a seal is in flight its browser can neither seal again nor start another pour. */
  lemma InFlightLocked(sys: System, e: Event, c: nat, s: Settings)
    requires c in sys.browsers && (sys.browsers[c].status.Waiting? || sys.browsers[c].status.Pausing?)
    requires Actor(e) == Some(c) && (e.Seal? || e.NewPour?)
    ensures Apply(sys, e, s) == sys
  {
  }

  /** A new seal posts the browser's own pour once, under a number no earlier request of it carries. */
  lemma SealPosts(events: seq<Event>, c: nat, s: Settings)
    ensures var sys, after := Run(events, s), Apply(Run(events, s), Seal(c), s);
      c in sys.browsers && !sys.browsers[c].status.InFlight() ==>
        var b := sys.browsers[c];
        && c in after.browsers && after.browsers[c].status == Waiting(0) && after.browsers[c].req == b.req
        && exists m :: m !in sys.sent && after.sent == sys.sent + {m} && m.client == c && m.attempt == 0
             && m.ownerID == b.ownerID && m.req == b.req && m.seal == after.browsers[c].seal
             && (forall n :: n in sys.sent && n.client == c ==> n.seal < m.seal)
  {
    hide Run;
    RunSafe(events, s);
    var sys, after := Run(events, s), Apply(Run(events, s), Seal(c), s);
    if c in sys.browsers && !sys.browsers[c].status.InFlight() {
      var b := sys.browsers[c];
      var m := Msg(c, b.seal + 1, 0, b.ownerID, b.req);
      SealsSoFar(sys, c, s);
      assert m !in sys.sent && after.sent == sys.sent + {m};
    }
  }

  lemma SealsSoFar(sys: System, c: nat, s: Settings)
    requires Safe(sys, s) && c in sys.browsers
    ensures forall n :: n in sys.sent && n.client == c ==> n.seal <= sys.browsers[c].seal
  {
    hide Sound, Truthful, Justified;
    forall n | n in sys.sent && n.client == c
      ensures n.seal <= sys.browsers[c].seal
    {
      assert Posted(sys.browsers, n, s.retries);
    }
  }

  /** An answer to another browser, an earlier seal or an earlier attempt is not heard. */
  lemma StaleUnheard(sys: System, c: nat, a: Answer, readable: bool, s: Settings)
    requires c in sys.browsers && sys.browsers[c].status.Waiting?
    requires a.msg.client != c || a.msg.seal != sys.browsers[c].seal || a.msg.attempt != sys.browsers[c].status.attempt
    ensures Apply(sys, Receive(c, a, readable), s) == sys
  {
  }

  /** What the end of an attempt leaves behind, status by status. */
  lemma AttemptEnds(b: Browser, o: Client.Outcome, readable: bool, retries: nat)
    requires b.status.Waiting?
    ensures var k, d := b.status.attempt, AfterAttempt(b, o, readable, retries);
      && d == b.(status := d.status)
      && (o.TimedOut? ==> d.status == if k < retries then Pausing(k + 1) else GaveUp(Client.Timeout))
      && (o.Unreachable? ==> d.status == if k < retries then Pausing(k + 1) else GaveUp(Client.Network))
      && (o.Answered? ==>
            var reply := o.reply;
            if 200 <= reply.status < 300 then
              d.status == if readable && reply.body.Some? then Sealed(reply.body.value) else GaveUp(Client.Failed)
            else if reply.status >= 500 then
              d.status == if k < retries then Pausing(k + 1) else GaveUp(Client.Failed)
            else if reply.status == 409 then d.status == GaveUp(Client.Conflicting)
            else d.status == GaveUp(Client.Refused))
  {
  }
}
