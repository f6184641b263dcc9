/**
 Any number of clients synchronizing one account with a server, as a state machine.

 Each call to the server is one atomic step.  Between the calls of one synchronization other clients may run, but
 the client itself does nothing else.  Newly generated ids are ids that were never used before.
 */
module Protocol {
  import opened Model
  import opened Store
  import opened Chain
  import opened Sync
  import opened Convergence
  import opened Crash

  type ClientId = nat

  // Where a client is within a synchronization.
  datatype Phase =
    | Idle
    | Fetching // the server has transactions the client has not synchronized
    | Pushing  // the client is ready to send its own transactions
    | Sent     // the server has accepted them and answered

  // The other fields only serve to state properties: `created` records the payloads entered on this client, in order,
  // `lost` that it never learned of an accepted push, and `stopped` that it stopped after having stored something of
  // what it pulled, but not the account.
  datatype Client = Client(replica: Replica, phase: Phase, created: seq<Transaction>, lost: bool, stopped: bool)

  // `chain` is the server's chain and `owners` tells which client sent each of its transactions; both, like `used`,
  // the ids generated so far, only serve to state properties.
  datatype State = State(
    server: Replica,
    clients: map<ClientId, Client>,
    chain: seq<Transaction>,
    owners: seq<ClientId>,
    used: set<Id>)

  datatype Step =
    | Create(c: ClientId, tx: Transaction)
    | Begin(c: ClientId)
    | Fetch(c: ClientId, newId: nat -> Id)
    | Stop(c: ClientId, newId: nat -> Id, k: nat) // a pull stops after the first k of its writes
    | Push(c: ClientId)
    | Record(c: ClientId)
    | Forget(c: ClientId)  // the answer to a push is lost, or the client stops before it has recorded it
    | Abandon(c: ClientId) // a call fails before the server has done anything, or the client stops before a call

  function Times(c: ClientId, n: nat): seq<ClientId> { seq(n, i => c) }

  // A new transaction on top of the stored latest one.
  function Appended(r: Replica, tx: Transaction): Replica {
    Replica(r.account.(latestTransaction := tx.uuid), r.log[tx.uuid := tx])
  }

  ghost predicate Init(s: State) {
    && s.server.log == map[] && s.server.account.latestTransaction == []
    && s.chain == [] && s.owners == [] && s.used == {}
    && (forall c :: c in s.clients ==> Blank(s.clients[c]))
  }

  // A client that has just been set up or is about to clone the account.
  ghost predicate Blank(client: Client) {
    && client.replica.log == map[] && client.phase == Idle && client.created == [] && !client.lost && !client.stopped
    && client.replica.account.latestTransaction == []
    && client.replica.account.latestSynchronizedTransaction == []
  }

  ghost predicate Enabled(s: State, step: Step) {
    && step.c in s.clients
    && var client := s.clients[step.c];
    match step
    case Create(_, tx) =>
      client.phase == Idle && tx.uuid !in s.used && tx.uuid != []
      && tx.parent == client.replica.account.latestTransaction
    case Begin(_) => client.phase == Idle
    case Fetch(_, newId) =>
      && client.phase == Fetching && FreshSupply(newId, s.used)
      && FetchEnds(client.replica, s.server)
    case Stop(_, newId, k) =>
      && client.phase == Fetching && FreshSupply(newId, s.used)
      && FetchEnds(client.replica, s.server)
      && var pulled := Fetched(client.replica, s.server, newId);
      pulled.Ok? && k <= |pulled.value.writes|
    case Push(_) => client.phase == Pushing && LocalWalkable(client.replica)
    case Record(_) => client.phase == Sent
    case Forget(_) => client.phase == Sent
    case Abandon(_) => client.phase == Fetching || client.phase == Pushing
  }

  // The walks of both sides end.
  ghost predicate FetchEnds(local: Replica, server: Replica) {
    && ChildrenEnd(server, local.account.latestSynchronizedTransaction)
    && LocalWalkable(local)
  }

  // What a client makes of the server's answer; nothing changes when there is an error.
  ghost function Fetched(local: Replica, server: Replica, newId: nat -> Id): Result<Pulled>
    requires FetchEnds(local, server)
  {
    var remote :- Children(server, local.account.latestSynchronizedTransaction);
    Rebase(local, remote, newId)
  }

  // The client's replica and phase after a step that leaves the server alone.
  function Moved(s: State, c: ClientId, replica: Replica, phase: Phase): State
    requires c in s.clients
  {
    s.(clients := s.clients[c := s.clients[c].(replica := replica, phase := phase)])
  }

  function AfterCreate(s: State, c: ClientId, tx: Transaction): State
    requires c in s.clients
  {
    var client := s.clients[c];
    s.(clients := s.clients[c := client.(replica := Appended(client.replica, tx),
                                         created := client.created + [tx.Payload()])],
       used := s.used + {tx.uuid})
  }

  function AfterBegin(s: State, c: ClientId): State
    requires c in s.clients
  {
    var r := s.clients[c].replica;
    Moved(s, c, r, if r.account.latestSynchronizedTransaction == s.server.account.latestTransaction then Pushing
                   else Fetching)
  }

  ghost function AfterFetch(s: State, c: ClientId, newId: nat -> Id): State
    requires c in s.clients && FetchEnds(s.clients[c].replica, s.server)
  {
    var r := s.clients[c].replica;
    match Fetched(r, s.server, newId)
    case Err(_) => Moved(s, c, r, Idle)
    case Ok(pulled) => AfterWrites(s, c, pulled.writes, Pushing)
  }

  ghost function AfterWrites(s: State, c: ClientId, writes: seq<Write>, phase: Phase): State
    requires c in s.clients
  {
    var after := DoReplicaAll(s.clients[c].replica, writes);
    Moved(s, c, after, phase).(used := s.used + after.log.Keys)
  }

  // The first k writes of the pull stored something, but not yet the account.
  predicate Partial(pulled: Pulled, k: nat)
    requires k <= |pulled.writes|
  {
    0 < k && PutAccount(pulled.account) !in pulled.writes[..k]
  }

  ghost function AfterStop(s: State, c: ClientId, newId: nat -> Id, k: nat): State
    requires Enabled(s, Stop(c, newId, k))
  {
    var pulled := Fetched(s.clients[c].replica, s.server, newId).value;
    var t := AfterWrites(s, c, pulled.writes[..k], Idle);
    if Partial(pulled, k) then Marked(t, c, t.clients[c].(stopped := true)) else t
  }

  function Marked(s: State, c: ClientId, client: Client): State { s.(clients := s.clients[c := client]) }

  ghost function AfterPush(s: State, c: ClientId): State
    requires c in s.clients && LocalWalkable(s.clients[c].replica)
  {
    var r := s.clients[c].replica;
    var own := Unsynchronized(r);
    if own.Err? || own.value == [] || Receive(s.server, own.value).Err? then Moved(s, c, r, Idle)
    else
      Moved(s, c, r, Sent).(
        server := DoReplicaAll(s.server, Receive(s.server, own.value).value),
        chain := s.chain + own.value,
        owners := s.owners + Times(c, |own.value|))
  }

  ghost function Next(s: State, step: Step): State
    requires Enabled(s, step)
  {
    match step
    case Create(c, tx) => AfterCreate(s, c, tx)
    case Begin(c) => AfterBegin(s, c)
    case Fetch(c, newId) => AfterFetch(s, c, newId)
    case Stop(c, newId, k) => AfterStop(s, c, newId, k)
    case Push(c) => AfterPush(s, c)
    case Record(c) => Moved(s, c, Acknowledged(s.clients[c].replica), Idle)
    case Forget(c) => Marked(s, c, s.clients[c].(phase := Idle, lost := true))
    case Abandon(c) => Moved(s, c, s.clients[c].replica, Idle)
  }

  // ---------- The invariant ----------

  // The payloads of the transactions client c sent, in chain order.
  function SentBy(chain: seq<Transaction>, owners: seq<ClientId>, c: ClientId): seq<Transaction>
    requires |chain| == |owners|
  {
    if chain == [] then [] else
      SentBy(Front(chain), Front(owners), c) + if Last(owners) == c then [Last(chain).Payload()] else []
  }

  // The client has synchronized the first n transactions of the server and has its own ones on top of them.  Of the
  // server's next transactions it has stored the first `known`; the first `landed` of those are its own.
  datatype Position = Position(n: nat, own: seq<Transaction>, landed: nat, known: nat) {
    function Pending(): seq<Transaction>
      requires landed <= |own|
    {
      own[landed..]
    }
  }

  ghost predicate ServerOk(s: State) {
    && Complete(s.server.log, s.server.account.latestTransaction, s.chain)
    && s.server.log.Keys == Ids(s.chain) && Ids(s.chain) <= s.used
    && |s.owners| == |s.chain| && [] !in s.used
    && (forall i :: 0 <= i < |s.owners| ==> s.owners[i] in s.clients)
  }

  ghost predicate PhaseOk(client: Client, p: Position, length: nat) {
    && (client.phase == Fetching ==> p.n < length)
    && (client.phase == Sent ==> 0 < p.landed == |p.own|)
    && (p.landed > 0 <==> client.phase == Sent || client.lost)
    && (p.known > p.landed <==> client.stopped)
    && (client.lost || client.stopped ==> client.phase == Idle || client.phase == Fetching)
  }

  // Where a replica stands with respect to the server's chain.
  ghost predicate PlaceOk(chain: seq<Transaction>, r: Replica, p: Position) {
    && p.landed <= |p.own| && p.landed <= p.known && p.n + p.known <= |chain|
    && (p.landed > 0 ==> p.known == p.landed)
    && Stands(r, p, chain[..p.n], chain[p.n..p.n + p.landed], chain[p.n..p.n + p.known],
              Ids(chain[p.n + p.known..]), Ids(chain))
  }

  ghost predicate Stands(r: Replica, p: Position, prefix: seq<Transaction>, landed: seq<Transaction>,
                         known: seq<Transaction>, unknown: set<Id>, all: set<Id>)
    requires p.landed <= |p.own|
  {
    && Holds(r, prefix, p.own) && landed == p.own[..p.landed]
    && Ids(known) <= r.log.Keys && unknown !! r.log.Keys && Ids(p.Pending()) !! all
  }

  // Nothing entered on the client is lost, repeated or reordered.
  ghost predicate Accounted(s: State, c: ClientId, p: Position)
    requires c in s.clients && p.landed <= |p.own| && |s.owners| == |s.chain|
  {
    SentBy(s.chain, s.owners, c) + Payloads(p.Pending()) == s.clients[c].created
  }

  // No other client knows the transactions that client c has not sent.
  ghost predicate Private(s: State, c: ClientId, p: Position)
    requires p.landed <= |p.own|
  {
    forall d :: d in s.clients && d != c ==> Ids(p.Pending()) !! s.clients[d].replica.log.Keys
  }

  ghost predicate ClientOk(s: State, c: ClientId, p: Position)
    requires c in s.clients && |s.owners| == |s.chain|
  {
    && PlaceOk(s.chain, s.clients[c].replica, p)
    && s.clients[c].replica.log.Keys <= s.used
    && PhaseOk(s.clients[c], p, |s.chain|)
    && Accounted(s, c, p)
    && Private(s, c, p)
  }

  ghost predicate Inv(s: State) {
    && ServerOk(s)
    && (forall c :: c in s.clients ==> exists p :: ClientOk(s, c, p))
  }

  lemma InitInv(s: State)
    requires Init(s)
    ensures Inv(s)
  {
    forall c | c in s.clients
      ensures exists p :: ClientOk(s, c, p)
    {
      NoIds();
      assert ClientOk(s, c, Position(0, [], 0, 0));
    }
  }

  // ---------- Every step keeps it ----------

  lemma PendingKnown(chain: seq<Transaction>, r: Replica, p: Position)
    requires PlaceOk(chain, r, p)
    ensures Ids(p.Pending()) <= r.log.Keys && Ids(p.Pending()) !! Ids(chain)
  {
    hide Ids, Holds, Fresh, Segment;
    HoldsOwn(r, chain[..p.n], p.own);
    assert p.own == p.own[..p.landed] + p.Pending();
    IdsConcat(p.own[..p.landed], p.Pending());
  }

  lemma PlaceHolds(chain: seq<Transaction>, r: Replica, p: Position)
    requires PlaceOk(chain, r, p)
    ensures p.n <= |chain| && Holds(r, chain[..p.n], p.own)
  {
    hide Holds, Ids;
  }

  lemma BoundsOk(chain: seq<Transaction>, r: Replica, p: Position)
    requires PlaceOk(chain, r, p)
    ensures p.landed <= |p.own| && p.landed <= p.known && p.n + p.known <= |chain|
    ensures p.landed > 0 ==> p.known == p.landed
  {}

  // The server's chain grows by transactions the replica does not know.
  lemma PlaceGrows(chain: seq<Transaction>, sent: seq<Transaction>, r: Replica, p: Position)
    requires PlaceOk(chain, r, p) && Ids(sent) !! r.log.Keys
    ensures PlaceOk(chain + sent, r, p)
  {
    hide Holds, Ids, PlaceOk, Stands, Position.Pending;
    BoundsOk(chain, r, p);
    PendingKnown(chain, r, p);
    PartsGrow(chain, sent, p.n, p.n + p.landed);
    PartsGrow(chain, sent, p.n, p.n + p.known);
    IdsConcat(chain[p.n + p.known..], sent);
    IdsConcat(chain, sent);
    PlaceUnfolds(chain, r, p);
    StandsMore(r, p, chain[..p.n], chain[p.n..p.n + p.landed], chain[p.n..p.n + p.known],
               Ids(chain[p.n + p.known..]), Ids(chain), Ids(sent));
    PlaceFolds(chain + sent, r, p);
  }

  lemma PlaceUnfolds(chain: seq<Transaction>, r: Replica, p: Position)
    requires PlaceOk(chain, r, p)
    ensures p.landed <= |p.own| && p.landed <= p.known && p.n + p.known <= |chain|
    ensures Stands(r, p, chain[..p.n], chain[p.n..p.n + p.landed], chain[p.n..p.n + p.known],
                   Ids(chain[p.n + p.known..]), Ids(chain))
  {
    hide Stands, Ids;
  }

  lemma PlaceFolds(chain: seq<Transaction>, r: Replica, p: Position)
    requires p.landed <= |p.own| && p.landed <= p.known && p.n + p.known <= |chain|
    requires p.landed > 0 ==> p.known == p.landed
    requires Stands(r, p, chain[..p.n], chain[p.n..p.n + p.landed], chain[p.n..p.n + p.known],
                    Ids(chain[p.n + p.known..]), Ids(chain))
    ensures PlaceOk(chain, r, p)
  {
    hide Stands, Ids;
  }

  lemma StandsMore(r: Replica, p: Position, prefix: seq<Transaction>, landed: seq<Transaction>,
                   known: seq<Transaction>, unknown: set<Id>, all: set<Id>, more: set<Id>)
    requires p.landed <= |p.own| && Stands(r, p, prefix, landed, known, unknown, all)
    requires more !! r.log.Keys && more !! Ids(p.Pending())
    ensures Stands(r, p, prefix, landed, known, unknown + more, all + more)
  {}

  lemma PartsGrow(chain: seq<Transaction>, sent: seq<Transaction>, n: nat, m: nat)
    requires n <= m <= |chain|
    ensures (chain + sent)[..n] == chain[..n] && (chain + sent)[n..m] == chain[n..m]
    ensures (chain + sent)[m..] == chain[m..] + sent
  {}

  // Client c has made a step that added `sent` to the server's chain, and nobody else has moved.
  ghost predicate OnlyMoved(s: State, t: State, c: ClientId, sent: seq<Transaction>) {
    && c in s.clients && t.clients.Keys == s.clients.Keys
    && (forall e :: e in s.clients && e != c ==> t.clients[e] == s.clients[e])
    && t.chain == s.chain + sent && t.owners == s.owners + Times(c, |sent|) && s.used <= t.used
  }

  lemma OtherClient(s: State, t: State, c: ClientId, d: ClientId, p: Position, sent: seq<Transaction>)
    requires ServerOk(s) && d in s.clients && d != c && ClientOk(s, d, p) && OnlyMoved(s, t, c, sent)
    requires Ids(sent) !! s.clients[d].replica.log.Keys
    requires Ids(p.Pending()) !! t.clients[c].replica.log.Keys
    ensures ClientOk(t, d, p)
  {
    hide Holds, Ids, PlaceOk, SentBy;
    PlaceGrows(s.chain, sent, s.clients[d].replica, p);
    SentByOther(s.chain, s.owners, sent, c, d);
  }

  lemma {:induction false} SentByOther(chain: seq<Transaction>, owners: seq<ClientId>, sent: seq<Transaction>,
                                       c: ClientId, d: ClientId)
    requires |chain| == |owners|
    ensures SentBy(chain + sent, owners + Times(c, |sent|), d) ==
            SentBy(chain, owners, d) + if d == c then Payloads(sent) else []
    decreases |sent|
  {
    var times := Times(c, |sent|);
    if sent == [] {
      assert chain + sent == chain && owners + times == owners && Payloads(sent) == [];
    } else {
      ConcatLast(chain, sent);
      ConcatLast(owners, times);
      assert Front(times) == Times(c, |sent| - 1);
      assert Payloads(sent) == Payloads(Front(sent)) + [Last(sent).Payload()];
      SentByOther(chain, owners, Front(sent), c, d);
    }
  }

  // It is enough to look at the client that moves: it gets a new position, and it learns only ids that are on the
  // server or have just been generated.
  lemma StepInv(s: State, t: State, c: ClientId, sent: seq<Transaction>, p: Position)
    requires Inv(s) && ServerOk(t) && OnlyMoved(s, t, c, sent) && ClientOk(t, c, p)
    requires forall d :: d in s.clients && d != c ==> Ids(sent) !! s.clients[d].replica.log.Keys
    requires t.clients[c].replica.log.Keys <= s.clients[c].replica.log.Keys + Ids(s.chain) + (t.used - s.used)
    ensures Inv(t)
  {
    hide Holds, Ids, PlaceOk, SentBy, Payloads;
    forall d | d in t.clients
      ensures exists q :: ClientOk(t, d, q)
    {
      if d != c {
        var q :| ClientOk(s, d, q);
        PendingKnown(s.chain, s.clients[d].replica, q);
        OtherClient(s, t, c, d, q, sent);
      }
    }
  }

  lemma LocalStepInv(s: State, t: State, c: ClientId, p: Position)
    requires Inv(s) && ServerOk(t) && OnlyMoved(s, t, c, []) && ClientOk(t, c, p)
    requires t.clients[c].replica.log.Keys <= s.clients[c].replica.log.Keys + Ids(s.chain) + (t.used - s.used)
    ensures Inv(t)
  {
    hide Inv, ServerOk, ClientOk;
    StepInv(s, t, c, [], p);
  }

  lemma NobodyKnows(s: State, t: State, c: ClientId, ids: set<Id>)
    requires Inv(s) && OnlyMoved(s, t, c, []) && ids !! s.used
    ensures forall d :: d in s.clients && d != c ==> ids !! t.clients[d].replica.log.Keys
  {
    hide Holds, Ids, PlaceOk, SentBy;
    forall d | d in s.clients && d != c
      ensures ids !! t.clients[d].replica.log.Keys
    {
      var e :| ClientOk(s, d, e);
    }
  }

  lemma HoldsAppend(r: Replica, prefix: seq<Transaction>, own: seq<Transaction>, tx: Transaction)
    requires Holds(r, prefix, own) && tx.uuid !in r.log && tx.uuid != []
    requires tx.parent == r.account.latestTransaction
    ensures Holds(Appended(r, tx), prefix, own + [tx])
  {
    hide Segment, Consistent, Fresh, WithAll, Ids;
    var head := r.account.latestTransaction;
    OneTransaction(r.log, head, tx);
    Extend(r.log, [], prefix + own, head, [tx]);
    assert prefix + own + [tx] == prefix + (own + [tx]);
  }

  lemma OneTransaction(log: Log, base: Id, tx: Transaction)
    requires tx.uuid !in log && tx.uuid != [] && tx.parent == base
    ensures Consistent(base, [tx]) && Fresh(log.Keys, [tx]) && WithAll(log, [tx]) == log[tx.uuid := tx]
    ensures Ids([tx]) == {tx.uuid} && Head(base, [tx]) == tx.uuid
  {
    assert Front([tx]) == [];
  }

  lemma PlaceAppend(chain: seq<Transaction>, r: Replica, p: Position, tx: Transaction)
    requires PlaceOk(chain, r, p) && tx.uuid !in r.log && tx.uuid != [] && tx.uuid !in Ids(chain)
    requires tx.parent == r.account.latestTransaction
    ensures var q := Position(p.n, p.own + [tx], p.landed, p.known);
            PlaceOk(chain, Appended(r, tx), q) && q.Pending() == p.Pending() + [tx]
  {
    hide Holds, Ids;
    HoldsAppend(r, chain[..p.n], p.own, tx);
    assert chain == chain[..p.n + p.known] + chain[p.n + p.known..];
    IdsConcat(chain[..p.n + p.known], chain[p.n + p.known..]);
    IdsConcat(p.Pending(), [tx]);
    OneTransaction(map[], tx.parent, tx);
    assert (p.own + [tx])[p.landed..] == p.Pending() + [tx];
    assert (p.own + [tx])[..p.landed] == p.own[..p.landed];
  }

  lemma PayloadsMore(txs: seq<Transaction>, tx: Transaction)
    ensures Payloads(txs + [tx]) == Payloads(txs) + [tx.Payload()]
  {}

  lemma CreateInv(s: State, c: ClientId, tx: Transaction)
    requires Inv(s) && Enabled(s, Create(c, tx))
    ensures Inv(AfterCreate(s, c, tx))
  {
    hide Holds, Ids, SentBy, Segment, Payloads, PlaceOk;
    var p :| ClientOk(s, c, p);
    var q := Position(p.n, p.own + [tx], p.landed, p.known);
    PlaceAppend(s.chain, s.clients[c].replica, p, tx);
    assert OnlyMoved(s, AfterCreate(s, c, tx), c, []);
    NobodyKnows(s, AfterCreate(s, c, tx), c, {tx.uuid});
    CreatedAt(s, AfterCreate(s, c, tx), c, tx, p, q);
    LocalStepInv(s, AfterCreate(s, c, tx), c, q);
  }

  lemma CreatedAt(s: State, t: State, c: ClientId, tx: Transaction, p: Position, q: Position)
    requires Inv(s) && Enabled(s, Create(c, tx)) && ClientOk(s, c, p) && t == AfterCreate(s, c, tx)
    requires OnlyMoved(s, t, c, []) && q == Position(p.n, p.own + [tx], p.landed, p.known)
    requires PlaceOk(s.chain, t.clients[c].replica, q) && q.Pending() == p.Pending() + [tx]
    requires forall d :: d in s.clients && d != c ==> tx.uuid !in t.clients[d].replica.log
    ensures ClientOk(t, c, q)
  {
    hide Holds, Ids, SentBy, Segment, Payloads, PlaceOk;
    BoundsOk(s.chain, s.clients[c].replica, p);
    PayloadsMore(p.Pending(), tx);
    IdsConcat(p.Pending(), [tx]);
    OneTransaction(map[], tx.parent, tx);
    assert t.chain == s.chain && t.owners == s.owners;
  }

  lemma HoldsPointer(r: Replica, prefix: seq<Transaction>, own: seq<Transaction>)
    requires Holds(r, prefix, own)
    ensures r.account.latestSynchronizedTransaction == Head([], prefix)
  {}

  lemma SynchronizedWithServer(s: State, c: ClientId, p: Position)
    requires ServerOk(s) && c in s.clients && ClientOk(s, c, p)
    ensures s.clients[c].replica.account.latestSynchronizedTransaction == s.server.account.latestTransaction
            <==> p.n == |s.chain|
  {
    hide Holds, Ids, SentBy, Complete, Children;
    assert s.chain == s.chain[..p.n] + s.chain[p.n..];
    HoldsPointer(s.clients[c].replica, s.chain[..p.n], p.own);
    ServerChildren(s.server, s.chain[..p.n], s.chain[p.n..]);
  }

  // The client only changes its phase.
  lemma PhaseInv(s: State, c: ClientId, phase: Phase, p: Position)
    requires Inv(s) && c in s.clients && ClientOk(s, c, p)
    requires PhaseOk(s.clients[c].(phase := phase), p, |s.chain|)
    ensures Inv(Moved(s, c, s.clients[c].replica, phase))
  {
    hide Holds, Ids, SentBy, PlaceOk, Inv;
    ServerPart(s);
    var t := Moved(s, c, s.clients[c].replica, phase);
    assert OnlyMoved(s, t, c, []);
    LocalStepInv(s, t, c, p);
  }

  lemma ServerPart(s: State)
    requires Inv(s)
    ensures ServerOk(s)
  {}

  lemma BeginInv(s: State, c: ClientId)
    requires Inv(s) && Enabled(s, Begin(c))
    ensures Inv(AfterBegin(s, c))
  {
    hide Holds, Ids, SentBy;
    var p :| ClientOk(s, c, p);
    SynchronizedWithServer(s, c, p);
    PhaseInv(s, c, if p.n == |s.chain| then Pushing else Fetching, p);
  }

  lemma AbandonInv(s: State, c: ClientId)
    requires Inv(s) && c in s.clients && s.clients[c].phase != Sent
    ensures Inv(Moved(s, c, s.clients[c].replica, Idle))
  {
    hide Holds, Ids, SentBy, PlaceOk;
    var p :| ClientOk(s, c, p);
    PhaseInv(s, c, Idle, p);
  }

  // The client only records something about itself.
  lemma MarkInv(s: State, c: ClientId, client: Client, p: Position)
    requires Inv(s) && c in s.clients && ClientOk(s, c, p) && PhaseOk(client, p, |s.chain|)
    requires client.replica == s.clients[c].replica && client.created == s.clients[c].created
    ensures Inv(Marked(s, c, client))
  {
    hide Holds, Ids, SentBy, PlaceOk, Inv;
    ServerPart(s);
    var t := Marked(s, c, client);
    assert OnlyMoved(s, t, c, []);
    LocalStepInv(s, t, c, p);
  }

  lemma ForgetInv(s: State, c: ClientId)
    requires Inv(s) && Enabled(s, Forget(c))
    ensures Inv(Next(s, Forget(c)))
  {
    hide Holds, Ids, SentBy, PlaceOk;
    var p :| ClientOk(s, c, p);
    BoundsOk(s.chain, s.clients[c].replica, p);
    MarkInv(s, c, s.clients[c].(phase := Idle, lost := true), p);
  }

  // A client that has stored none of the server's new transactions rebases without error.
  lemma FetchSucceeds(s: State, c: ClientId, newId: nat -> Id, p: Position)
    requires Inv(s) && Enabled(s, Fetch(c, newId)) && ClientOk(s, c, p) && p.known == 0
    ensures var r, remote := s.clients[c].replica, s.chain[p.n..];
            && remote != [] && Fresh(r.log.Keys, remote) && FreshSupply(newId, r.log.Keys + Ids(remote))
            && Consistent(Head([], s.chain[..p.n]), remote) && Ids(remote) <= Ids(s.chain)
            && Fetched(r, s.server, newId) == Ok(Rebased(r.account, remote, p.own, newId))
  {
    hide Ids, SentBy, Segment, DoReplicaAll, Rebased, Children, Acceptable, Consistent, Fresh, FetchEnds, Rebase;
    hide LocalWalkable, Holds, Pull, PullEnds, ChildrenEnd, Payloads;
    var r, prefix, remote := s.clients[c].replica, s.chain[..p.n], s.chain[p.n..];
    assert s.chain == prefix + remote;
    IdsConcat(prefix, remote);
    HoldsPointer(r, prefix, p.own);
    PullConverges(r, s.server, prefix, p.own, remote, newId);
    ServerChildren(s.server, prefix, remote);
    RebaseConverges(r, prefix, p.own, remote, newId);
  }

  // A client that has stored some of them is refused before it writes anything.
  lemma FetchRefused(s: State, c: ClientId, newId: nat -> Id, p: Position)
    requires ServerOk(s) && Enabled(s, Fetch(c, newId)) && ClientOk(s, c, p) && p.known > 0
    ensures Fetched(s.clients[c].replica, s.server, newId) == Err(DuplicateTransactionId(s.chain[p.n].uuid))
  {
    hide Ids, SentBy, Complete, Segment, DoReplicaAll, Rebased, Acceptable, Consistent, Fresh;
    var r, prefix, remote := s.clients[c].replica, s.chain[..p.n], s.chain[p.n..];
    assert s.chain == prefix + remote;
    HoldsPointer(r, prefix, p.own);
    NextIsKnown(s.chain, r, p);
    ServerChildren(s.server, prefix, remote);
    DuplicateRefused(r, s.server, prefix, remote, newId);
  }

  lemma NextIsKnown(chain: seq<Transaction>, r: Replica, p: Position)
    requires PlaceOk(chain, r, p) && p.known > 0
    ensures p.n < |chain| && chain[p.n..][0] == chain[p.n] && chain[p.n].uuid in r.log
  {
    hide Ids, Holds;
    IdIn(chain[p.n..p.n + p.known], 0);
  }

  lemma FetchInv(s: State, c: ClientId, newId: nat -> Id)
    requires Inv(s) && Enabled(s, Fetch(c, newId))
    ensures Inv(AfterFetch(s, c, newId))
  {
    hide Holds, Ids, PlaceOk, SentBy, DoReplicaAll, FetchEnds;
    var p :| ClientOk(s, c, p);
    if p.known > 0 {
      FetchRefused(s, c, newId, p);
      PhaseInv(s, c, Idle, p);
    } else {
      FetchSucceeds(s, c, newId, p);
      var pulled := Rebased(s.clients[c].replica.account, s.chain[p.n..], p.own, newId);
      assert pulled.writes[..|pulled.writes|] == pulled.writes;
      PulledInv(s, c, newId, p, |pulled.writes|, Pushing, AfterWrites(s, c, pulled.writes, Pushing));
    }
  }

  lemma StopInv(s: State, c: ClientId, newId: nat -> Id, k: nat)
    requires Inv(s) && Enabled(s, Stop(c, newId, k))
    ensures Inv(AfterStop(s, c, newId, k))
  {
    hide Holds, Ids, PlaceOk, SentBy, DoReplicaAll, FetchEnds, Partial;
    var p :| ClientOk(s, c, p);
    if p.known > 0 { FetchRefused(s, c, newId, p); }
    FetchSucceeds(s, c, newId, p);
    var r, remote := s.clients[c].replica, s.chain[p.n..];
    PartialIff(r.account, remote, p.own, newId, k);
    if k > |remote| + |p.own| {
      PulledInv(s, c, newId, p, k, Idle, AfterStop(s, c, newId, k));
    } else if k == 0 {
      NothingWritten(s, c, newId, p);
    } else {
      StoppedInv(s, c, newId, p, k, AfterStop(s, c, newId, k));
    }
  }

  lemma PartialIff(account: Account, remote: seq<Transaction>, own: seq<Transaction>, newId: nat -> Id, k: nat)
    requires remote != [] && k <= |Rebased(account, remote, own, newId).writes|
    ensures Partial(Rebased(account, remote, own, newId), k) <==> 0 < k <= |remote| + |own|
  {
    var pulled := Rebased(account, remote, own, newId);
    var kept := remote + Renumbered(own, Last(remote).uuid, newId);
    assert pulled.writes[|kept|] == PutAccount(pulled.account);
    if k > |kept| { assert pulled.writes[..k][|kept|] == PutAccount(pulled.account); }
  }

  lemma NothingWritten(s: State, c: ClientId, newId: nat -> Id, p: Position)
    requires Inv(s) && Enabled(s, Stop(c, newId, 0)) && ClientOk(s, c, p)
    ensures Inv(AfterStop(s, c, newId, 0))
  {
    hide Holds, Ids, PlaceOk, SentBy, FetchEnds;
    var pulled := Fetched(s.clients[c].replica, s.server, newId).value;
    assert pulled.writes[..0] == [];
    NoWritesView(s.clients[c].replica);
    assert s.used + s.clients[c].replica.log.Keys == s.used;
    PhaseInv(s, c, Idle, p);
  }

  // What is true of a replica and a chain when the replica pulls the rest of the chain.
  ghost predicate PullingRest(chain: seq<Transaction>, r: Replica, p: Position, newId: nat -> Id) {
    && PlaceOk(chain, r, p) && p.known == 0 && chain[p.n..] != []
    && Fresh(r.log.Keys, chain[p.n..]) && Consistent(Head([], chain[..p.n]), chain[p.n..])
    && FreshSupply(newId, r.log.Keys + Ids(chain))
  }

  lemma RestIsPulling(chain: seq<Transaction>, r: Replica, p: Position, newId: nat -> Id)
    requires PullingRest(chain, r, p, newId)
    ensures Pulling(r, chain[..p.n], p.own, chain[p.n..], newId)
    ensures chain[..p.n] + chain[p.n..] == chain && Ids(chain[p.n..]) <= Ids(chain) && p.landed == 0
  {
    hide Ids, Fresh, Consistent, Holds;
    assert chain == chain[..p.n] + chain[p.n..];
    IdsConcat(chain[..p.n], chain[p.n..]);
    SupplyWeaken(newId, r.log.Keys + Ids(chain), r.log.Keys + Ids(chain[p.n..]));
  }

  // Once the account has been written, the client has synchronized the whole chain.
  lemma PlacePulled(chain: seq<Transaction>, r: Replica, p: Position, newId: nat -> Id, k: nat)
    requires PullingRest(chain, r, p, newId)
    requires |chain[p.n..]| + |p.own| < k <= |Rebased(r.account, chain[p.n..], p.own, newId).writes|
    ensures var after := Interrupted(r, p.own, chain[p.n..], newId, k);
            var own := Renamed(p.own, chain[p.n..], newId);
            && PlaceOk(chain, after, Position(|chain|, own, 0, 0))
            && after.log.Keys <= r.log.Keys + Ids(chain) + Ids(own) && Ids(own) <= after.log.Keys
  {
    hide Ids, Fresh, Consistent, DoReplicaAll, Rebased, Holds, Renumbered, FreshSupply, Interrupted, PlaceOk;
    BoundsOk(chain, r, p);
    RestIsPulling(chain, r, p, newId);
    InterruptedPullKeepsAChain(r, chain[..p.n], p.own, chain[p.n..], newId, k);
    KeysAfterAccount(r, p.own, chain[p.n..], newId, k);
    PlaceAtEnd(chain, Interrupted(r, p.own, chain[p.n..], newId, k), Renamed(p.own, chain[p.n..], newId));
  }

  // A client that has synchronized the whole chain.
  lemma PlaceAtEnd(chain: seq<Transaction>, r: Replica, own: seq<Transaction>)
    requires Holds(r, chain, own)
    ensures PlaceOk(chain, r, Position(|chain|, own, 0, 0)) && Ids(own) <= r.log.Keys
  {
    hide Ids, Holds, Fresh, Complete, Segment, LocalWalkable, Unsynchronized;
    HoldsOwn(r, chain, own);
    NoIds();
    WholeAndNothing(chain);
    WholeAndNothing(own);
  }

  lemma WholeAndNothing<T>(s: seq<T>)
    ensures s[..|s|] == s == s[0..] && s[|s|..] == s[..0] == s[|s|..|s|] == []
  {}

  lemma NoIds()
    ensures Ids([]) == {}
  {}

  // Until then, it stands where it stood, but has stored some of the server's transactions.
  lemma PlaceStopped(chain: seq<Transaction>, r: Replica, p: Position, newId: nat -> Id, k: nat)
    requires PullingRest(chain, r, p, newId) && 0 < k <= |chain[p.n..]| + |p.own|
    ensures var after := Interrupted(r, p.own, chain[p.n..], newId, k);
            var known := if k < |chain[p.n..]| then k else |chain[p.n..]|;
            && PlaceOk(chain, after, Position(p.n, p.own, 0, known))
            && after.log.Keys <= r.log.Keys + Ids(chain) + Ids(Renamed(p.own, chain[p.n..], newId))
  {
    hide Ids, Fresh, Consistent, DoReplicaAll, Rebased, Holds, Renumbered, FreshSupply, Interrupted, Renamed, PlaceOk;
    BoundsOk(chain, r, p);
    var remote := chain[p.n..];
    RestIsPulling(chain, r, p, newId);
    PullSize(r, p.own, remote, newId);
    InterruptedPullKeepsAChain(r, chain[..p.n], p.own, remote, newId, k);
    StoredKeys(r, chain[..p.n], p.own, remote, newId, k);
    PlaceKnown(chain, r, p, Interrupted(r, p.own, remote, newId, k), if k < |remote| then k else |remote|);
  }

  lemma PlaceKnown(chain: seq<Transaction>, r: Replica, p: Position, after: Replica, known: nat)
    requires PlaceOk(chain, r, p) && p.known == 0 && known <= |chain[p.n..]| && Holds(after, chain[..p.n], p.own)
    requires Ids(chain[p.n..][..known]) <= after.log.Keys && Ids(chain[p.n..][known..]) !! after.log.Keys
    ensures PlaceOk(chain, after, Position(p.n, p.own, 0, known))
  {
    hide Ids, Holds;
    SliceOfRest(chain, p.n, known);
    assert chain[p.n..p.n + 0] == [] == p.own[..0] && p.landed == 0;
  }

  lemma SliceOfRest<T>(s: seq<T>, n: nat, k: nat)
    requires n <= |s| && k <= |s[n..]|
    ensures s[n..][..k] == s[n..n + k] && s[n..][k..] == s[n + k..]
  {}

  // What a pull has stored when it stops before the account.
  lemma StoredKeys(r: Replica, prefix: seq<Transaction>, own: seq<Transaction>, remote: seq<Transaction>,
                   newId: nat -> Id, k: nat)
    requires Pulling(r, prefix, own, remote, newId) && 0 < k <= |remote| + |own|
    requires k <= |Rebased(r.account, remote, own, newId).writes|
    ensures var keys := Interrupted(r, own, remote, newId, k).log.Keys;
            var known := if k < |remote| then k else |remote|;
            && Ids(remote[..known]) <= keys && Ids(remote[known..]) !! keys
            && keys <= r.log.Keys + Ids(remote) + Ids(Renamed(own, remote, newId))
  {
    hide Ids, Fresh, Consistent, DoReplicaAll, Rebased, FreshSupply, Interrupted, Renamed, Holds, WithAll;
    var renamed := Renamed(own, remote, newId);
    PullSize(r, own, remote, newId);
    PrefixOfPuts(r, own, remote, newId, k);
    WithAllKeys(r.log, (remote + renamed)[..k]);
    StoredIds(r.log.Keys, remote, renamed, k);
  }

  lemma StoredIds(known: set<Id>, remote: seq<Transaction>, renamed: seq<Transaction>, k: nat)
    requires Fresh(known, remote) && 0 < k <= |remote| + |renamed|
    ensures var stored := Ids((remote + renamed)[..k]);
            var n := if k < |remote| then k else |remote|;
            && Ids(remote[..n]) <= stored && Ids(remote[n..]) !! known + stored
            && stored <= Ids(remote) + Ids(renamed)
  {
    hide Ids, Fresh;
    var stored := (remote + renamed)[..k];
    if k < |remote| {
      assert stored == remote[..k] && remote == remote[..k] + remote[k..];
      FreshConcat(known, remote[..k], remote[k..]);
      FreshIds(known + Ids(remote[..k]), remote[k..]);
      IdsConcat(remote[..k], remote[k..]);
    } else {
      var j := k - |remote|;
      NoIds();
      assert stored == remote + renamed[..j] && renamed == renamed[..j] + renamed[j..];
      WholeAndNothing(remote);
      IdsConcat(remote, renamed[..j]);
      IdsConcat(renamed[..j], renamed[j..]);
    }
  }

  lemma StoppedInv(s: State, c: ClientId, newId: nat -> Id, p: Position, k: nat, t: State)
    requires Inv(s) && Enabled(s, Stop(c, newId, k)) && ClientOk(s, c, p) && p.known == 0
    requires 0 < k <= |s.chain[p.n..]| + |p.own| && t == AfterStop(s, c, newId, k)
    ensures Inv(t)
  {
    hide Holds, Ids, SentBy, Fresh, Consistent, DoReplicaAll, Rebased, Fetched, FetchEnds, PlaceOk, FreshSupply;
    hide Partial;
    BoundsOk(s.chain, s.clients[c].replica, p);
    FetchSucceeds(s, c, newId, p);
    var r, remote := s.clients[c].replica, s.chain[p.n..];
    PartialIff(r.account, remote, p.own, newId, k);
    SupplyWeaken(newId, s.used, r.log.Keys + Ids(s.chain));
    PlaceStopped(s.chain, r, p, newId, k);
    StoppedAt(s, t, c, newId, p, Interrupted(r, p.own, remote, newId, k),
              Position(p.n, p.own, 0, if k < |remote| then k else |remote|));
  }

  lemma StoppedAt(s: State, t: State, c: ClientId, newId: nat -> Id, p: Position, after: Replica, q: Position)
    requires Inv(s) && c in s.clients && s.clients[c].phase == Fetching && ClientOk(s, c, p) && p.known == 0
    requires s.chain[p.n..] != [] && FreshSupply(newId, s.used)
    requires PlaceOk(s.chain, after, q) && q.n == p.n < |s.chain| && q.own == p.own && q.landed == 0 < q.known
    requires after.log.Keys <=
             s.clients[c].replica.log.Keys + Ids(s.chain) + Ids(Renamed(p.own, s.chain[p.n..], newId))
    requires t == Marked(s, c, s.clients[c].(replica := after, phase := Idle, stopped := true)).(
                    used := s.used + after.log.Keys)
    ensures Inv(t)
  {
    hide Holds, Ids, SentBy, PlaceOk, Renumbered, Fresh, Segment, Payloads, FreshSupply;
    var own := Renamed(p.own, s.chain[p.n..], newId);
    BoundsOk(s.chain, s.clients[c].replica, p);
    RenumberedFresh(p.own, Last(s.chain[p.n..]).uuid, newId, s.used);
    FreshIds(s.used, own);
    assert t.chain == s.chain && t.owners == s.owners && q.Pending() == p.Pending();
    assert OnlyMoved(s, t, c, []);
    LocalStepInv(s, t, c, q);
  }

  lemma PulledInv(s: State, c: ClientId, newId: nat -> Id, p: Position, k: nat, phase: Phase, t: State)
    requires Inv(s) && Enabled(s, Fetch(c, newId)) && ClientOk(s, c, p) && p.known == 0 && p.n < |s.chain|
    requires phase == Pushing || phase == Idle
    requires var r, remote := s.clients[c].replica, s.chain[p.n..];
             && |remote| + |p.own| < k <= |Rebased(r.account, remote, p.own, newId).writes|
             && t == AfterWrites(s, c, Rebased(r.account, remote, p.own, newId).writes[..k], phase)
    ensures Inv(t)
  {
    hide Holds, Ids, SentBy, Fresh, Consistent, DoReplicaAll, Rebased, Fetched, FetchEnds, PlaceOk, FreshSupply;
    BoundsOk(s.chain, s.clients[c].replica, p);
    FetchSucceeds(s, c, newId, p);
    var r, remote := s.clients[c].replica, s.chain[p.n..];
    SupplyWeaken(newId, s.used, r.log.Keys + Ids(s.chain));
    PlacePulled(s.chain, r, p, newId, k);
    RebasedAt(s, t, c, newId, p, phase, Interrupted(r, p.own, remote, newId, k));
  }

  lemma RebasedAt(s: State, t: State, c: ClientId, newId: nat -> Id, p: Position, phase: Phase,
                  after: Replica)
    requires Inv(s) && c in s.clients && s.clients[c].phase == Fetching && ClientOk(s, c, p) && p.known == 0
    requires p.n < |s.chain| && FreshSupply(newId, s.used) && (phase == Pushing || phase == Idle)
    requires t == Moved(s, c, after, phase).(used := s.used + after.log.Keys)
    requires var own := Renamed(p.own, s.chain[p.n..], newId);
             && PlaceOk(s.chain, after, Position(|s.chain|, own, 0, 0))
             && after.log.Keys <= s.clients[c].replica.log.Keys + Ids(s.chain) + Ids(own)
             && Ids(own) <= after.log.Keys
    ensures Inv(t)
  {
    hide Holds, Ids, SentBy, PlaceOk, Renumbered, Fresh, Segment, Payloads, FreshSupply;
    var remote := s.chain[p.n..];
    var own := Renamed(p.own, remote, newId);
    var q := Position(|s.chain|, own, 0, 0);
    BoundsOk(s.chain, s.clients[c].replica, p);
    RenumberedFresh(p.own, Last(remote).uuid, newId, s.used);
    FreshIds(s.used, own);
    RenumberedPayloads(p.own, Last(remote).uuid, newId);
    assert OnlyMoved(s, t, c, []);
    NobodyKnows(s, t, c, Ids(own));
    FetchedClient(s, t, c, p, q);
    LocalStepInv(s, t, c, q);
  }

  lemma FetchedClient(s: State, t: State, c: ClientId, p: Position, q: Position)
    requires Inv(s) && c in s.clients && ClientOk(s, c, p) && OnlyMoved(s, t, c, [])
    requires p.known == 0 == q.known && p.landed == 0 == q.landed
    requires PlaceOk(s.chain, t.clients[c].replica, q) && t.clients[c].replica.log.Keys <= t.used
    requires s.clients[c].phase == Fetching && (t.clients[c].phase == Pushing || t.clients[c].phase == Idle)
    requires t.clients[c].created == s.clients[c].created && t.clients[c].lost == s.clients[c].lost
    requires t.clients[c].stopped == s.clients[c].stopped && Payloads(q.own) == Payloads(p.own)
    requires forall d :: d in s.clients && d != c ==> Ids(q.own) !! t.clients[d].replica.log.Keys
    ensures ClientOk(t, c, q)
  {
    hide Holds, Ids, SentBy, PlaceOk;
    assert q.Pending() == q.own && p.Pending() == p.own;
    assert t.chain == s.chain && t.owners == s.owners;
  }

  lemma OwnConsistent(r: Replica, prefix: seq<Transaction>, own: seq<Transaction>)
    requires Holds(r, prefix, own)
    ensures Consistent(Head([], prefix), own)
  {
    SegmentSplit(r.log, [], prefix, own, r.account.latestTransaction);
    SegmentHead(r.log, Head([], prefix), own, r.account.latestTransaction);
  }

  // The server only accepts transactions from a client that has synchronized its whole chain.
  lemma PushAccepted(s: State, c: ClientId, p: Position)
    requires ServerOk(s) && c in s.clients && ClientOk(s, c, p) && p.landed == 0 && p.own != []
    ensures Receive(s.server, p.own) ==
            if p.n == |s.chain| then
              Ok(Puts(s.server.account.uuid, p.own)
                 + [PutAccount(s.server.account.(latestTransaction := Last(p.own).uuid))])
            else Err(MustRebase)
  {
    hide Holds, Ids, SentBy, Complete, Consistent;
    OwnConsistent(s.clients[c].replica, s.chain[..p.n], p.own);
    HoldsPointer(s.clients[c].replica, s.chain[..p.n], p.own);
    ConsistentFirst(Head([], s.chain[..p.n]), p.own);
    SynchronizedWithServer(s, c, p);
  }

  lemma PushInv(s: State, c: ClientId)
    requires Inv(s) && Enabled(s, Push(c))
    ensures Inv(AfterPush(s, c))
  {
    hide Ids, SentBy, DoReplicaAll, Receive, Holds, Segment, Payloads, Puts;
    var p :| ClientOk(s, c, p);
    BoundsOk(s.chain, s.clients[c].replica, p);
    HoldsOwn(s.clients[c].replica, s.chain[..p.n], p.own);
    if p.own != [] { PushAccepted(s, c, p); }
    if p.own == [] || p.n < |s.chain| {
      PhaseInv(s, c, Idle, p);
    } else {
      SentInv(s, c, p);
    }
  }

  lemma PlaceSent(chain: seq<Transaction>, r: Replica, p: Position)
    requires PlaceOk(chain, r, p) && p.landed == 0 && p.n == |chain|
    ensures PlaceOk(chain + p.own, r, Position(p.n, p.own, |p.own|, |p.own|))
  {
    hide Holds, Ids;
    NoIds();
    PendingKnown(chain, r, p);
    assert p.Pending() == p.own;
    assert (chain + p.own)[..p.n] == chain[..p.n];
    assert (chain + p.own)[p.n..p.n + |p.own|] == p.own == p.own[..|p.own|];
    assert (chain + p.own)[p.n + |p.own|..] == [];
    assert p.own[|p.own|..] == [];
  }

  lemma ServerSent(s: State, c: ClientId, p: Position)
    requires Inv(s) && Enabled(s, Push(c)) && ClientOk(s, c, p) && p.landed == 0 && p.own != [] && p.n == |s.chain|
    ensures var t := AfterPush(s, c);
            && ServerOk(t) && t.chain == s.chain + p.own && t.owners == s.owners + Times(c, |p.own|)
            && t.clients == s.clients[c := s.clients[c].(phase := Sent)] && t.used == s.used
  {
    hide Ids, SentBy, DoReplicaAll, Receive, Holds, Segment;
    assert s.chain[..p.n] == s.chain && p.Pending() == p.own;
    var r := s.clients[c].replica;
    HoldsOwn(r, s.chain, p.own);
    PushAccepted(s, c, p);
    PushConverges(r, s.server, s.chain, p.own);
    IdsConcat(s.chain, p.own);
  }

  lemma SentInv(s: State, c: ClientId, p: Position)
    requires Inv(s) && Enabled(s, Push(c)) && ClientOk(s, c, p) && p.landed == 0 && p.own != [] && p.n == |s.chain|
    ensures Inv(AfterPush(s, c))
  {
    hide Ids, SentBy, Holds, AfterPush, Inv, ServerOk, LocalWalkable;
    ServerPart(s);
    ServerSent(s, c, p);
    var t, q := AfterPush(s, c), Position(p.n, p.own, |p.own|, |p.own|);
    PlaceSent(s.chain, s.clients[c].replica, p);
    SizesOk(s);
    SentByOther(s.chain, s.owners, p.own, c, c);
    NoIds();
    assert p.Pending() == p.own && q.Pending() == [] && Payloads(q.Pending()) == [];
    assert OnlyMoved(s, t, c, p.own);
    StepInv(s, t, c, p.own, q);
  }

  lemma SizesOk(s: State)
    requires ServerOk(s)
    ensures |s.owners| == |s.chain|
  {}

  lemma PlaceRecorded(chain: seq<Transaction>, r: Replica, p: Position)
    requires PlaceOk(chain, r, p) && p.known == p.landed == |p.own|
    ensures PlaceOk(chain, Acknowledged(r), Position(p.n + p.landed, [], 0, 0))
  {
    hide Ids, Segment;
    NoIds();
    var n := p.n + p.landed;
    assert p.own[..p.landed] == p.own && p.Pending() == [];
    assert chain[..n] == chain[..p.n] + p.own;
    assert chain[..n] + [] == chain[..p.n] + p.own && chain[n..n] == [];
    SegmentHead(r.log, [], chain[..p.n] + p.own, r.account.latestTransaction);
  }

  lemma RecordInv(s: State, c: ClientId)
    requires Inv(s) && Enabled(s, Record(c))
    ensures Inv(Moved(s, c, Acknowledged(s.clients[c].replica), Idle))
  {
    hide Ids, SentBy, Holds, PlaceOk;
    var p :| ClientOk(s, c, p);
    BoundsOk(s.chain, s.clients[c].replica, p);
    var t, q := Moved(s, c, Acknowledged(s.clients[c].replica), Idle), Position(p.n + p.landed, [], 0, 0);
    PlaceRecorded(s.chain, s.clients[c].replica, p);
    assert p.Pending() == [] && q.Pending() == [];
    NoIds();
    assert OnlyMoved(s, t, c, []);
    LocalStepInv(s, t, c, q);
  }

  lemma StepKeepsInv(s: State, step: Step)
    requires Inv(s) && Enabled(s, step)
    ensures Inv(Next(s, step))
  {
    hide Inv, AfterFetch, AfterPush, AfterCreate, AfterBegin, Moved, Acknowledged, FetchEnds, LocalWalkable;
    hide FreshSupply, AfterStop, Marked;
    match step
    case Create(c, tx) => CreateInv(s, c, tx);
    case Begin(c) => BeginInv(s, c);
    case Fetch(c, newId) => FetchInv(s, c, newId);
    case Stop(c, newId, k) => StopInv(s, c, newId, k);
    case Push(c) => PushInv(s, c);
    case Record(c) => RecordInv(s, c);
    case Forget(c) => ForgetInv(s, c);
    case Abandon(c) => AbandonInv(s, c);
  }
}
