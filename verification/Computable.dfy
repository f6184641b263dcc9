/**
 Where the protocol lets balances be computed, and where it does not.
 */
module Computable {
  import opened Model
  import opened Store
  import opened Chain
  import opened Sync
  import opened Convergence
  import opened Crash
  import opened Protocol
  import opened Runs
  import opened Balance
  import opened History
  import opened Tracing
  import opened Rebalance

  // ---------- Careful runs ----------

  // The client only corrects what it has synchronized.
  ghost predicate Careful(s: State, step: Step)
    requires Enabled(s, step)
  {
    step.Create? ==> exists prefix, own ::
                       Holds(s.clients[step.c].replica, prefix, own) && Follows(step.tx, Ids(prefix))
  }

  ghost predicate CarefulRun(s: State, steps: seq<Step>, t: State)
    decreases |steps|
  {
    if steps == [] then t == s
    else Enabled(s, steps[0]) && Careful(s, steps[0]) && CarefulRun(Next(s, steps[0]), steps[1..], t)
  }

  // The client's own transactions only correct synchronized ones.
  ghost predicate Anchored(r: Replica) {
    forall prefix, own :: Holds(r, prefix, own) ==> FollowAll(own, Ids(prefix))
  }

  ghost predicate CarefulInv(s: State) {
    Inv(s) && Sound(s.chain) && forall c :: c in s.clients ==> Anchored(s.clients[c].replica)
  }

  lemma AnchoredIs(r: Replica, prefix: seq<Transaction>, own: seq<Transaction>)
    requires Holds(r, prefix, own) && FollowAll(own, Ids(prefix))
    ensures Anchored(r)
  {
    hide Holds, FollowAll, Ids;
    forall prefix2, own2 | Holds(r, prefix2, own2)
      ensures FollowAll(own2, Ids(prefix2))
    {
      HoldsUnique(r, prefix, own, prefix2, own2);
    }
  }

  lemma AnchoredCreate(r: Replica, tx: Transaction, prefix: seq<Transaction>, own: seq<Transaction>)
    requires Anchored(r) && Holds(r, prefix, own) && Follows(tx, Ids(prefix))
    requires tx.uuid !in r.log && tx.uuid != [] && tx.parent == r.account.latestTransaction
    ensures Anchored(Appended(r, tx))
  {
    hide Holds, Ids, Follows;
    HoldsAppend(r, prefix, own, tx);
    assert FollowAll(own + [tx], Ids(prefix));
    AnchoredIs(Appended(r, tx), prefix, own + [tx]);
  }

  // Renamed on top of the whole chain, the transactions still correct what the server has.
  lemma AnchoredPulled(chain: seq<Transaction>, r: Replica, p: Position, newId: nat -> Id, k: nat)
    requires PullingRest(chain, r, p, newId) && Anchored(r)
    requires k <= |Rebased(r.account, chain[p.n..], p.own, newId).writes|
    ensures Anchored(Interrupted(r, p.own, chain[p.n..], newId, k))
  {
    hide Holds, Ids, Follows, FollowAll, Fresh, Consistent, DoReplicaAll, Rebased, Interrupted, Anchored, FreshSupply;
    hide Renumbered;
    var remote := chain[p.n..];
    BoundsOk(chain, r, p);
    RestIsPulling(chain, r, p, newId);
    InterruptedPullKeepsAChain(r, chain[..p.n], p.own, remote, newId, k);
    AnchoredFollows(r, chain[..p.n], p.own);
    if k <= |remote| + |p.own| {
      AnchoredIs(Interrupted(r, p.own, remote, newId, k), chain[..p.n], p.own);
    } else {
      RenumberedPayloads(p.own, Last(remote).uuid, newId);
      IdsConcat(chain[..p.n], remote);
      FollowRenamed(p.own, Renamed(p.own, remote, newId), Ids(chain[..p.n]), Ids(chain));
      AnchoredIs(Interrupted(r, p.own, remote, newId, k), chain, Renamed(p.own, remote, newId));
    }
  }

  lemma AnchoredFollows(r: Replica, prefix: seq<Transaction>, own: seq<Transaction>)
    requires Anchored(r) && Holds(r, prefix, own)
    ensures FollowAll(own, Ids(prefix))
  {}

  lemma AnchoredRecorded(chain: seq<Transaction>, r: Replica, p: Position)
    requires PlaceOk(chain, r, p) && p.known == p.landed == |p.own|
    ensures Anchored(Acknowledged(r))
  {
    hide Holds, Ids;
    PlaceRecorded(chain, r, p);
    AnchoredIs(Acknowledged(r), chain[..p.n + p.landed], []);
  }

  // The parts of the state a step changes.
  lemma CarefulStepClient(s: State, step: Step)
    requires CarefulInv(s) && Enabled(s, step) && Careful(s, step)
    ensures step.c in Next(s, step).clients && Anchored(Next(s, step).clients[step.c].replica)
  {
    hide Holds, Ids, SentBy, PlaceOk, Sound, Anchored, DoReplicaAll, Receive, Rebased, Unsynchronized, FreshSupply;
    hide LocalWalkable, Partial;
    var c := step.c;
    var r := s.clients[c].replica;
    var p :| ClientOk(s, c, p);
    BoundsOk(s.chain, r, p);
    match step {
      case Create(_, tx) =>
        var prefix, own :| Holds(r, prefix, own) && Follows(tx, Ids(prefix));
        AnchoredCreate(r, tx, prefix, own);
      case Fetch(_, newId) =>
        if p.known > 0 {
          FetchRefused(s, c, newId, p);
        } else {
          FetchSucceeds(s, c, newId, p);
          var writes := Rebased(r.account, s.chain[p.n..], p.own, newId).writes;
          assert writes[..|writes|] == writes;
          SupplyWeaken(newId, s.used, r.log.Keys + Ids(s.chain));
          AnchoredPulled(s.chain, r, p, newId, |writes|);
        }
      case Stop(_, newId, k) =>
        if p.known > 0 { FetchRefused(s, c, newId, p); }
        FetchSucceeds(s, c, newId, p);
        SupplyWeaken(newId, s.used, r.log.Keys + Ids(s.chain));
        AnchoredPulled(s.chain, r, p, newId, k);
      case Record(_) => AnchoredRecorded(s.chain, r, p);
      case _ =>
    }
  }

  lemma CarefulPush(s: State, c: ClientId, t: State)
    requires CarefulInv(s) && Enabled(s, Push(c)) && t == AfterPush(s, c)
    ensures Sound(t.chain)
  {
    hide Holds, Ids, SentBy, PlaceOk, Sound, Anchored, DoReplicaAll, LocalWalkable, Unsynchronized, Receive, Segment;
    if t.chain != s.chain {
      var p :| ClientOk(s, c, p);
      var r := s.clients[c].replica;
      BoundsOk(s.chain, r, p);
      PlaceOwn(s.chain, r, p);
      PushAccepted(s, c, p);
      assert s.chain[..p.n] == s.chain;
      PlaceHolds(s.chain, r, p);
      AnchoredFollows(r, s.chain, p.own);
      SoundConcat(s.chain, p.own);
    }
  }

  lemma CarefulStep(s: State, step: Step)
    requires CarefulInv(s) && Enabled(s, step) && Careful(s, step)
    ensures CarefulInv(Next(s, step))
  {
    hide Inv, Sound, Anchored, AfterPush, AfterFetch, AfterStop, Fetched, FetchEnds, LocalWalkable, FreshSupply;
    var t := Next(s, step);
    StepKeepsInv(s, step);
    OthersStay(s, step, t);
    if step.Push? { CarefulPush(s, step.c, t); }
    CarefulStepClient(s, step);
  }

  lemma {:induction false} CarefulRunKeeps(s: State, steps: seq<Step>, t: State)
    requires CarefulInv(s) && CarefulRun(s, steps, t)
    ensures CarefulInv(t)
    decreases |steps|
  {
    hide CarefulInv, Enabled, Next, Careful;
    if steps != [] {
      CarefulStep(s, steps[0]);
      CarefulRunKeeps(Next(s, steps[0]), steps[1..], t);
    }
  }

  lemma CarefulStart(s: State)
    requires Init(s)
    ensures CarefulInv(s)
  {
    hide Ids, Inv, Anchored;
    InitInv(s);
    forall c | c in s.clients
      ensures Anchored(s.clients[c].replica)
    {
      AnchoredBlank(s.clients[c].replica);
    }
  }

  lemma AnchoredBlank(r: Replica)
    requires NothingIn(r)
    ensures Anchored(r)
  {
    hide Ids, Anchored, Segment;
    NothingHeld(r);
    AnchoredIs(r, [], []);
  }

  lemma CarefulServer(s: State)
    requires CarefulInv(s)
    ensures Tidy(s.server, s.chain)
  {
    hide Sound, Ids;
  }

  lemma CarefulClient(s: State, c: ClientId) returns (chain: seq<Transaction>)
    requires CarefulInv(s) && c in s.clients
    ensures Tidy(s.clients[c].replica, chain)
  {
    hide Sound, Ids, Anchored, PlaceOk, Segment;
    var p :| ClientOk(s, c, p);
    var r := s.clients[c].replica;
    PlaceHolds(s.chain, r, p);
    var prefix := s.chain[..p.n];
    chain := prefix + p.own;
    AnchoredFollows(r, prefix, p.own);
    assert s.chain == prefix + s.chain[p.n..];
    SoundConcat(prefix, s.chain[p.n..]);
    SoundConcat(prefix, p.own);
  }

  /** Over every run in which clients only correct what they have synchronized, whatever is lost or interrupted, the
      balance can be computed on the server and on every client. */
  lemma CarefulBalances(s: State, steps: seq<Step>, t: State)
    requires Init(s) && CarefulRun(s, steps, t)
    ensures BalanceEnds(t.server) && BalanceOf(t.server).Ok?
    ensures forall c :: c in t.clients ==>
              BalanceEnds(t.clients[c].replica) && BalanceOf(t.clients[c].replica).Ok?
  {
    hide CarefulInv, CarefulRun, Init, BalanceEnds, BalanceOf, Tidy;
    CarefulStart(s);
    CarefulRunKeeps(s, steps, t);
    CarefulServer(t);
    TidyComputes(t.server, t.chain);
    forall c | c in t.clients
      ensures BalanceEnds(t.clients[c].replica) && BalanceOf(t.clients[c].replica).Ok?
    {
      var chain := CarefulClient(t, c);
      TidyComputes(t.clients[c].replica, chain);
    }
  }

  // ---------- Runs that break the balance ----------

  // A client that enters a transaction and corrects it while another one, from another client, is already there.
  ghost predicate Script(v: Transaction, e: Transaction, w: Transaction, newId: nat -> Id) {
    && v.parent == [] == w.parent && e.parent == v.uuid && e.supersedes == v.uuid
    && !v.IsCorrection() && !e.deleted && !w.IsCorrection()
    && v.uuid != [] && e.uuid != [] && w.uuid != []
    && v.uuid != e.uuid && v.uuid != w.uuid && e.uuid != w.uuid
    && FreshSupply(newId, {v.uuid, e.uuid, w.uuid})
  }

  lemma TwoHeld(r: Replica, v: Transaction, e: Transaction)
    requires NothingIn(r) && v.uuid != [] && e.uuid != [] && v.uuid != e.uuid && v.parent == [] && e.parent == v.uuid
    ensures var after := Appended(Appended(r, v), e);
            && Holds(after, [], [v, e]) && after.log.Keys == {v.uuid, e.uuid}
            && after.account.latestSynchronizedTransaction == []
  {
    NothingHeld(r);
    HoldsAppend(r, [], [], v);
    assert [] + [v] == [v] && [v] + [e] == [v, e];
    HoldsAppend(Appended(r, v), [], [v], e);
  }

  ghost predicate NothingIn(r: Replica) {
    r.log == map[] && r.account.latestTransaction == [] && r.account.latestSynchronizedTransaction == []
  }

  lemma TwoIds(v: Transaction, e: Transaction)
    ensures Ids([v]) == {v.uuid} && Ids([v, e]) == {v.uuid, e.uuid}
  {
    assert Front([v]) == [] && Front([v, e]) == [v];
  }

  lemma TwoSound(v: Transaction, e: Transaction)
    ensures Sound([v]) <==> Follows(v, {})
    ensures Sound([v, e]) <==> Follows(v, {}) && Follows(e, {v.uuid})
  {
    TwoIds(v, e);
    assert Front([v]) == [] && Front([v, e]) == [v];
  }

  lemma RenamedPair(v: Transaction, e: Transaction, w: Transaction, newId: nat -> Id)
    ensures Renumbered([v, e], w.uuid, newId) ==
            [v.(uuid := newId(0), parent := w.uuid), e.(uuid := newId(1), parent := newId(0))]
  {
    assert Front([v]) == [] && Front([v, e]) == [v];
  }

  lemma ThreeSound(w: Transaction, v: Transaction, e: Transaction, ids: set<Id>)
    requires w.supersedes == [] == v.supersedes && e.supersedes != [] && e.supersedes !in ids
    requires {w.uuid, v.uuid} <= ids
    ensures NoStray([w, v, e], ids) && !Sound([w, v, e])
  {
    hide Ids;
    TwoIds(w, v);
    assert Front([w, v, e]) == [w, v] && Front([w, v]) == [w] && Front([w]) == [];
    assert NoStray([], ids) && NoStray([w], ids);
    assert NoStray([w, v], ids);
  }

  // What the rebase leaves: the correction still names the old id.
  lemma RebasedPair(r: Replica, v: Transaction, e: Transaction, w: Transaction, newId: nat -> Id)
    requires Script(v, e, w, newId) && Holds(r, [], [v, e]) && r.log.Keys == {v.uuid, e.uuid}
    ensures var after := DoReplicaAll(r, Rebased(r.account, [w], [v, e], newId).writes);
            BalanceEnds(after) && BalanceOf(after).Err?
  {
    hide BalanceEnds, BalanceOf, DoReplicaAll, Rebased, Sound, NoStray, Ids, Complete;
    var after := DoReplicaAll(r, Rebased(r.account, [w], [v, e], newId).writes);
    var v2, e2 := v.(uuid := newId(0), parent := w.uuid), e.(uuid := newId(1), parent := newId(0));
    PairChain(r, v, e, w, newId);
    ThreeSound(w, v2, e2, after.log.Keys);
    SoundExactly(after, [w, v2, e2]);
  }

  lemma PairChain(r: Replica, v: Transaction, e: Transaction, w: Transaction, newId: nat -> Id)
    requires Script(v, e, w, newId) && Holds(r, [], [v, e]) && r.log.Keys == {v.uuid, e.uuid}
    ensures var after := DoReplicaAll(r, Rebased(r.account, [w], [v, e], newId).writes);
            var v2, e2 := v.(uuid := newId(0), parent := w.uuid), e.(uuid := newId(1), parent := newId(0));
            && Complete(after.log, after.account.latestTransaction, [w, v2, e2])
            && after.log.Keys == {w.uuid, newId(0), newId(1)} && v.uuid !in after.log && [] !in after.log
  {
    hide Segment, DoReplicaAll, Rebased, Fresh, Ids, Consistent, Renumbered;
    var renamed := Renumbered([v, e], w.uuid, newId);
    RenamedPair(v, e, w, newId);
    OneTransaction(r.log, [], w);
    TwoIds(v, e);
    TwoIds(renamed[0], renamed[1]);
    SupplyWeaken(newId, {v.uuid, e.uuid, w.uuid}, r.log.Keys + Ids([w]));
    RebaseConverges(r, [], [v, e], [w], newId);
    RebasedKeys(r, [v, e], [w], newId);
    assert [] + [w] == [w] && [w] + renamed == [w, renamed[0], renamed[1]];
  }

  // Then another one enters v and e, and starts to synchronize.
  lemma ThenCorrects(s: State, c: ClientId, v: Transaction, e: Transaction, w: Transaction, newId: nat -> Id)
    returns (steps: seq<Step>, u: State)
    requires Inv(s) && c in s.clients && Blank(s.clients[c]) && Script(v, e, w, newId)
    requires s.chain == [w] && s.used == {w.uuid}
    ensures Run(s, steps, u) && c in u.clients && u.chain == [w] && u.used == {v.uuid, e.uuid, w.uuid}
    ensures u.clients[c] == s.clients[c].(replica := Appended(Appended(s.clients[c].replica, v), e), phase := Fetching,
                                          created := [v.Payload(), e.Payload()])
  {
    hide Holds, Ids, SentBy, Run, Segment, Inv, FreshSupply;
    HeadOfServer(s, w);
    var s1 := Next(s, Create(c, v));
    var s2 := Next(s1, Create(c, e));
    u := Next(s2, Begin(c));
    RunNothing(u);
    steps := RunFrom(s2, Begin(c), [], u);
    steps := RunFrom(s1, Create(c, e), steps, u);
    steps := RunFrom(s, Create(c, v), steps, u);
  }

  lemma PrepareConflict(s: State, c: ClientId, d: ClientId, v: Transaction, e: Transaction, w: Transaction,
                        newId: nat -> Id) returns (steps: seq<Step>, u: State)
    requires Init(s) && c in s.clients && d in s.clients && c != d && Script(v, e, w, newId)
    ensures Run(s, steps, u) && c in u.clients && u.chain == [w] && u.used == {v.uuid, e.uuid, w.uuid}
    ensures u.clients[c] == s.clients[c].(replica := Appended(Appended(s.clients[c].replica, v), e), phase := Fetching,
                                          created := [v.Payload(), e.Payload()])
  {
    hide Run, Inv, FreshSupply;
    var first, m := FirstSends(s, d, w);
    InitInv(s);
    RunKeepsInv(s, first, m);
    var second;
    second, u := ThenCorrects(m, c, v, e, w, newId);
    RunConcat(s, first, m, second, u);
    steps := first + second;
  }

  /** From the start, with both balances computable until then, a client that has corrected a transaction of its own
      rebases without error and then cannot compute its balance any more. */
  lemma RebaseBreaksBalance(s: State, c: ClientId, d: ClientId, v: Transaction, e: Transaction, w: Transaction,
                            newId: nat -> Id) returns (steps: seq<Step>, u: State)
    requires Init(s) && c in s.clients && d in s.clients && c != d && Script(v, e, w, newId)
    ensures Run(s, steps, u) && Enabled(u, Fetch(c, newId)) && Fetched(u.clients[c].replica, u.server, newId).Ok?
    ensures BalanceEnds(u.server) && BalanceOf(u.server).Ok?
    ensures BalanceEnds(u.clients[c].replica) && BalanceOf(u.clients[c].replica).Ok?
    ensures var after := Next(u, Fetch(c, newId)).clients[c].replica; BalanceEnds(after) && BalanceOf(after).Err?
  {
    hide Holds, Ids, SentBy, Inv, Run, LocalWalkable, Unsynchronized, FreshSupply, DoReplicaAll, Segment, Rebased;
    hide BalanceEnds, BalanceOf, Sound, FetchEnds, PlaceOk, Blocked, Fetched;
    steps, u := PrepareConflict(s, c, d, v, e, w, newId);
    InitInv(s);
    RunKeepsInv(s, steps, u);
    var r := u.clients[c].replica;
    TwoHeld(s.clients[c].replica, v, e);
    FetchAlwaysEnds(u, c);
    var p := NotBlockedPosition(u, c);
    PlaceHolds(u.chain, r, p);
    HoldsUnique(r, u.chain[..p.n], p.own, [], [v, e]);
    assert u.chain[p.n..] == [w];
    FetchSucceeds(u, c, newId, p);
    RebasedPair(r, v, e, w, newId);
    BothComputable(u, r, v, e, w);
  }

  lemma BothComputable(u: State, r: Replica, v: Transaction, e: Transaction, w: Transaction)
    requires Inv(u) && u.chain == [w] && Holds(r, [], [v, e]) && [] !in r.log
    requires !v.IsCorrection() && !w.IsCorrection() && e.supersedes == v.uuid && !e.deleted
    ensures BalanceEnds(u.server) && BalanceOf(u.server).Ok? && BalanceEnds(r) && BalanceOf(r).Ok?
  {
    hide Segment, Ids, Sound, BalanceEnds, BalanceOf, SentBy, ClientOk;
    TwoSound(v, e);
    TwoSound(w, e);
    assert [] + [v, e] == [v, e];
    TidyComputes(u.server, [w]);
    TidyComputes(r, [v, e]);
  }

  // The same pull, stopped when it has written the account but not removed anything.
  lemma StoppedPair(r: Replica, v: Transaction, e: Transaction, w: Transaction, newId: nat -> Id)
    requires Script(v, e, w, newId) && Holds(r, [], [v, e]) && r.log == map[v.uuid := v][e.uuid := e]
    requires BalanceEnds(r) && BalanceOf(r).Ok? && w.parent == []
    ensures 4 <= |Rebased(r.account, [w], [v, e], newId).writes|
    ensures var after := Interrupted(r, [v, e], [w], newId, 4);
            BalanceEnds(after) && BalanceOf(after).Ok?
  {
    hide Segment, BalanceEnds, BalanceOf, Rebased, Fresh, Consistent, Interrupted, Ids, Kept, Alike, AllTraced, Sound;
    PullSize(r, [v, e], [w], newId);
    var after := Interrupted(r, [v, e], [w], newId, 4);
    PairPullable(r, v, e, w, newId);
    RebaseIsRebasing(r, [], [v, e], [w], newId, 0);
    var mid := Before(after, [w]);
    assert [] + [w] == [w];
    BeforeChain(after, [w], Renamed([v, e], [w], newId));
    assert [w][0] == w && AllTraced(after.log, [w]) by { PlainTraced(after.log, [w]); }
    ChainBalance(mid, [w]);
    RebasedBalanceOk(r, after, [], [v, e], [w], Renamed([v, e], [w], newId), 0);
    SparesNone([v, e]);
  }

  lemma PlainTraced(log: Log, txs: seq<Transaction>)
    requires forall i :: 0 <= i < |txs| ==> !txs[i].IsCorrection()
    ensures AllTraced(log, txs)
  {}

  lemma SparesNone(own: seq<Transaction>)
    ensures Spares(own, 0)
  {
    assert own[..0] == [];
  }

  lemma PairPullable(r: Replica, v: Transaction, e: Transaction, w: Transaction, newId: nat -> Id)
    requires Script(v, e, w, newId) && Holds(r, [], [v, e]) && r.log == map[v.uuid := v][e.uuid := e]
    ensures Pullable(r, [], [v, e], [w], newId)
  {
    hide Segment, Fresh, Ids, Consistent;
    TwoIds(v, e);
    TwoIds(w, e);
    OneTransaction(r.log, [], w);
  }

  lemma TwoLog(r: Replica, v: Transaction, e: Transaction)
    requires r.log == map[]
    ensures Appended(Appended(r, v), e).log == map[v.uuid := v][e.uuid := e]
  {}

  // Pushed after that, the correction names nothing the server has.
  lemma PushedPair(r: Replica, server: Replica, v: Transaction, e: Transaction, w: Transaction, newId: nat -> Id)
    requires Script(v, e, w, newId) && w.supersedes == []
    requires var v2, e2 := v.(uuid := newId(0), parent := w.uuid), e.(uuid := newId(1), parent := newId(0));
             Holds(r, [w], [v2, e2])
    requires Complete(server.log, server.account.latestTransaction, [w]) && server.log.Keys == {w.uuid}
    ensures LocalWalkable(r) && BalanceEnds(Sync.Push(r, server).server) && BalanceOf(Sync.Push(r, server).server).Err?
  {
    hide Segment, Fresh, Ids, Consistent, Sound, NoStray, BalanceEnds, BalanceOf, Sync.Push;
    var v2, e2 := v.(uuid := newId(0), parent := w.uuid), e.(uuid := newId(1), parent := newId(0));
    var chain := [w, v2, e2];
    assert [w] + [v2, e2] == chain;
    TwoIds(w, v2);
    TwoIds(v2, e2);
    IdsConcat([w], [v2, e2]);
    ThreeSound(w, v2, e2, Ids(chain));
    PushedSound(r, server, [w], [v2, e2]);
  }

  lemma PushedSound(local: Replica, server: Replica, common: seq<Transaction>, own: seq<Transaction>)
    requires Holds(local, common, own) && NoStray(common + own, Ids(common + own)) && !Sound(common + own)
    requires Complete(server.log, server.account.latestTransaction, common) && server.log.Keys == Ids(common)
    ensures LocalWalkable(local) && BalanceEnds(Sync.Push(local, server).server)
    ensures BalanceOf(Sync.Push(local, server).server).Err?
  {
    hide Segment, Ids, Sound, Sync.Push, BalanceOf, BalanceEnds, NoStray;
    PushedExactly(local, server, common, own);
  }

  /** A run from the start in which a push succeeds and the server cannot compute the balance that the client can: the
      client's pull was stopped while it removed its old transactions, and it still has what the server does not. */
  lemma StoppedPullHidesIt(s: State, c: ClientId, d: ClientId, v: Transaction, e: Transaction, w: Transaction,
                           newId: nat -> Id) returns (steps: seq<Step>, u: State, more: seq<Step>, t: State)
    requires Init(s) && c in s.clients && d in s.clients && c != d && Script(v, e, w, newId)
    ensures Run(s, steps, u) && Run(u, more, t) && c in u.clients
    ensures forall i :: 0 <= i < |more| ==> SyncStep(more[i], c)
    ensures BalanceEnds(u.server) && BalanceOf(u.server).Ok?
    ensures BalanceEnds(u.clients[c].replica) && BalanceOf(u.clients[c].replica).Ok?
    ensures BalanceEnds(t.server) && BalanceOf(t.server).Err?
  {
    hide Holds, Ids, SentBy, Inv, Run, LocalWalkable, Unsynchronized, FreshSupply, DoReplicaAll, Segment, Rebased;
    hide BalanceEnds, BalanceOf, Sound, FetchEnds, PlaceOk, Blocked, Fetched, Sync.Push, Partial;
    var first, m := PrepareConflict(s, c, d, v, e, w, newId);
    InitInv(s);
    RunKeepsInv(s, first, m);
    var r := m.clients[c].replica;
    TwoHeld(s.clients[c].replica, v, e);
    TwoLog(s.clients[c].replica, v, e);
    FetchAlwaysEnds(m, c);
    var p := NotBlockedPosition(m, c);
    PlaceHolds(m.chain, r, p);
    HoldsUnique(r, m.chain[..p.n], p.own, [], [v, e]);
    assert m.chain[p.n..] == [w];
    FetchSucceeds(m, c, newId, p);
    BothComputable(m, r, v, e, w);
    StoppedPair(r, v, e, w, newId);
    PartialIff(r.account, [w], [v, e], newId, 4);
    u := Next(m, Stop(c, newId, 4));
    StepKeepsInv(m, Stop(c, newId, 4));
    RunNothing(u);
    steps := RunFrom(m, Stop(c, newId, 4), [], u);
    RunConcat(s, first, m, steps, u);
    steps := first + steps;
    more, t := StoppedThenPushes(m, u, c, v, e, w, newId);
  }

  lemma StoppedThenPushes(m: State, u: State, c: ClientId, v: Transaction, e: Transaction, w: Transaction,
                          newId: nat -> Id) returns (steps: seq<Step>, t: State)
    requires Inv(m) && Inv(u) && c in m.clients && c in u.clients && Script(v, e, w, newId)
    requires Holds(m.clients[c].replica, [], [v, e]) && m.clients[c].replica.log.Keys == {v.uuid, e.uuid}
    requires u.chain == [w] && u.clients[c].phase == Idle
    requires 4 <= |Rebased(m.clients[c].replica.account, [w], [v, e], newId).writes|
    requires u.clients[c].replica == Interrupted(m.clients[c].replica, [v, e], [w], newId, 4)
    ensures Run(u, steps, t) && forall i :: 0 <= i < |steps| ==> SyncStep(steps[i], c)
    ensures BalanceEnds(t.server) && BalanceOf(t.server).Err?
  {
    hide Ids, SentBy, Run, Unsynchronized, FreshSupply, DoReplicaAll, Segment, Rebased, LocalWalkable, ClientOk;
    hide BalanceEnds, BalanceOf, FetchEnds, Interrupted, Sync.Push, Fresh, Consistent, PlaceOk, Complete, Renumbered;
    var local, r := m.clients[c].replica, u.clients[c].replica;
    OneTransaction(local.log, [], w);
    TwoIds(v, e);
    SupplyWeaken(newId, {v.uuid, e.uuid, w.uuid}, local.log.Keys + Ids([w]));
    InterruptedPullKeepsAChain(local, [], [v, e], [w], newId, 4);
    RenamedPair(v, e, w, newId);
    assert [] + [w] == [w];
    HeadOfServer(u, w);
    var u1 := Next(u, Begin(c));
    StepKeepsInv(u, Begin(c));
    PushedPair(r, u.server, v, e, w, newId);
    var rest;
    rest, t := PushIsARun(u1, c);
    steps := RunFrom(u, Begin(c), rest, t);
  }

  // ---------- What balances show when several clients correct ----------

  /** Over every careful run, everyone's balance on the server is what the visible transactions contribute, minus what
      several clients' corrections of the same transaction subtract again. */
  lemma CarefulShows(s: State, steps: seq<Step>, t: State, p: Id)
    requires Init(s) && CarefulRun(s, steps, t) && p in Members(t.server.account)
    ensures BalanceEnds(t.server) && BalanceOf(t.server).Ok? && p in BalanceOf(t.server).value
    ensures BalanceOf(t.server).value[p] ==
            Contributed(Flatten(Reversed(t.chain), {}), p) - Redundant(t.server.log, Reversed(t.chain), p)
  {
    hide CarefulInv, CarefulRun, Init, BalanceEnds, BalanceOf, Tidy, Flatten, Redundant;
    CarefulStart(s);
    CarefulRunKeeps(s, steps, t);
    CarefulServer(t);
    TidyBalance(t.server, t.chain, p);
  }

  lemma {:induction false} SyncIsCareful(s: State, steps: seq<Step>, t: State, c: ClientId)
    requires Run(s, steps, t) && forall i :: 0 <= i < |steps| ==> SyncStep(steps[i], c)
    ensures CarefulRun(s, steps, t)
    decreases |steps|
  {
    hide Next, Enabled;
    if steps != [] {
      assert forall i :: 0 <= i < |steps| - 1 ==> steps[1..][i] == steps[i + 1];
      SyncIsCareful(Next(s, steps[0]), steps[1..], t, c);
    }
  }

  lemma {:induction false} CarefulConcat(s: State, first: seq<Step>, m: State, second: seq<Step>, t: State)
    requires CarefulRun(s, first, m) && CarefulRun(m, second, t)
    ensures CarefulRun(s, first + second, t)
    decreases |first|
  {
    hide Enabled, Next, Careful;
    if first == [] {
      assert first + second == second;
    } else {
      assert (first + second)[1..] == first[1..] + second;
      CarefulConcat(Next(s, first[0]), first[1..], m, second, t);
    }
  }

  // A client at the end of the server's chain enters a transaction and synchronizes.
  lemma EntersAndSyncs(s: State, c: ClientId, prefix: seq<Transaction>, tx: Transaction)
    returns (steps: seq<Step>, t: State)
    requires Inv(s) && c in s.clients && s.clients[c].phase == Idle && !s.clients[c].lost && !s.clients[c].stopped
    requires Holds(s.clients[c].replica, prefix, []) && tx.parent == s.clients[c].replica.account.latestTransaction
    requires tx.uuid != [] && tx.uuid !in s.used && Follows(tx, Ids(prefix))
    ensures CarefulRun(s, steps, t) && Inv(t) && t.clients.Keys == s.clients.Keys
    ensures forall d :: d in s.clients && d != c ==> t.clients[d] == s.clients[d]
    ensures t.clients[c].phase == Idle && !t.clients[c].lost && !t.clients[c].stopped
    ensures Holds(t.clients[c].replica, t.chain, []) && s.chain <= t.chain
    ensures Payloads(t.chain[|s.chain|..]) == [tx.Payload()]
  {
    hide Holds, Inv, Segment, LocalWalkable, Unsynchronized, Run, Blocked, Ids, CarefulRun, Follows;
    var r := s.clients[c].replica;
    var m := Next(s, Create(c, tx));
    StepKeepsInv(s, Create(c, tx));
    BlockedExactly(m, c);
    LogIsUsed(s, c);
    HoldsAppend(r, prefix, [], tx);
    HoldsOwn(Appended(r, tx), prefix, [] + [tx]);
    var rest;
    rest, t := SyncAlone(m, c);
    SyncIsCareful(m, rest, t, c);
    BlockedExactly(t, c);
    PayloadOne(tx);
    CarefulCreate(s, c, tx, prefix, m, rest, t);
    steps := [Create(c, tx)] + rest;
  }

  lemma LogIsUsed(s: State, c: ClientId)
    requires Inv(s) && c in s.clients
    ensures s.clients[c].replica.log.Keys <= s.used
  {
    hide Ids, PlaceOk, SentBy, Complete;
  }

  lemma PayloadOne(tx: Transaction)
    ensures Payloads([] + [tx]) == [tx.Payload()]
  {}

  lemma CarefulCreate(s: State, c: ClientId, tx: Transaction, prefix: seq<Transaction>, m: State, rest: seq<Step>,
                      t: State)
    requires Enabled(s, Create(c, tx)) && m == Next(s, Create(c, tx)) && CarefulRun(m, rest, t)
    requires Holds(s.clients[c].replica, prefix, []) && Follows(tx, Ids(prefix))
    ensures CarefulRun(s, [Create(c, tx)] + rest, t)
  {
    hide Holds, Ids, Follows;
    var steps := [Create(c, tx)] + rest;
    assert steps[1..] == rest;
    assert Careful(s, Create(c, tx));
  }

  lemma UnusedId(used: set<Id>) returns (id: Id)
    ensures id != [] && id !in used
  {
    var newId := SupplyExists(used);
    id := newId(0);
  }

  lemma PayloadAt(older: seq<Transaction>, chain: seq<Transaction>, tx: Transaction)
    requires older <= chain && Payloads(chain[|older|..]) == [tx.Payload()]
    ensures |chain| == |older| + 1 && chain == older + [Last(chain)] && Last(chain).Payload() == tx.Payload()
  {
    var newer := chain[|older|..];
    assert |Payloads(newer)| == |newer|;
    assert Payloads(newer)[0] == newer[0].Payload();
  }

  /** Two clients that edit the same transaction: the server's balance then differs from what the visible transactions
      contribute by what that transaction had contributed. */
  lemma TwoEditors(s: State, c: ClientId, d: ClientId, v0: Transaction, e0: Transaction, f0: Transaction, p: Id)
    returns (steps: seq<Step>, t: State)
    requires Init(s) && c in s.clients && d in s.clients && c != d
    requires !v0.IsCorrection() && !e0.deleted && !f0.deleted
    ensures CarefulRun(s, steps, t) && |t.chain| == 3 && t.chain[0].Payload() == v0.Payload()
    ensures t.chain[1].supersedes == t.chain[2].supersedes == t.chain[0].uuid
    ensures p in Members(t.server.account) ==>
              && BalanceEnds(t.server) && BalanceOf(t.server).Ok? && p in BalanceOf(t.server).value
              && BalanceOf(t.server).value[p] == Contributed(Flatten(Reversed(t.chain), {}), p) - Contribution(v0, p)
  {
    hide Holds, Inv, Segment, LocalWalkable, Unsynchronized, Run, Blocked, Ids, CarefulRun, BalanceOf, BalanceEnds;
    hide Flatten, Contribution, Contributed;
    InitInv(s);
    NothingHeld(s.clients[c].replica);
    NothingHeld(s.clients[d].replica);
    // c enters v and synchronizes.
    var idV := UnusedId(s.used);
    var v := v0.(uuid := idV, parent := []);
    var a, s1 := EntersAndSyncs(s, c, [], v);
    PayloadAt([], s1.chain, v);
    var v1 := Last(s1.chain);
    assert s1.chain == [v1];
    OneId(v1);
    // d synchronizes, and enters and sends f.
    BlockedExactly(s1, d);
    NothingUnsent(s1.clients[d].replica);
    var b, s2 := SyncAlone(s1, d);
    SyncIsCareful(s1, b, s2, d);
    BlockedExactly(s2, d);
    NoPayloads(s1.chain, s2.chain);
    var idF := UnusedId(s2.used);
    var f := f0.(uuid := idF, parent := s2.clients[d].replica.account.latestTransaction, supersedes := v1.uuid);
    var e1, s3 := EntersAndSyncs(s2, d, [v1], f);
    PayloadAt([v1], s3.chain, f);
    // c has not synchronized since, and edits v too.
    var idE := UnusedId(s3.used);
    var e := e0.(uuid := idE, parent := s3.clients[c].replica.account.latestTransaction, supersedes := v1.uuid);
    var g, s4 := EntersAndSyncs(s3, c, [v1], e);
    PayloadAt(s3.chain, s4.chain, e);
    t := s4;
    CarefulConcat(s2, e1, s3, g, s4);
    CarefulConcat(s1, b, s2, e1 + g, s4);
    CarefulConcat(s, a, s1, b + (e1 + g), s4);
    steps := a + (b + (e1 + g));
    SamePayload(v, v1);
    SamePayload(f, Last(s3.chain));
    SamePayload(e, Last(s4.chain));
    if p in Members(t.server.account) {
      EditedTwice(t, v1, Last(s3.chain), Last(s4.chain), p);
      SameContribution(v0, v1, p);
    }
  }

  lemma OneId(tx: Transaction)
    ensures Ids([tx]) == {tx.uuid}
  {
    assert Front([tx]) == [];
  }

  lemma NothingUnsent(r: Replica)
    requires Holds(r, [], [])
    ensures LocalWalkable(r) && Unsynchronized(r) == Ok([])
  {
    hide Segment, Ids;
    HoldsOwn(r, [], []);
  }

  lemma NoPayloads(older: seq<Transaction>, chain: seq<Transaction>)
    requires older <= chain && Payloads(chain[|older|..]) == Payloads([])
    ensures chain == older
  {
    assert |Payloads(chain[|older|..])| == |chain[|older|..]|;
  }

  lemma SameContribution(t: Transaction, u: Transaction, p: Id)
    requires u.Payload() == t.Payload()
    ensures Contribution(u, p) == Contribution(t, p)
  {
    SamePayload(t, u);
  }

  lemma EditedTwice(s: State, v: Transaction, e: Transaction, f: Transaction, p: Id)
    requires Inv(s) && s.chain == [v, e, f] && p in Members(s.server.account)
    requires !v.IsCorrection() && !e.deleted && !f.deleted && e.supersedes == v.uuid == f.supersedes
    ensures BalanceEnds(s.server) && BalanceOf(s.server).Ok? && p in BalanceOf(s.server).value
    ensures BalanceOf(s.server).value[p] == Contributed(Flatten(Reversed(s.chain), {}), p) - Contribution(v, p)
  {
    hide Segment, ClientOk, Ids, Flatten, Contribution, Contributed, BalanceEnds, BalanceOf, NewIds;
    var head := s.server.account.latestTransaction;
    CompleteUnique(s.server.log, head, s.chain, s.chain);
    ChainHasNewIds(s.server.log, [], s.chain, head);
    assert Reversed(s.chain) == [f, e, v];
    TwoDevicesDisagree(s.server.log, v, e, f, p);
    BalanceNet(s.server, s.chain, p);
  }
}
