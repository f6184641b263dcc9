/**
 Runs in which clients only correct transactions of their own chain, synchronized or not.
 */
module Corrections {
  import opened Model
  import opened Store
  import opened Chain
  import opened Sync
  import opened Convergence
  import opened Crash
  import opened Protocol
  import opened Runs
  import opened Balance
  import opened Tracing
  import opened Rebalance

  ghost predicate Correcting(s: State, step: Step)
    requires Enabled(s, step)
  {
    step.Create? && step.tx.supersedes != [] ==>
      exists chain :: && Complete(s.clients[step.c].replica.log,
                                  s.clients[step.c].replica.account.latestTransaction, chain)
                      && step.tx.supersedes in Ids(chain)
  }

  ghost predicate CorrectingRun(s: State, steps: seq<Step>, t: State)
    decreases |steps|
  {
    if steps == [] then t == s
    else Enabled(s, steps[0]) && Correcting(s, steps[0]) && CorrectingRun(Next(s, steps[0]), steps[1..], t)
  }

  // ---------- What such runs keep ----------

  ghost function Own(r: Replica): seq<Transaction> {
    if LocalWalkable(r) && Unsynchronized(r).Ok? then Unsynchronized(r).value else []
  }

  lemma OwnIs(r: Replica, prefix: seq<Transaction>, own: seq<Transaction>)
    requires Holds(r, prefix, own)
    ensures Own(r) == own
  {
    hide Segment, Ids;
    HoldsOwn(r, prefix, own);
  }

  // The ids of transactions that are on the server or may still get there.
  ghost function Live(s: State): set<Id> {
    Ids(s.chain) + set c, x | c in s.clients && x in Ids(Own(s.clients[c].replica)) :: x
  }

  // Whatever the transactions supersede has been used as an id.
  ghost predicate Used(txs: seq<Transaction>, used: set<Id>) {
    forall i :: 0 <= i < |txs| ==> txs[i].supersedes == [] || txs[i].supersedes in used
  }

  ghost predicate UsedLog(log: Log, used: set<Id>) {
    forall x :: x in log ==> log[x].supersedes == [] || log[x].supersedes in used
  }

  // Whatever the log's transactions supersede is in the log too, or is not alive.
  ghost predicate ClosedLog(log: Log, live: set<Id>) {
    forall x :: x in log ==> log[x].supersedes == [] || log[x].supersedes in log || log[x].supersedes !in live
  }

  // Only own transactions supersede one of them.
  ghost predicate OwnLast(log: Log, own: seq<Transaction>) {
    forall x :: x in log && x !in Ids(own) ==> log[x].supersedes !in Ids(own)
  }

  ghost predicate WholeArranged(log: Log) { exists all :: Arranged(log, all) && Ids(all) == log.Keys }

  ghost predicate Known(r: Replica, prefix: seq<Transaction>, own: seq<Transaction>, live: set<Id>, used: set<Id>) {
    && NoStray(prefix + own, live) && UsedLog(r.log, used) && ClosedLog(r.log, live) && OwnLast(r.log, own)
    && WholeArranged(r.log)
  }

  ghost predicate KnownClient(s: State, c: ClientId)
    requires c in s.clients
  {
    var log := s.clients[c].replica.log;
    && UsedLog(log, s.used) && WholeArranged(log)
    && (!s.clients[c].stopped ==>
      exists p :: ClientAt(s, c, p) && Known(s.clients[c].replica, s.chain[..p.n], p.own, Live(s), s.used))
  }

  ghost predicate ClientAt(s: State, c: ClientId, p: Position)
    requires c in s.clients
  {
    |s.owners| == |s.chain| && ClientOk(s, c, p) && p.n <= |s.chain|
  }

  ghost predicate KnownInv(s: State) {
    && Inv(s) && NoStray(s.chain, Live(s)) && Used(s.chain, s.used)
    && forall c :: c in s.clients ==> KnownClient(s, c)
  }

  // ---------- What a step adds is new ----------

  // The state after a step of client c, in which nothing has come alive but new ids.
  ghost predicate Grown(s: State, t: State, c: ClientId) {
    && c in s.clients && t.clients.Keys == s.clients.Keys
    && (forall d :: d in s.clients && d != c ==> t.clients[d] == s.clients[d])
    && s.used <= t.used && Live(t) <= Live(s) + (t.used - s.used) && [] !in t.used
  }

  lemma LiveGrows(s: State, t: State, c: ClientId)
    requires c in s.clients && t.clients.Keys == s.clients.Keys && s.used <= t.used && [] !in t.used
    requires forall d :: d in s.clients && d != c ==> t.clients[d] == s.clients[d]
    requires Ids(t.chain) <= Live(s)
    requires Ids(Own(t.clients[c].replica)) <= Live(s) + (t.used - s.used)
    ensures Grown(s, t, c)
  {
    hide Ids, Own;
  }

  lemma OwnLives(s: State, c: ClientId)
    requires c in s.clients
    ensures Ids(Own(s.clients[c].replica)) <= Live(s) && Ids(s.chain) <= Live(s)
  {
    hide Ids, Own;
  }

  lemma {:induction false} NoStrayLives(txs: seq<Transaction>, live: set<Id>, more: set<Id>, used: set<Id>)
    requires NoStray(txs, live) && Used(txs, used) && more !! used && [] !in more
    ensures NoStray(txs, live + more)
  {
    hide Ids;
    if txs != [] {
      assert forall i :: 0 <= i < |txs| - 1 ==> Front(txs)[i] == txs[i];
      NoStrayLives(Front(txs), live, more, used);
      assert txs[|txs| - 1] == Last(txs);
    }
  }

  lemma NoStrayGrown(s: State, t: State, c: ClientId, txs: seq<Transaction>)
    requires Grown(s, t, c) && NoStray(txs, Live(s)) && Used(txs, s.used)
    ensures NoStray(txs, Live(t))
  {
    hide Live, NoStray;
    NoStrayLives(txs, Live(s), t.used - s.used, s.used);
    NoStrayWeaken(txs, Live(s) + (t.used - s.used), Live(t));
  }

  lemma UsedChain(r: Replica, chain: seq<Transaction>, used: set<Id>)
    requires Complete(r.log, r.account.latestTransaction, chain) && UsedLog(r.log, used)
    ensures Used(chain, used)
  {
    hide Segment;
    forall i | 0 <= i < |chain|
      ensures chain[i].supersedes == [] || chain[i].supersedes in used
    {
      StoredAt(r.log, [], chain, r.account.latestTransaction, i);
    }
  }

  lemma KnownGrown(s: State, t: State, c: ClientId, r: Replica, prefix: seq<Transaction>, own: seq<Transaction>)
    requires Grown(s, t, c) && Holds(r, prefix, own) && Known(r, prefix, own, Live(s), s.used)
    ensures Known(r, prefix, own, Live(t), t.used)
  {
    hide Live, NoStray, Ids, WholeArranged, OwnLast, Segment;
    UsedChain(r, prefix + own, s.used);
    NoStrayGrown(s, t, c, prefix + own);
  }

  lemma ClientHolds(s: State, c: ClientId, p: Position)
    requires c in s.clients && ClientAt(s, c, p)
    ensures p.n <= |s.chain| && Holds(s.clients[c].replica, s.chain[..p.n], p.own)
    ensures Own(s.clients[c].replica) == p.own
  {
    hide Ids, Holds, SentBy, Own;
    OwnIs(s.clients[c].replica, s.chain[..p.n], p.own);
  }

  // The other clients stay known: their positions may move along, but not what they hold.
  lemma OtherKnown(s: State, t: State, c: ClientId, d: ClientId)
    requires Grown(s, t, c) && d in s.clients && d != c && KnownClient(s, d) && Inv(t)
    ensures KnownClient(t, d)
  {
    hide Ids, Holds, SentBy, Live, Known, Inv, ClientOk, PlaceOk, WholeArranged;
    if !s.clients[d].stopped {
      var p :| ClientAt(s, d, p) && Known(s.clients[d].replica, s.chain[..p.n], p.own, Live(s), s.used);
      ClientHolds(s, d, p);
      KnownGrown(s, t, c, s.clients[d].replica, s.chain[..p.n], p.own);
      var q := AnyPosition(t, d);
      ClientHolds(t, d, q);
      HoldsUnique(s.clients[d].replica, s.chain[..p.n], p.own, t.chain[..q.n], q.own);
    }
  }

  lemma AnyPosition(s: State, c: ClientId) returns (p: Position)
    requires Inv(s) && c in s.clients
    ensures ClientAt(s, c, p)
  {
    hide Holds, Ids, SentBy;
    p :| ClientOk(s, c, p);
    BoundsOk(s.chain, s.clients[c].replica, p);
  }

  lemma KnownAt(s: State, c: ClientId, p: Position)
    requires Inv(s) && c in s.clients && ClientAt(s, c, p)
    requires Known(s.clients[c].replica, s.chain[..p.n], p.own, Live(s), s.used)
    ensures KnownClient(s, c)
  {
    hide Inv, ClientAt, Live, NoStray, ClosedLog, OwnLast, WholeArranged, UsedLog;
  }

  lemma KnownHolds(s: State, c: ClientId, prefix: seq<Transaction>, own: seq<Transaction>)
    requires Inv(s) && c in s.clients && Holds(s.clients[c].replica, prefix, own)
    requires Known(s.clients[c].replica, prefix, own, Live(s), s.used)
    ensures KnownClient(s, c)
  {
    hide Inv, ClientAt, Known, Live, Holds;
    var p := AnyPosition(s, c);
    ClientHolds(s, c, p);
    HoldsUnique(s.clients[c].replica, prefix, own, s.chain[..p.n], p.own);
    KnownAt(s, c, p);
  }

  // It is enough to look at the server's chain and at the client that moves.
  lemma KnownStep(s: State, t: State, c: ClientId)
    requires KnownInv(s) && Inv(t) && Grown(s, t, c)
    requires t.chain == s.chain || (NoStray(t.chain, Live(s)) && Used(t.chain, s.used))
    requires KnownClient(t, c)
    ensures KnownInv(t)
  {
    hide Inv, KnownClient, Live, NoStray;
    NoStrayGrown(s, t, c, t.chain);
    forall d | d in t.clients
      ensures KnownClient(t, d)
    {
      if d != c { OtherKnown(s, t, c, d); }
    }
  }

  lemma KnownPosition(s: State, c: ClientId) returns (p: Position)
    requires KnownInv(s) && c in s.clients && !s.clients[c].stopped
    ensures ClientAt(s, c, p) && p.n <= |s.chain| && ClientOk(s, c, p)
    ensures Holds(s.clients[c].replica, s.chain[..p.n], p.own) && Own(s.clients[c].replica) == p.own
    ensures Known(s.clients[c].replica, s.chain[..p.n], p.own, Live(s), s.used)
    ensures UsedLog(s.clients[c].replica.log, s.used)
  {
    hide Ids, Holds, Live, NoStray, Own, ClientOk, Inv, WholeArranged;
    assert KnownClient(s, c);
    p :| ClientAt(s, c, p) && Known(s.clients[c].replica, s.chain[..p.n], p.own, Live(s), s.used);
    ClientHolds(s, c, p);
  }

  // ---------- Steps that leave the client's store alone ----------

  lemma SameReplica(s: State, t: State, c: ClientId)
    requires KnownInv(s) && Inv(t) && c in s.clients && t.clients.Keys == s.clients.Keys
    requires t.clients[c].replica == s.clients[c].replica && t.clients[c].stopped == s.clients[c].stopped
    requires forall d :: d in s.clients && d != c ==> t.clients[d] == s.clients[d]
    requires s.used <= t.used && [] !in t.used && Ids(t.chain) <= Live(s)
    requires t.chain == s.chain || (NoStray(t.chain, Live(s)) && Used(t.chain, s.used))
    ensures KnownInv(t)
  {
    hide Inv, Live, NoStray, Ids, Holds, Known, ClientAt, Own, WholeArranged;
    OwnLives(s, c);
    LiveGrows(s, t, c);
    assert KnownClient(s, c);
    if !t.clients[c].stopped {
      var p := KnownPosition(s, c);
      KnownGrown(s, t, c, s.clients[c].replica, s.chain[..p.n], p.own);
      KnownHolds(t, c, s.chain[..p.n], p.own);
    }
    KnownStep(s, t, c);
  }

  lemma UsedOk(s: State)
    requires Inv(s)
    ensures [] !in s.used && |s.owners| == |s.chain| && Ids(s.chain) <= s.used
    ensures forall c :: c in s.clients ==> s.clients[c].replica.log.Keys <= s.used
  {
    hide Ids, PlaceOk, SentBy, Complete;
  }

  lemma PushKnown(s: State, c: ClientId, t: State)
    requires Enabled(s, Push(c)) && t == AfterPush(s, c)
    requires KnownInv(s)
    ensures KnownInv(t)
  {
    hide Ids, Holds, SentBy, Live, NoStray, Known, DoReplicaAll, Receive, LocalWalkable, Unsynchronized, PlaceOk;
    hide Complete;
    hide Own, KnownClient, UsedLog;
    StepKeepsInv(s, Push(c));
    UsedOk(s);
    OwnLives(s, c);
    if t.chain != s.chain {
      var p := KnownPosition(s, c);
      PlaceOwn(s.chain, s.clients[c].replica, p);
      BoundsOk(s.chain, s.clients[c].replica, p);
      PushAccepted(s, c, p);
      assert s.chain[..p.n] == s.chain;
      KnownParts(s.clients[c].replica, s.chain, p.own, Live(s), s.used);
      IdsConcat(s.chain, p.own);
    }
    SameReplica(s, t, c);
  }

  lemma KnownParts(r: Replica, prefix: seq<Transaction>, own: seq<Transaction>, live: set<Id>, used: set<Id>)
    requires Holds(r, prefix, own) && Known(r, prefix, own, live, used)
    ensures NoStray(prefix + own, live) && Used(prefix + own, used)
  {
    hide NoStray, Ids, Segment;
    UsedChain(r, prefix + own, used);
  }

  lemma RecordKnown(s: State, c: ClientId)
    requires KnownInv(s) && Enabled(s, Record(c))
    ensures KnownInv(Next(s, Record(c)))
  {
    hide Ids, Holds, SentBy, Live, NoStray, PlaceOk, Complete, WholeArranged, Own, Inv, UsedLog, ClosedLog, Grown;
    StepKeepsInv(s, Record(c));
    var t := Next(s, Record(c));
    UsedOk(s);
    NotStopped(s, c);
    var p := KnownPosition(s, c);
    BoundsOk(s.chain, s.clients[c].replica, p);
    PlaceRecorded(s.chain, s.clients[c].replica, p);
    var r, prefix := t.clients[c].replica, s.chain[..p.n + p.landed];
    RecordedHolds(s.chain, r, p);
    OwnIs(r, prefix, []);
    NoIds();
    OwnLives(s, c);
    LiveGrows(s, t, c);
    assert s.chain == prefix + s.chain[p.n + p.landed..] && prefix + [] == prefix;
    NoStrayConcat(prefix, s.chain[p.n + p.landed..], Live(s));
    KnownGrown(s, t, c, r, prefix, []);
    KnownHolds(t, c, prefix, []);
    KnownStep(s, t, c);
  }

  // A client that is synchronizing has not been interrupted before, unless it is about to be refused.
  lemma NotStopped(s: State, c: ClientId)
    requires Inv(s) && c in s.clients && (s.clients[c].phase == Sent || s.clients[c].phase == Pushing)
    ensures !s.clients[c].stopped && !s.clients[c].lost
  {
    hide Ids, Holds, SentBy, PlaceOk;
    var p :| ClientOk(s, c, p);
  }

  lemma RecordedHolds(chain: seq<Transaction>, r: Replica, p: Position)
    requires p.n + p.landed <= |chain| && PlaceOk(chain, r, Position(p.n + p.landed, [], 0, 0))
    ensures Holds(r, chain[..p.n + p.landed], [])
  {
    hide Holds, Ids;
  }

  // ---------- Entering a transaction ----------

  lemma CreateKnown(s: State, c: ClientId, tx: Transaction)
    requires KnownInv(s) && Enabled(s, Create(c, tx)) && Correcting(s, Create(c, tx))
    ensures KnownInv(AfterCreate(s, c, tx))
  {
    hide Ids, Holds, SentBy, Live, NoStray, PlaceOk, Complete, Known, Own, Inv, ClientOk;
    StepKeepsInv(s, Create(c, tx));
    var t, r := AfterCreate(s, c, tx), s.clients[c].replica;
    UsedOk(s);
    UsedOk(t);
    var p := AnyPosition(s, c);
    ClientHolds(s, c, p);
    var prefix := s.chain[..p.n];
    HoldsAppend(r, prefix, p.own, tx);
    OwnIs(Appended(r, tx), prefix, p.own + [tx]);
    IdsConcat(p.own, [tx]);
    OneTransaction(map[], tx.parent, tx);
    OwnLives(s, c);
    LiveGrows(s, t, c);
    if !t.clients[c].stopped {
      var q := KnownPosition(s, c);
      HoldsUnique(r, prefix, p.own, s.chain[..q.n], q.own);
      CorrectingOwn(r, prefix, p.own, tx, s, c);
      KnownGrown(s, t, c, r, prefix, p.own);
      AppendedKnown(r, prefix, p.own, tx, Live(t), s.used, t.used);
      KnownHolds(t, c, prefix, p.own + [tx]);
    } else {
      CorrectingOwn(r, prefix, p.own, tx, s, c);
      AppendedArranged(s, c, tx, prefix, p.own);
    }
    KnownStep(s, t, c);
  }

  lemma AppendedArranged(s: State, c: ClientId, tx: Transaction, prefix: seq<Transaction>, own: seq<Transaction>)
    requires KnownInv(s) && Enabled(s, Create(c, tx)) && Holds(s.clients[c].replica, prefix, own)
    requires tx.supersedes == [] || tx.supersedes in Ids(prefix + own)
    ensures WholeArranged(Appended(s.clients[c].replica, tx).log)
    ensures UsedLog(Appended(s.clients[c].replica, tx).log, s.used + {tx.uuid})
  {
    hide Ids, Segment, Arranged, Live, NoStray, Inv;
    var r := s.clients[c].replica;
    KnownIsInv(s);
    UsedOk(s);
    SegmentHead(r.log, [], prefix + own, r.account.latestTransaction);
    assert KnownClient(s, c);
    var all :| Arranged(r.log, all) && Ids(all) == r.log.Keys;
    ArrangedAppend(r.log, all, tx, s.used);
  }

  lemma CorrectingOwn(r: Replica, prefix: seq<Transaction>, own: seq<Transaction>, tx: Transaction, s: State,
                      c: ClientId)
    requires Enabled(s, Create(c, tx)) && Correcting(s, Create(c, tx)) && r == s.clients[c].replica
    requires Holds(r, prefix, own)
    ensures tx.supersedes == [] || tx.supersedes in Ids(prefix + own)
  {
    hide Ids, Segment;
    if tx.supersedes != [] {
      var chain :| Complete(r.log, r.account.latestTransaction, chain) && tx.supersedes in Ids(chain);
      CompleteUnique(r.log, r.account.latestTransaction, chain, prefix + own);
    }
  }

  lemma AppendedKnown(r: Replica, prefix: seq<Transaction>, own: seq<Transaction>, tx: Transaction, live: set<Id>,
                      used: set<Id>, more: set<Id>)
    requires Holds(r, prefix, own) && Known(r, prefix, own, live, more) && UsedLog(r.log, used)
    requires r.log.Keys <= used && tx.uuid !in used && [] !in used && tx.uuid != [] && more == used + {tx.uuid}
    requires tx.supersedes == [] || tx.supersedes in Ids(prefix + own)
    ensures Known(Appended(r, tx), prefix, own + [tx], live, more)
  {
    hide Ids, NoStray, Segment, Arranged, Fresh;
    var log := r.log[tx.uuid := tx];
    SegmentHead(r.log, [], prefix + own, r.account.latestTransaction);
    IdsConcat(prefix, own);
    IdsConcat(own, [tx]);
    OneTransaction(map[], tx.parent, tx);
    assert prefix + (own + [tx]) == (prefix + own) + [tx] && [tx][..0] == [] && (prefix + own) + [] == prefix + own;
    NoStrayConcat(prefix + own, [tx], live);
    var all :| Arranged(r.log, all) && Ids(all) == r.log.Keys;
    ArrangedAppend(r.log, all, tx, used);
  }

  lemma ArrangedAppend(log: Log, all: seq<Transaction>, tx: Transaction, used: set<Id>)
    requires Arranged(log, all) && Ids(all) == log.Keys && UsedLog(log, used) && tx.uuid !in used && [] !in used
    requires tx.uuid != [] && log.Keys <= used && (tx.supersedes == [] || tx.supersedes in log)
    ensures WholeArranged(log[tx.uuid := tx])
  {
    hide Ids, NoStray, Fresh;
    var more := log[tx.uuid := tx];
    OneTransaction(map[], tx.parent, tx);
    NoStrayLives(all, log.Keys, {tx.uuid}, used);
    NoStrayWeaken(all, log.Keys + {tx.uuid}, more.Keys);
    NoStrayConcat(all, [tx], more.Keys);
    assert [tx][..0] == [] && all + [] == all;
    FreshConcat({}, all, [tx]);
    FreshOne({} + Ids(all), tx);
    IdsConcat(all, [tx]);
    assert Arranged(more, all + [tx]);
  }

  lemma FreshOne(known: set<Id>, tx: Transaction)
    requires tx.uuid !in known && tx.uuid != []
    ensures Fresh(known, [tx])
  {
    assert Front([tx]) == [];
  }

  // ---------- Pulling ----------

  // Those of the transactions whose ids are not gone.
  ghost function Keep(all: seq<Transaction>, gone: set<Id>): seq<Transaction> {
    if all == [] then [] else Keep(Front(all), gone) + if Last(all).uuid in gone then [] else [Last(all)]
  }

  lemma {:induction false} KeepArranged(log: Log, after: Log, all: seq<Transaction>, gone: set<Id>)
    requires Arranged(log, all) && gone !! after.Keys
    requires forall x :: x in log ==> x in gone || (x in after && after[x] == log[x])
    requires forall x :: x in log && log[x].supersedes in after ==> log[x].supersedes in log
    ensures Arranged(after, Keep(all, gone)) && Ids(Keep(all, gone)) == Ids(all) - gone
    decreases |all|
  {
    hide NoStray;
    if all == [] {
      NoStrayNothing(after.Keys);
    } else {
      var y, older := Last(all), Keep(Front(all), gone);
      ArrangedFront(log, all);
      KeepArranged(log, after, Front(all), gone);
      LastStray(all, log.Keys);
      if y.uuid in gone {
        assert Keep(all, gone) == older;
      } else {
        KeepOne(after, older, y);
      }
    }
  }

  lemma NoStrayNothing(ids: set<Id>)
    ensures NoStray([], ids)
  {}

  lemma LastStray(all: seq<Transaction>, ids: set<Id>)
    requires NoStray(all, ids) && all != []
    ensures var x := Last(all).supersedes; x == [] || x in Ids(Front(all)) || x !in ids
  {}

  lemma KeepOne(log: Log, all: seq<Transaction>, y: Transaction)
    requires Arranged(log, all) && y.uuid in log && log[y.uuid] == y && y.uuid !in Ids(all) && y.uuid != []
    requires y.supersedes == [] || y.supersedes in Ids(all) || y.supersedes !in log
    ensures Arranged(log, all + [y]) && Ids(all + [y]) == Ids(all) + {y.uuid}
  {
    ConcatLast(all, [y]);
    assert Front([y]) == [] && all + [] == all;
  }

  lemma {:induction false} ArrangedMore(log: Log, all: seq<Transaction>, txs: seq<Transaction>)
    requires Arranged(log, all) && Fresh(Ids(all), txs)
    requires forall i :: 0 <= i < |txs| ==> txs[i].uuid in log && log[txs[i].uuid] == txs[i]
    requires forall i :: 0 <= i < |txs| ==>
               var x := txs[i].supersedes; x == [] || x in Ids(all + txs[..i]) || x !in log
    ensures Arranged(log, all + txs) && Ids(all + txs) == Ids(all) + Ids(txs)
    decreases |txs|
  {
    hide Arranged;
    IdsConcat(all, txs);
    if txs == [] {
      assert all + txs == all;
    } else {
      var older := Front(txs);
      FreshLast(Ids(all), txs);
      assert forall i :: 0 <= i < |txs| - 1 ==> older[i] == txs[i] && older[..i] == txs[..i];
      ArrangedMore(log, all, older);
      assert txs[..|txs| - 1] == older && txs[|txs| - 1] == Last(txs);
      KeepOne(log, all + older, Last(txs));
      assert all + txs == all + older + [Last(txs)];
    }
  }

  lemma FreshLast(known: set<Id>, txs: seq<Transaction>)
    requires Fresh(known, txs) && txs != []
    ensures Fresh(known, Front(txs)) && Last(txs).uuid != [] && Last(txs).uuid !in known
    ensures Last(txs).uuid !in Ids(Front(txs))
  {}

  // A log to which transactions have been added and from which others have gone.
  ghost predicate Changed(log: Log, after: Log, added: seq<Transaction>, gone: set<Id>) {
    && gone <= log.Keys && Fresh(log.Keys, added) && after.Keys == log.Keys - gone + Ids(added)
    && (forall x :: x in log && x !in gone ==> after[x] == log[x])
    && (forall i :: 0 <= i < |added| ==> added[i].uuid in after && after[added[i].uuid] == added[i])
  }

  lemma ChangedIs(log: Log, added: seq<Transaction>, gone: set<Id>)
    requires Fresh(log.Keys, added) && gone <= log.Keys
    ensures Changed(log, WithAll(log, added) - gone, added, gone)
  {
    hide Ids, Fresh, WithAll;
    WithAllKeys(log, added);
    FreshIds(log.Keys, added);
    forall i | 0 <= i < |added|
      ensures added[i].uuid in Ids(added) && WithAll(log, added)[added[i].uuid] == added[i]
    {
      WithAllAt(log, added, i);
      IdIn(added, i);
    }
  }

  // An element of the changed log is an old one or an added one.
  lemma ChangedAt(log: Log, after: Log, added: seq<Transaction>, gone: set<Id>, x: Id)
    requires Changed(log, after, added, gone) && x in after
    ensures (x in log && x !in gone && after[x] == log[x])
            || exists i :: 0 <= i < |added| && added[i].uuid == x && after[x] == added[i]
  {
    hide Ids, Fresh;
    if x in Ids(added) {
      var i := IdAt(added, x);
    }
  }

  // The transactions added only supersede used ids, and what is stored before them.
  lemma ChangedArranged(log: Log, after: Log, added: seq<Transaction>, gone: set<Id>, all: seq<Transaction>)
    requires Changed(log, after, added, gone) && Arranged(log, all) && Ids(all) == log.Keys
    requires forall x :: x in log && log[x].supersedes in after ==> log[x].supersedes in log
    requires forall i :: 0 <= i < |added| ==>
               var x := added[i].supersedes; x == [] || x in log || x in Ids(added[..i]) || x !in after
    ensures WholeArranged(after)
  {
    hide Ids, Fresh, NoStray, Arranged;
    FreshIds(log.Keys, added);
    var kept := Keep(all, gone);
    KeepArranged(log, after, all, gone);
    FreshWeaken(log.Keys, Ids(kept), added);
    forall i | 0 <= i < |added|
      ensures var x := added[i].supersedes; x == [] || x in Ids(kept + added[..i]) || x !in after
    {
      IdsConcat(kept, added[..i]);
      var x := added[i].supersedes;
      if x in log && x in after {
        IdsPrefix(added, i);
      }
    }
    ArrangedMore(after, kept, added);
  }

  lemma IdsPrefix(txs: seq<Transaction>, i: nat)
    requires i <= |txs|
    ensures Ids(txs[..i]) <= Ids(txs)
  {
    assert txs == txs[..i] + txs[i..];
    IdsConcat(txs[..i], txs[i..]);
  }

  // A pull of remote, and what is alive and used before and after it.
  ghost predicate KnownPull(local: Replica, prefix: seq<Transaction>, own: seq<Transaction>, remote: seq<Transaction>,
                            renamed: seq<Transaction>, live: set<Id>, used: set<Id>, after: set<Id>)
  {
    && Known(local, prefix, own, live, used) && Holds(local, prefix, own)
    && NoStray(prefix + remote, live) && Used(prefix + remote, used)
    && Ids(prefix + remote) <= live && local.log.Keys <= used && [] !in used
    && Fresh(local.log.Keys, remote + renamed) && Ids(renamed) !! used && [] !in Ids(renamed) && Alike(renamed, own)
    && Ids(own) !! after && after <= live + Ids(renamed)
  }

  // What the client and the server supersede is used, and stored, received, or not alive.
  ghost predicate Superseding(x: Id, log: Log, received: set<Id>, live: set<Id>, used: set<Id>) {
    x == [] || (x in used && (x in log || x in received || x !in live))
  }

  lemma OldSupersedes(local: Replica, prefix: seq<Transaction>, own: seq<Transaction>, remote: seq<Transaction>,
                      renamed: seq<Transaction>, live: set<Id>, used: set<Id>, after: set<Id>)
    requires KnownPull(local, prefix, own, remote, renamed, live, used, after)
    ensures forall x :: x in local.log ==> Superseding(local.log[x].supersedes, local.log, {}, live, used)
    ensures forall i :: 0 <= i < |renamed| ==> Superseding(renamed[i].supersedes, local.log, {}, live, used)
  {
    hide Ids, Segment, Fresh, NoStray, WholeArranged, OwnLast;
    forall i | 0 <= i < |renamed|
      ensures Superseding(renamed[i].supersedes, local.log, {}, live, used)
    {
      SamePayload(own[i], renamed[i]);
      OwnStored(local, prefix, own, i);
    }
  }

  lemma RemoteSupersedes(local: Replica, prefix: seq<Transaction>, own: seq<Transaction>, remote: seq<Transaction>,
                         renamed: seq<Transaction>, live: set<Id>, used: set<Id>, after: set<Id>, i: nat)
    requires KnownPull(local, prefix, own, remote, renamed, live, used, after) && i < |remote|
    ensures Superseding(remote[i].supersedes, local.log, Ids(remote[..i]), live, used)
    ensures Superseding(remote[i].supersedes, local.log, Ids(remote), live, used)
  {
    hide Ids, Segment, Fresh, NoStray, Known;
    HoldsOwn(local, prefix, own);
    var chain := prefix + remote;
    assert chain[|prefix| + i] == remote[i] && chain[..|prefix| + i] == prefix + remote[..i];
    NoStrayAt(chain, live, |prefix| + i);
    IdsConcat(prefix, remote[..i]);
    IdsPrefix(remote, i);
  }

  lemma PulledUsed(local: Replica, prefix: seq<Transaction>, own: seq<Transaction>, remote: seq<Transaction>,
                   renamed: seq<Transaction>, live: set<Id>, used: set<Id>, after: set<Id>, log: Log, gone: set<Id>,
                   k: nat)
    requires KnownPull(local, prefix, own, remote, renamed, live, used, after) && k <= |remote + renamed|
    requires Changed(local.log, log, (remote + renamed)[..k], gone)
    ensures UsedLog(log, used)
    ensures forall x :: x in log ==> Superseding(log[x].supersedes, local.log, Ids(remote), live, used)
  {
    hide Ids, Segment, Fresh, NoStray, Known, Changed;
    OldSupersedes(local, prefix, own, remote, renamed, live, used, after);
    forall x | x in log
      ensures Superseding(log[x].supersedes, local.log, Ids(remote), live, used)
    {
      ChangedAt(local.log, log, (remote + renamed)[..k], gone, x);
      if i :| 0 <= i < k && log[x] == (remote + renamed)[i] {
        if i < |remote| {
          RemoteSupersedes(local, prefix, own, remote, renamed, live, used, after, i);
        } else {
          assert (remote + renamed)[i] == renamed[i - |remote|];
        }
      }
    }
  }

  lemma PulledClosed(local: Replica, prefix: seq<Transaction>, own: seq<Transaction>, remote: seq<Transaction>,
                     renamed: seq<Transaction>, live: set<Id>, used: set<Id>, after: set<Id>, log: Log, gone: set<Id>)
    requires KnownPull(local, prefix, own, remote, renamed, live, used, after) && gone <= Ids(own)
    requires Changed(local.log, log, remote + renamed, gone)
    ensures UsedLog(log, used) && ClosedLog(log, after) && OwnLast(log, renamed)
  {
    hide Ids, Segment, Fresh, NoStray, Known, Changed;
    IdsConcat(remote, renamed);
    ChangedKeys(local.log, log, remote + renamed, gone);
    assert (remote + renamed)[..|remote + renamed|] == remote + renamed;
    PulledUsed(local, prefix, own, remote, renamed, live, used, after, log, gone, |remote + renamed|);
  }

  lemma ChangedKeys(log: Log, after: Log, added: seq<Transaction>, gone: set<Id>)
    requires Changed(log, after, added, gone)
    ensures gone <= log.Keys && after.Keys == log.Keys - gone + Ids(added)
  {}

  // What is stored can be arranged again, however much of the pull has been stored.
  lemma PulledArranged(local: Replica, prefix: seq<Transaction>, own: seq<Transaction>, remote: seq<Transaction>,
                       renamed: seq<Transaction>, live: set<Id>, used: set<Id>, after: set<Id>, log: Log, gone: set<Id>,
                       k: nat)
    requires KnownPull(local, prefix, own, remote, renamed, live, used, after) && gone <= Ids(own)
    requires k <= |remote + renamed| && Changed(local.log, log, (remote + renamed)[..k], gone)
    ensures WholeArranged(log)
  {
    hide Ids, Segment, Fresh, NoStray, Arranged, Changed;
    OldSupersedes(local, prefix, own, remote, renamed, live, used, after);
    IdsConcat(remote, renamed);
    IdsConcat(prefix, remote);
    var added := (remote + renamed)[..k];
    IdsPrefix(remote + renamed, k);
    ChangedKeys(local.log, log, added, gone);
    FreshIds(local.log.Keys, remote + renamed);
    forall i | 0 <= i < |added|
      ensures var x := added[i].supersedes; x == [] || x in local.log || x in Ids(added[..i]) || x !in log
    {
      if i < |remote| {
        RemoteSupersedes(local, prefix, own, remote, renamed, live, used, after, i);
        assert added[..i] == remote[..i] && added[i] == remote[i];
      } else {
        assert added[i] == renamed[i - |remote|];
        RenamedBefore(remote, renamed, k, i);
      }
    }
    forall x | x in local.log && local.log[x].supersedes in log
      ensures local.log[x].supersedes in local.log
    {
      assert Superseding(local.log[x].supersedes, local.log, {}, live, used);
    }
    var all :| Arranged(local.log, all) && Ids(all) == local.log.Keys;
    ChangedArranged(local.log, log, added, gone, all);
  }

  // Everything received comes before what is renamed.
  lemma RenamedBefore(remote: seq<Transaction>, renamed: seq<Transaction>, k: nat, i: nat)
    requires |remote| <= i <= k <= |remote + renamed|
    ensures Ids(remote) <= Ids((remote + renamed)[..k][..i])
  {
    hide Ids;
    assert (remote + renamed)[..k][..i] == remote + renamed[..i - |remote|];
    IdsConcat(remote, renamed[..i - |remote|]);
  }

  lemma PulledNoStray(local: Replica, prefix: seq<Transaction>, own: seq<Transaction>, remote: seq<Transaction>,
                      renamed: seq<Transaction>, live: set<Id>, used: set<Id>, after: set<Id>)
    requires KnownPull(local, prefix, own, remote, renamed, live, used, after)
    ensures NoStray(prefix + remote + renamed, after)
  {
    hide Ids, Segment, Fresh, NoStray, WholeArranged, OwnLast, ClosedLog;
    OldSupersedes(local, prefix, own, remote, renamed, live, used, after);
    var chain := prefix + remote;
    NoStrayLives(chain, live, Ids(renamed), used);
    NoStrayWeaken(chain, live + Ids(renamed), after);
    IdsConcat(prefix, remote);
    forall i | 0 <= i < |renamed|
      ensures var x := renamed[i].supersedes; x == [] || x in Ids(chain + renamed[..i]) || x !in after
    {
      SamePayload(own[i], renamed[i]);
      assert (prefix + own)[|prefix| + i] == own[i] && (prefix + own)[..|prefix| + i] == prefix + own[..i];
      NoStrayAt(prefix + own, live, |prefix| + i);
      IdsConcat(prefix, own[..i]);
      IdsPrefix(own, i);
      IdsConcat(chain, renamed[..i]);
    }
    NoStrayConcat(chain, renamed, after);
  }

  // After the pull the client is known again.
  lemma PulledKnown(local: Replica, prefix: seq<Transaction>, own: seq<Transaction>, remote: seq<Transaction>,
                    renamed: seq<Transaction>, live: set<Id>, used: set<Id>, after: set<Id>, r: Replica, j: nat)
    requires KnownPull(local, prefix, own, remote, renamed, live, used, after) && j <= |own|
    requires r.log == WithAll(local.log, remote + renamed) - Ids(own[..j])
    ensures Known(r, prefix + remote, renamed, after, used)
  {
    hide Ids, Segment, Fresh, NoStray, Known, WithAll, Changed, UsedLog, ClosedLog, OwnLast, WholeArranged;
    HoldsOwn(local, prefix, own);
    IdsPrefix(own, j);
    FreshOf(local, prefix, own, remote, renamed, live, used, after);
    ChangedIs(local.log, remote + renamed, Ids(own[..j]));
    PulledClosed(local, prefix, own, remote, renamed, live, used, after, r.log, Ids(own[..j]));
    assert (remote + renamed)[..|remote + renamed|] == remote + renamed;
    PulledArranged(local, prefix, own, remote, renamed, live, used, after, r.log, Ids(own[..j]), |remote + renamed|);
    PulledNoStray(local, prefix, own, remote, renamed, live, used, after);
    KnownFolds(r, prefix + remote, renamed, after, used);
  }

  lemma FreshOf(local: Replica, prefix: seq<Transaction>, own: seq<Transaction>, remote: seq<Transaction>,
                renamed: seq<Transaction>, live: set<Id>, used: set<Id>, after: set<Id>)
    requires KnownPull(local, prefix, own, remote, renamed, live, used, after)
    ensures Fresh(local.log.Keys, remote + renamed)
  {}

  lemma KnownFolds(r: Replica, prefix: seq<Transaction>, own: seq<Transaction>, live: set<Id>, used: set<Id>)
    requires NoStray(prefix + own, live) && UsedLog(r.log, used) && ClosedLog(r.log, live) && OwnLast(r.log, own)
    requires WholeArranged(r.log)
    ensures Known(r, prefix, own, live, used)
  {}

  // The pull of client c in state s, as a change of its log.
  lemma PullIsKnown(s: State, c: ClientId, newId: nat -> Id, p: Position, alive: set<Id>)
    requires KnownInv(s) && c in s.clients && ClientOk(s, c, p) && p.known == 0 && !s.clients[c].stopped
    requires p.n < |s.chain| && FreshSupply(newId, s.used)
    requires Pulling(s.clients[c].replica, s.chain[..p.n], p.own, s.chain[p.n..], newId)
    requires alive <= Live(s) + Ids(Renamed(p.own, s.chain[p.n..], newId)) && Ids(p.own) !! alive
    ensures KnownPull(s.clients[c].replica, s.chain[..p.n], p.own, s.chain[p.n..],
                      Renamed(p.own, s.chain[p.n..], newId), Live(s), s.used, alive)
  {
    hide Ids, Holds, Live, NoStray, Known, Inv, ClientAt, Own, Renumbered, Fresh, Consistent, PlaceOk, KnownClient;
    hide Segment;
    var r, prefix, remote := s.clients[c].replica, s.chain[..p.n], s.chain[p.n..];
    var renamed := Renamed(p.own, remote, newId);
    UsedOk(s);
    OwnLives(s, c);
    var q := KnownPosition(s, c);
    HoldsUnique(r, prefix, p.own, s.chain[..q.n], q.own);
    assert prefix + remote == s.chain;
    RenumberedFresh(p.own, Last(remote).uuid, newId, s.used);
    FreshIds(s.used, renamed);
    RenamedPayloads(p.own, remote, newId);
    AlikePayloads(p.own, renamed);
    IdsConcat(prefix, remote);
    FreshWeaken(s.used, r.log.Keys + Ids(remote), renamed);
    FreshConcat(r.log.Keys, remote, renamed);
  }

  lemma PendingLives(s: State, c: ClientId, p: Position)
    requires Inv(s) && c in s.clients && ClientOk(s, c, p) && p.known == 0
    ensures Ids(p.own) !! Ids(s.chain)
    ensures forall d :: d in s.clients && d != c ==> Ids(p.own) !! Ids(Own(s.clients[d].replica))
  {
    hide Ids, Holds, SentBy, Own, Complete;
    BoundsOk(s.chain, s.clients[c].replica, p);
    PendingKnown(s.chain, s.clients[c].replica, p);
    assert p.Pending() == p.own;
    forall d | d in s.clients && d != c
      ensures Ids(p.own) !! Ids(Own(s.clients[d].replica))
    {
      var q :| ClientOk(s, d, q);
      BoundsOk(s.chain, s.clients[d].replica, q);
      PlaceHolds(s.chain, s.clients[d].replica, q);
      OwnIs(s.clients[d].replica, s.chain[..q.n], q.own);
      HoldsOwn(s.clients[d].replica, s.chain[..q.n], q.own);
    }
  }

  // The client moves to the end of the server's chain, with its transactions renamed.
  lemma PulledLive(s: State, t: State, c: ClientId, p: Position, renamed: seq<Transaction>)
    requires Inv(s) && c in s.clients && ClientOk(s, c, p) && p.known == 0 && t.clients.Keys == s.clients.Keys
    requires forall d :: d in s.clients && d != c ==> t.clients[d] == s.clients[d]
    requires t.chain == s.chain && Own(t.clients[c].replica) == renamed && Ids(p.own) !! Ids(renamed)
    ensures Live(t) <= Live(s) + Ids(renamed) && Ids(p.own) !! Live(t)
  {
    hide Ids, Own, Inv, ClientOk;
    PendingLives(s, c, p);
  }

  lemma AfterPullKnown(s: State, t: State, c: ClientId, newId: nat -> Id, p: Position, j: nat)
    requires KnownInv(s) && Inv(t) && c in s.clients && ClientOk(s, c, p) && p.known == 0 && !s.clients[c].stopped
    requires p.n < |s.chain| && FreshSupply(newId, s.used) && j <= |p.own|
    requires Pulling(s.clients[c].replica, s.chain[..p.n], p.own, s.chain[p.n..], newId)
    requires t.chain == s.chain && t.clients.Keys == s.clients.Keys && s.used <= t.used
    requires forall d :: d in s.clients && d != c ==> t.clients[d] == s.clients[d]
    requires var renamed := Renamed(p.own, s.chain[p.n..], newId);
             && Holds(t.clients[c].replica, s.chain, renamed)
             && t.clients[c].replica.log ==
                WithAll(s.clients[c].replica.log, s.chain[p.n..] + renamed) - Ids(p.own[..j])
    ensures KnownInv(t)
  {
    hide Ids, Holds, Live, NoStray, Known, Inv, ClientAt, Own, Fresh, Consistent, PlaceOk, KnownClient, Segment;
    hide ClientOk;
    hide WithAll, FreshSupply, Pulling, Renamed;
    var r, prefix, remote := s.clients[c].replica, s.chain[..p.n], s.chain[p.n..];
    var renamed := Renamed(p.own, remote, newId);
    UsedOk(t);
    RenamedFresh(p.own, remote, newId, s.used);
    OwnUsed(s, c, p);
    OwnIs(t.clients[c].replica, s.chain, renamed);
    RenamedUsed(t, c, renamed);
    PulledLive(s, t, c, p, renamed);
    OwnLives(s, c);
    LiveGrows(s, t, c);
    PullIsKnown(s, c, newId, p, Live(t));
    assert prefix + remote == s.chain;
    PulledKnown(r, prefix, p.own, remote, renamed, Live(s), s.used, Live(t), t.clients[c].replica, j);
    KnownUsed(t.clients[c].replica, s.chain, renamed, Live(t), s.used, t.used);
    KnownHolds(t, c, s.chain, renamed);
    KnownStep(s, t, c);
  }

  lemma RenamedFresh(own: seq<Transaction>, remote: seq<Transaction>, newId: nat -> Id, used: set<Id>)
    requires FreshSupply(newId, used) && remote != []
    ensures Ids(Renamed(own, remote, newId)) !! used
  {
    hide Ids, Fresh;
    RenumberedFresh(own, Last(remote).uuid, newId, used);
    FreshIds(used, Renamed(own, remote, newId));
  }

  lemma OwnUsed(s: State, c: ClientId, p: Position)
    requires Inv(s) && c in s.clients && ClientOk(s, c, p)
    ensures Ids(p.own) <= s.used && p.n <= |s.chain|
  {
    hide Ids, Holds, SentBy;
    PlaceHolds(s.chain, s.clients[c].replica, p);
    HoldsOwn(s.clients[c].replica, s.chain[..p.n], p.own);
  }

  lemma RenamedUsed(t: State, c: ClientId, renamed: seq<Transaction>)
    requires Inv(t) && c in t.clients && Holds(t.clients[c].replica, t.chain, renamed)
    ensures Ids(renamed) <= t.used
  {
    hide Ids, Holds, Inv;
    UsedOk(t);
    HoldsOwn(t.clients[c].replica, t.chain, renamed);
  }

  lemma KnownUsed(r: Replica, prefix: seq<Transaction>, own: seq<Transaction>, live: set<Id>, used: set<Id>,
                  more: set<Id>)
    requires Known(r, prefix, own, live, used) && used <= more
    ensures Known(r, prefix, own, live, more)
  {
    hide NoStray, Ids, ClosedLog, OwnLast, WholeArranged;
  }

  lemma FetchKnown(s: State, c: ClientId, newId: nat -> Id, t: State)
    requires Enabled(s, Fetch(c, newId)) && t == AfterFetch(s, c, newId)
    requires KnownInv(s)
    ensures KnownInv(t)
  {
    hide Ids, Holds, Live, NoStray, ClientAt, Own, Fresh, Consistent, PlaceOk, KnownClient, Segment, FetchEnds, Fetched;
    hide WithAll, FreshSupply, Renamed, Rebased, DoReplicaAll, SentBy, KnownInv, Inv, Used;
    KnownIsInv(s);
    StepKeepsInv(s, Fetch(c, newId));
    UsedOk(s);
    UsedOk(t);
    OwnLives(s, c);
    if Fetched(s.clients[c].replica, s.server, newId).Err? {
      SameReplica(s, t, c);
    } else {
      var p := FetchPosition(s, c, newId);
      BoundsOk(s.chain, s.clients[c].replica, p);
      FetchSucceeds(s, c, newId, p);
      var r, remote := s.clients[c].replica, s.chain[p.n..];
      PullSize(r, p.own, remote, newId);
      var writes := Rebased(r.account, remote, p.own, newId).writes;
      assert writes[..|writes|] == writes;
      PulledState(s, t, c, newId, p, |p.own|);
    }
  }

  lemma StopKnown(s: State, c: ClientId, newId: nat -> Id, k: nat, t: State)
    requires Enabled(s, Stop(c, newId, k)) && t == AfterStop(s, c, newId, k)
    requires KnownInv(s)
    ensures KnownInv(t)
  {
    hide Ids, Holds, Live, NoStray, ClientAt, Own, Fresh, Consistent, PlaceOk, KnownClient, Segment, FetchEnds, Fetched;
    hide WithAll, FreshSupply, Renamed, Rebased, DoReplicaAll, SentBy, Partial, KnownInv, Inv, Used;
    KnownIsInv(s);
    StepKeepsInv(s, Stop(c, newId, k));
    UsedOk(s);
    UsedOk(t);
    var p := StopPosition(s, c, newId, k);
    FetchSucceeds(s, c, newId, p);
    var r, remote := s.clients[c].replica, s.chain[p.n..];
    PullSize(r, p.own, remote, newId);
    PartialIff(r.account, remote, p.own, newId, k);
    if k == 0 {
      assert Rebased(r.account, remote, p.own, newId).writes[..0] == [];
      NoWritesView(r);
      OwnLives(s, c);
      SameReplica(s, t, c);
    } else if k <= |remote| + |p.own| {
      PartialKnown(s, t, c, newId, p, k);
    } else {
      PulledState(s, t, c, newId, p, k - |remote| - |p.own| - 1);
    }
  }

  lemma StopPosition(s: State, c: ClientId, newId: nat -> Id, k: nat) returns (p: Position)
    requires Inv(s) && Enabled(s, Stop(c, newId, k))
    ensures |s.owners| == |s.chain| && ClientOk(s, c, p) && p.known == 0 && p.n < |s.chain|
    ensures !s.clients[c].stopped && s.clients[c].phase == Fetching
  {
    hide Ids, Holds, SentBy, PlaceOk, Fetched, FetchEnds, Complete;
    p :| ClientOk(s, c, p);
    BoundsOk(s.chain, s.clients[c].replica, p);
    if p.known > 0 { FetchRefused(s, c, newId, p); }
  }

  lemma PulledState(s: State, t: State, c: ClientId, newId: nat -> Id, p: Position, j: nat)
    requires KnownInv(s) && Inv(t) && c in s.clients && ClientOk(s, c, p) && p.known == 0 && !s.clients[c].stopped
    requires p.n < |s.chain| && FreshSupply(newId, s.used) && j <= |p.own|
    requires Fresh(s.clients[c].replica.log.Keys, s.chain[p.n..])
    requires Consistent(Head([], s.chain[..p.n]), s.chain[p.n..])
    requires t.chain == s.chain && t.clients.Keys == s.clients.Keys && s.used <= t.used
    requires forall d :: d in s.clients && d != c ==> t.clients[d] == s.clients[d]
    requires var r, remote := s.clients[c].replica, s.chain[p.n..];
             var k := |remote| + |p.own| + 1 + j;
             && k <= |Rebased(r.account, remote, p.own, newId).writes|
             && t.clients[c].replica == DoReplicaAll(r, Rebased(r.account, remote, p.own, newId).writes[..k])
    ensures KnownInv(t)
  {
    hide Ids, Holds, Live, NoStray, ClientAt, Own, Fresh, Consistent, PlaceOk, KnownClient, Segment, KnownInv, Inv;
    hide WithAll, FreshSupply, Renamed, Rebased, DoReplicaAll, ClientOk;
    var r, remote := s.clients[c].replica, s.chain[p.n..];
    var k := |remote| + |p.own| + 1 + j;
    PulledFrom(s, c, newId, p);
    InterruptedPullKeepsAChain(r, s.chain[..p.n], p.own, remote, newId, k);
    PrefixWithRemoves(r, p.own, remote, newId, k);
    assert s.chain[..p.n] + remote == s.chain;
    AfterPullKnown(s, t, c, newId, p, j);
  }

  lemma PulledFrom(s: State, c: ClientId, newId: nat -> Id, p: Position)
    requires KnownInv(s) && c in s.clients && ClientOk(s, c, p) && p.n < |s.chain| && FreshSupply(newId, s.used)
    requires Fresh(s.clients[c].replica.log.Keys, s.chain[p.n..])
    requires Consistent(Head([], s.chain[..p.n]), s.chain[p.n..])
    ensures Pulling(s.clients[c].replica, s.chain[..p.n], p.own, s.chain[p.n..], newId)
  {
    hide Ids, Holds, Fresh, Consistent, FreshSupply, KnownInv, Inv, PlaceOk, SentBy;
    KnownIsInv(s);
    UsedOk(s);
    PlaceHolds(s.chain, s.clients[c].replica, p);
    assert s.chain == s.chain[..p.n] + s.chain[p.n..];
    IdsConcat(s.chain[..p.n], s.chain[p.n..]);
    SupplyWeaken(newId, s.used, s.clients[c].replica.log.Keys + Ids(s.chain[p.n..]));
  }

  lemma PartialKnown(s: State, t: State, c: ClientId, newId: nat -> Id, p: Position, k: nat)
    requires c in s.clients && |s.owners| == |s.chain| && ClientOk(s, c, p) && p.n < |s.chain|
    requires p.known == 0 && !s.clients[c].stopped
    requires FreshSupply(newId, s.used) && 0 < k <= |s.chain[p.n..]| + |p.own|
    requires Fresh(s.clients[c].replica.log.Keys, s.chain[p.n..])
    requires Consistent(Head([], s.chain[..p.n]), s.chain[p.n..])
    requires t.chain == s.chain && t.clients.Keys == s.clients.Keys && s.used <= t.used && t.clients[c].stopped
    requires forall d :: d in s.clients && d != c ==> t.clients[d] == s.clients[d]
    requires var r, remote := s.clients[c].replica, s.chain[p.n..];
             && k <= |Rebased(r.account, remote, p.own, newId).writes|
             && t.clients[c].replica == DoReplicaAll(r, Rebased(r.account, remote, p.own, newId).writes[..k])
    requires KnownInv(s) && Inv(t)
    ensures KnownInv(t)
  {
    hide Ids, Holds, Live, NoStray, ClientAt, Own, Fresh, Consistent, PlaceOk, Segment, KnownInv, Inv, WholeArranged;
    hide WithAll, FreshSupply, Renamed, Rebased, DoReplicaAll, ClientOk, Known, UsedLog;
    var r, prefix, remote := s.clients[c].replica, s.chain[..p.n], s.chain[p.n..];
    PulledFrom(s, c, newId, p);
    InterruptedPullKeepsAChain(r, prefix, p.own, remote, newId, k);
    UsedOk(t);
    KnownIsInv(s);
    UsedOk(s);
    OwnOf(s, c, p);
    OwnIs(t.clients[c].replica, prefix, p.own);
    OwnLives(s, c);
    LiveGrows(s, t, c);
    PartialArranged(s, c, newId, p, k, t.clients[c].replica.log);
    UsedMore(t.clients[c].replica.log, s.used, t.used);
    KnownStep(s, t, c);
  }

  lemma UsedMore(log: Log, used: set<Id>, more: set<Id>)
    requires UsedLog(log, used) && used <= more
    ensures UsedLog(log, more)
  {}

  // A pull that stops before the account is written leaves a store that can be arranged, too.
  lemma PartialArranged(s: State, c: ClientId, newId: nat -> Id, p: Position, k: nat, log: Log)
    requires KnownInv(s) && c in s.clients && ClientOk(s, c, p) && p.known == 0 && !s.clients[c].stopped
    requires p.n < |s.chain| && FreshSupply(newId, s.used) && 0 < k <= |s.chain[p.n..]| + |p.own|
    requires Pulling(s.clients[c].replica, s.chain[..p.n], p.own, s.chain[p.n..], newId)
    requires k <= |Rebased(s.clients[c].replica.account, s.chain[p.n..], p.own, newId).writes|
    requires log == Interrupted(s.clients[c].replica, p.own, s.chain[p.n..], newId, k).log
    ensures WholeArranged(log) && UsedLog(log, s.used)
  {
    hide Ids, Holds, Live, NoStray, Own, Fresh, Consistent, Segment, Inv, KnownClient, PlaceOk, WholeArranged, ClientOk;
    hide WithAll, FreshSupply, Renamed, Rebased, DoReplicaAll, Pulling, Interrupted, KnownPull, UsedLog, Changed;
    var r, prefix, remote := s.clients[c].replica, s.chain[..p.n], s.chain[p.n..];
    var renamed := Renamed(p.own, remote, newId);
    PullSize(r, p.own, remote, newId);
    PrefixOfPuts(r, p.own, remote, newId, k);
    RenamedFresh(p.own, remote, newId, s.used);
    KnownIsInv(s);
    OwnUsed(s, c, p);
    var alive := Live(s) + Ids(renamed) - Ids(p.own);
    PullIsKnown(s, c, newId, p, alive);
    FreshOf(r, prefix, p.own, remote, renamed, Live(s), s.used, alive);
    FreshPrefix(r.log.Keys, remote + renamed, k);
    ChangedIs(r.log, (remote + renamed)[..k], {});
    assert WithAll(r.log, (remote + renamed)[..k]) - {} == WithAll(r.log, (remote + renamed)[..k]);
    PulledUsed(r, prefix, p.own, remote, renamed, Live(s), s.used, alive, log, {}, k);
    PulledArranged(r, prefix, p.own, remote, renamed, Live(s), s.used, alive, log, {}, k);
  }

  lemma FreshPrefix(known: set<Id>, txs: seq<Transaction>, k: nat)
    requires Fresh(known, txs) && k <= |txs|
    ensures Fresh(known, txs[..k])
  {
    assert txs == txs[..k] + txs[k..];
    FreshConcat(known, txs[..k], txs[k..]);
  }

  lemma KnownIsInv(s: State)
    requires KnownInv(s)
    ensures Inv(s) && NoStray(s.chain, Live(s))
  {}

  lemma OwnOf(s: State, c: ClientId, p: Position)
    requires c in s.clients && |s.owners| == |s.chain| && ClientOk(s, c, p)
    ensures Own(s.clients[c].replica) == p.own
  {
    hide Ids, Holds, SentBy, Own;
    PlaceHolds(s.chain, s.clients[c].replica, p);
    OwnIs(s.clients[c].replica, s.chain[..p.n], p.own);
  }

  lemma OtherSteps(s: State, step: Step, t: State)
    requires KnownInv(s) && Enabled(s, step) && t == Next(s, step)
    requires step.Begin? || step.Forget? || step.Abandon?
    ensures KnownInv(t)
  {
    hide Ids, Holds, SentBy, Live, NoStray, ClientAt, Own, PlaceOk, Segment, KnownClient, Inv;
    StepKeepsInv(s, step);
    UsedOk(t);
    OwnLives(s, step.c);
    SameReplica(s, t, step.c);
  }

  lemma CorrectingStep(s: State, step: Step)
    requires KnownInv(s) && Enabled(s, step) && Correcting(s, step)
    ensures KnownInv(Next(s, step))
  {
    hide KnownInv, Correcting, AfterFetch, AfterPush, AfterCreate, AfterBegin, Moved, Acknowledged, FetchEnds;
    hide LocalWalkable, FreshSupply, AfterStop, Marked;
    match step
    case Create(c, tx) => CreateKnown(s, c, tx);
    case Fetch(c, newId) => FetchKnown(s, c, newId, Next(s, step));
    case Stop(c, newId, k) => StopKnown(s, c, newId, k, Next(s, step));
    case Push(c) => PushKnown(s, c, Next(s, step));
    case Record(c) => RecordKnown(s, c);
    case _ => OtherSteps(s, step, Next(s, step));
  }

  lemma {:induction false} CorrectingRunKeeps(s: State, steps: seq<Step>, t: State)
    requires KnownInv(s) && CorrectingRun(s, steps, t)
    ensures KnownInv(t) && Run(s, steps, t)
    decreases |steps|
  {
    hide KnownInv, Enabled, Next, Correcting;
    if steps != [] {
      CorrectingStep(s, steps[0]);
      CorrectingRunKeeps(Next(s, steps[0]), steps[1..], t);
    }
  }

  lemma KnownStart(s: State)
    requires Init(s)
    ensures KnownInv(s)
  {
    hide Ids, Holds, Own, Inv, Segment;
    InitInv(s);
    UsedOk(s);
    NoStrayNothing(Live(s));
    forall c | c in s.clients
      ensures KnownClient(s, c)
    {
      var r := s.clients[c].replica;
      NothingHeld(r);
      BlankKnown(r, Live(s), s.used);
      assert s.chain[..0] == [];
      KnownHolds(s, c, [], []);
    }
  }

  lemma BlankKnown(r: Replica, live: set<Id>, used: set<Id>)
    requires r.log == map[]
    ensures Known(r, [], [], live, used)
  {
    var none: seq<Transaction> := [];
    assert Arranged(r.log, none) && Ids(none) == r.log.Keys && none + none == none;
  }

  // ---------- What this says about balances ----------

  lemma KnownServer(s: State)
    requires KnownInv(s)
    ensures Complete(s.server.log, s.server.account.latestTransaction, s.chain) && [] !in s.server.log
    ensures s.server.log.Keys == Ids(s.chain) && NoStray(s.chain, Ids(s.chain))
  {
    hide Ids, Own, ClientOk, KnownClient, NoStray, Segment;
    NoStrayWeaken(s.chain, Live(s), Ids(s.chain));
  }

  /** In every state of such a run the server's balance can be computed exactly when everything superseded on its chain
      is older on the chain and every deletion says what it deletes. */
  lemma CorrectingServer(s: State, steps: seq<Step>, t: State)
    requires KnownInv(s) && CorrectingRun(s, steps, t)
    ensures BalanceEnds(t.server) && (BalanceOf(t.server).Ok? <==> Sound(t.chain))
  {
    hide KnownInv, CorrectingRun, Ids, Sound, BalanceEnds, BalanceOf, NoStray, Complete;
    CorrectingRunKeeps(s, steps, t);
    KnownServer(t);
    SoundExactly(t.server, t.chain);
  }

  /** Once the server's balance cannot be computed, no continuation of such a run repairs it. */
  lemma ServerStaysBroken(s: State, steps: seq<Step>, t: State)
    requires KnownInv(s) && CorrectingRun(s, steps, t)
    ensures BalanceEnds(s.server) && BalanceEnds(t.server)
    ensures BalanceOf(s.server).Err? ==> BalanceOf(t.server).Err?
  {
    hide KnownInv, CorrectingRun, Ids, Sound, BalanceEnds, BalanceOf, Run;
    CorrectingNothing(s);
    CorrectingServer(s, [], s);
    CorrectingServer(s, steps, t);
    CorrectingRunKeeps(s, steps, t);
    RunExtends(s, steps, t);
    SoundConcat(s.chain, t.chain[|s.chain|..]);
    assert t.chain == s.chain + t.chain[|s.chain|..];
  }

  lemma CorrectingNothing(s: State)
    ensures CorrectingRun(s, [], s)
  {}

  lemma ArrangedComputes(r: Replica, chain: seq<Transaction>) returns (all: seq<Transaction>)
    requires Complete(r.log, r.account.latestTransaction, chain) && WholeArranged(r.log) && [] !in r.log
    ensures Within(r.log, chain, all) && Ids(all) == r.log.Keys
    ensures BalanceEnds(r) && (BalanceOf(r).Ok? <==> Resolves(chain, Resolved(all)))
  {
    hide Segment, Ids, Arranged, BalanceEnds, BalanceOf, Resolves, Resolved;
    all :| Arranged(r.log, all) && Ids(all) == r.log.Keys;
    SegmentHead(r.log, [], chain, r.account.latestTransaction);
    ComputableExactly(r, chain, all);
  }

  /** In every such state what a client stores, left-over transactions of a stopped pull included, can be arranged so
      that each comes after what it supersedes; this decides whether its balance can be computed. */
  lemma CorrectingClient(s: State, c: ClientId) returns (chain: seq<Transaction>, all: seq<Transaction>)
    requires KnownInv(s) && c in s.clients
    ensures var r := s.clients[c].replica;
            && Complete(r.log, r.account.latestTransaction, chain) && Within(r.log, chain, all)
            && BalanceEnds(r) && (BalanceOf(r).Ok? <==> Resolves(chain, Resolved(all)))
  {
    hide Ids, Own, Live, NoStray, Segment, BalanceEnds, BalanceOf, Within, Resolves, WholeArranged, Inv, ClientAt;
    hide Resolved, UsedLog;
    var r := s.clients[c].replica;
    KnownIsInv(s);
    UsedOk(s);
    assert KnownClient(s, c);
    var p := AnyPosition(s, c);
    ClientHolds(s, c, p);
    chain := s.chain[..p.n] + p.own;
    all := ArrangedComputes(r, chain);
  }

  lemma KnownPullable(s: State, c: ClientId, newId: nat -> Id, p: Position)
    requires KnownInv(s) && c in s.clients && p.n < |s.chain| && FreshSupply(newId, s.used)
    requires Pulling(s.clients[c].replica, s.chain[..p.n], p.own, s.chain[p.n..], newId)
    requires Known(s.clients[c].replica, s.chain[..p.n], p.own, Live(s), s.used)
    ensures Pullable(s.clients[c].replica, s.chain[..p.n], p.own, s.chain[p.n..], newId)
  {
    hide Ids, NoStray, Segment, Fresh, Consistent, WholeArranged, KnownClient, Own, Inv, Holds;
    var r, remote := s.clients[c].replica, s.chain[p.n..];
    UsedOk(s);
    OwnLives(s, c);
    FreshIds(r.log.Keys, remote);
    assert s.chain == s.chain[..p.n] + remote;
    IdsConcat(s.chain[..p.n], remote);
    forall x | x in r.log
      ensures r.log[x].supersedes !in Ids(remote)
    {
      assert r.log[x].supersedes == [] || r.log[x].supersedes in r.log || r.log[x].supersedes !in Live(s);
    }
    SupplyMore(newId, s.used, r.log.Keys + Ids(remote) + Supersedes(r.log));
  }

  lemma SupplyMore(newId: nat -> Id, known: set<Id>, other: set<Id>)
    requires FreshSupply(newId, known) && other <= known + {[]}
    ensures FreshSupply(newId, other)
  {}

  /** Every pull of such a run, complete or stopped during the removals: afterwards the balance can be computed exactly
      when the client could compute it before, what it received can be accounted for with what it stores, which the
      server being able to suffices for, and none of its own transactions supersedes one of those removed. */
  lemma CorrectingPull(s: State, c: ClientId, newId: nat -> Id, j: nat, r: Replica, pulled: Pulled, after: Replica)
    requires KnownInv(s) && Enabled(s, Fetch(c, newId)) && r == s.clients[c].replica
    requires Fetched(r, s.server, newId) == Ok(pulled) && j <= |Own(r)|
    requires after == DoReplicaAll(r, AllBut(pulled.writes, |Own(r)| - j))
    ensures BalanceEnds(r) && BalanceEnds(s.server) && BalanceEnds(after) && BalanceEnds(Before(after, s.chain))
    ensures BalanceOf(after).Ok? <==>
            BalanceOf(r).Ok? && BalanceOf(Before(after, s.chain)).Ok? && Spares(Own(r), j)
    ensures BalanceOf(s.server).Ok? ==> BalanceOf(Before(after, s.chain)).Ok?
  {
    hide Ids, Holds, Live, NoStray, Own, Fresh, Consistent, Segment, FetchEnds, Fetched, Known, Inv, KnownClient;
    hide PlaceOk;
    hide WithAll, FreshSupply, Renamed, Rebased, DoReplicaAll, SentBy, BalanceEnds, BalanceOf, Spares, Complete;
    KnownIsInv(s);
    UsedOk(s);
    CorrectingNothing(s);
    CorrectingServer(s, [], s);
    var p := FetchPosition(s, c, newId);
    FetchSucceeds(s, c, newId, p);
    var prefix, remote := s.chain[..p.n], s.chain[p.n..];
    PullSize(r, p.own, remote, newId);
    PulledFrom(s, c, newId, p);
    KnownPullable(s, c, newId, p);
    RebaseIsRebasing(r, prefix, p.own, remote, newId, j);
    assert prefix + remote == s.chain;
    PulledEnds(s, c, newId, p, j);
    var chain, all := CorrectingClient(s, c);
    RebasedBalanceOk(r, after, prefix, p.own, remote, Renamed(p.own, remote, newId), j);
    if BalanceOf(s.server).Ok? { ServerReceived(s, after, Renamed(p.own, remote, newId)); }
  }

  // All but the last n writes.
  function AllBut(writes: seq<Write>, n: nat): seq<Write> { if n <= |writes| then writes[..|writes| - n] else [] }

  lemma ServerReceived(s: State, after: Replica, renamed: seq<Transaction>)
    requires KnownInv(s) && Complete(after.log, after.account.latestTransaction, s.chain + renamed)
    requires BalanceEnds(s.server) && BalanceOf(s.server).Ok?
    ensures BalanceEnds(Before(after, s.chain)) && BalanceOf(Before(after, s.chain)).Ok?
  {
    hide KnownInv, Ids, Segment, BalanceEnds, BalanceOf, StoresAll, NoStray;
    KnownServer(s);
    BeforeChain(after, s.chain, renamed);
    SameStored(Before(after, s.chain), s.server, s.chain);
    ServerSuffices(s.server, Before(after, s.chain), s.chain);
  }

  lemma FetchPosition(s: State, c: ClientId, newId: nat -> Id) returns (p: Position)
    requires KnownInv(s) && Enabled(s, Fetch(c, newId)) && Fetched(s.clients[c].replica, s.server, newId).Ok?
    ensures ClientOk(s, c, p) && p.known == 0 && p.n < |s.chain| && !s.clients[c].stopped
    ensures Holds(s.clients[c].replica, s.chain[..p.n], p.own) && Own(s.clients[c].replica) == p.own
    ensures Known(s.clients[c].replica, s.chain[..p.n], p.own, Live(s), s.used) && |s.owners| == |s.chain|
  {
    hide Ids, Holds, Live, NoStray, Own, Known, SentBy, PlaceOk, Fetched, FetchEnds, KnownInv, Complete;
    KnownIsInv(s);
    UsedOk(s);
    if s.clients[c].stopped {
      var q := AnyPosition(s, c);
      FetchRefused(s, c, newId, q);
    }
    p := KnownPosition(s, c);
    BoundsOk(s.chain, s.clients[c].replica, p);
    if p.known > 0 { FetchRefused(s, c, newId, p); }
  }

  // What the client stores after the pull can be arranged, so that the walks along the server's chain end as well.
  lemma PulledEnds(s: State, c: ClientId, newId: nat -> Id, p: Position, j: nat)
    requires KnownInv(s) && c in s.clients && ClientOk(s, c, p) && p.known == 0 && !s.clients[c].stopped
    requires p.n < |s.chain| && FreshSupply(newId, s.used) && j <= |p.own|
    requires Pulling(s.clients[c].replica, s.chain[..p.n], p.own, s.chain[p.n..], newId)
    requires |s.chain[p.n..]| + |p.own| + 1 + j
             <= |Rebased(s.clients[c].replica.account, s.chain[p.n..], p.own, newId).writes|
    ensures var after := Interrupted(s.clients[c].replica, p.own, s.chain[p.n..], newId,
                                     |s.chain[p.n..]| + |p.own| + 1 + j);
            BalanceEnds(Before(after, s.chain))
  {
    hide Ids, Holds, Live, NoStray, Own, Fresh, Consistent, Segment, Inv, KnownClient, PlaceOk, WholeArranged, ClientOk;
    hide WithAll, FreshSupply, Renamed, Rebased, DoReplicaAll, BalanceEnds, BalanceOf, Pulling, Interrupted, KnownPull;
    var r, prefix, remote := s.clients[c].replica, s.chain[..p.n], s.chain[p.n..];
    var k, renamed := |remote| + |p.own| + 1 + j, Renamed(p.own, remote, newId);
    var after := Interrupted(r, p.own, remote, newId, k);
    PullSize(r, p.own, remote, newId);
    InterruptedPullKeepsAChain(r, prefix, p.own, remote, newId, k);
    PrefixWithRemoves(r, p.own, remote, newId, k);
    assert prefix + remote == s.chain;
    RenamedFresh(p.own, remote, newId, s.used);
    KnownIsInv(s);
    OwnUsed(s, c, p);
    var alive := Live(s) + Ids(renamed) - Ids(p.own);
    PullIsKnown(s, c, newId, p, alive);
    PulledKnown(r, prefix, p.own, remote, renamed, Live(s), s.used, alive, after, j);
    NoEmptyId(s, c, p, newId, after.log, j);
    HoldsChain(after, s.chain, renamed);
    var all := ArrangedComputes(Before(after, s.chain), s.chain);
  }

  lemma HoldsChain(r: Replica, prefix: seq<Transaction>, own: seq<Transaction>)
    requires Holds(r, prefix, own)
    ensures Complete(Before(r, prefix).log, Before(r, prefix).account.latestTransaction, prefix)
  {
    hide Segment;
    BeforeChain(r, prefix, own);
  }

  lemma NoEmptyId(s: State, c: ClientId, p: Position, newId: nat -> Id, log: Log, j: nat)
    requires Inv(s) && c in s.clients && p.n < |s.chain| && FreshSupply(newId, s.used) && j <= |p.own|
    requires Pulling(s.clients[c].replica, s.chain[..p.n], p.own, s.chain[p.n..], newId)
    requires log == WithAll(s.clients[c].replica.log, s.chain[p.n..] + Renamed(p.own, s.chain[p.n..], newId))
                    - Ids(p.own[..j])
    ensures [] !in log
  {
    hide Ids, Holds, Fresh, Consistent, Inv, Renumbered, WithAll;
    var r, remote := s.clients[c].replica, s.chain[p.n..];
    UsedOk(s);
    RenumberedFresh(p.own, Last(remote).uuid, newId, s.used);
    FreshIds(s.used, Renamed(p.own, remote, newId));
    FreshIds(r.log.Keys, remote);
    IdsConcat(remote, Renamed(p.own, remote, newId));
    WithAllKeys(r.log, remote + Renamed(p.own, remote, newId));
  }
}
