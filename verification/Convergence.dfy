/**
 What one synchronization or clone achieves.

 The client's chain is prefix + own, the server's is prefix + remote, where the client's last synchronized
 transaction is the newest of prefix.
 */
module Convergence {
  import opened Model
  import opened Store
  import opened Chain
  import opened Sync
  import Settlement

  // Generated ids are pairwise different, not empty and outside a set of ids already in use.
  ghost predicate FreshSupply(newId: nat -> Id, known: set<Id>) {
    && (forall i: nat :: newId(i) != [] && newId(i) !in known)
    && (forall i: nat, j: nat :: i < j ==> newId(i) != newId(j))
  }

  lemma SupplyWeaken(newId: nat -> Id, known: set<Id>, fewer: set<Id>)
    requires FreshSupply(newId, known) && fewer <= known
    ensures FreshSupply(newId, fewer)
  {}

  lemma SupplyExists(known: set<Id>) returns (newId: nat -> Id)
    ensures FreshSupply(newId, known)
  {
    newId := Zeros(Settlement.Longest(known) + 1);
  }

  // Ids of growing length.
  ghost function Zeros(n: nat): (ids: nat -> Id)
    ensures forall i: nat :: |ids(i)| == n + i
  {
    (i: nat) => seq(n + i, j => 0)
  }

  lemma {:induction false} RenumberedFresh(txs: seq<Transaction>, base: Id, newId: nat -> Id, known: set<Id>)
    requires FreshSupply(newId, known)
    ensures var r := Renumbered(txs, base, newId);
            && Fresh(known, r) && Consistent(base, r)
            && (forall x :: x in Ids(r) ==> exists i: nat :: i < |txs| && x == newId(i))
  {
    if txs != [] {
      RenumberedFresh(Front(txs), base, newId, known);
      var r := Renumbered(txs, base, newId);
      assert Front(r) == Renumbered(Front(txs), base, newId);
    }
  }

  // Rebasing changes neither what was entered nor the order it was entered in.
  lemma {:induction false} RenumberedPayloads(txs: seq<Transaction>, base: Id, newId: nat -> Id)
    ensures Payloads(Renumbered(txs, base, newId)) == Payloads(txs)
  {
    if txs != [] {
      RenumberedPayloads(Front(txs), base, newId);
      var r := Renumbered(txs, base, newId);
      assert Payloads(r) == Payloads(Front(r)) + [Last(r).Payload()];
      assert Payloads(txs) == Payloads(Front(txs)) + [Last(txs).Payload()];
      assert Front(r) == Renumbered(Front(txs), base, newId);
    }
  }

  lemma {:induction false} FreshIsUnknown(log: Log, txs: seq<Transaction>)
    requires Fresh(log.Keys, txs)
    ensures FirstKnown(log, IdsOf(txs)) == None
  {
    if txs != [] {
      FreshIsUnknown(log, Front(txs));
      assert Front(IdsOf(txs)) == IdsOf(Front(txs));
    }
  }

  lemma {:induction false} ConsistentFirst(base: Id, txs: seq<Transaction>)
    requires Consistent(base, txs) && txs != []
    ensures txs[0].parent == base
  {
    if |txs| > 1 { ConsistentFirst(base, Front(txs)); }
  }

  // A client whose chain is prefix + own, where prefix is synchronized.
  ghost predicate Holds(r: Replica, prefix: seq<Transaction>, own: seq<Transaction>) {
    && Complete(r.log, r.account.latestTransaction, prefix + own)
    && r.account.latestSynchronizedTransaction == Head([], prefix)
  }

  lemma HoldsOwn(r: Replica, prefix: seq<Transaction>, own: seq<Transaction>)
    requires Holds(r, prefix, own)
    ensures LocalWalkable(r) && Unsynchronized(r) == Ok(own)
    ensures Complete(r.log, Head([], prefix), prefix)
    ensures Fresh({}, prefix + own) && Ids(prefix) !! Ids(own)
    ensures Ids(prefix) + Ids(own) <= r.log.Keys && [] !in Ids(prefix) + Ids(own)
  {
    SinceComplete(r.log, r.account.latestTransaction, prefix, own);
    SegmentSplit(r.log, [], prefix, own, r.account.latestTransaction);
    CompleteUnique(r.log, r.account.latestTransaction, prefix + own, prefix + own);
    FreshConcat({}, prefix, own);
    FreshIds({} + Ids(prefix), own);
    SegmentHead(r.log, [], prefix + own, r.account.latestTransaction);
    IdsConcat(prefix, own);
  }

  // There is only one way to divide a replica's chain.
  lemma HoldsUnique(r: Replica, prefix: seq<Transaction>, own: seq<Transaction>,
                    prefix2: seq<Transaction>, own2: seq<Transaction>)
    requires Holds(r, prefix, own) && Holds(r, prefix2, own2)
    ensures prefix == prefix2 && own == own2
  {
    hide Segment, Ids, Fresh;
    HoldsOwn(r, prefix, own);
    HoldsOwn(r, prefix2, own2);
    CompleteUnique(r.log, r.account.latestTransaction, prefix + own, prefix2 + own2);
    assert |prefix| == |prefix2|;
    assert prefix == (prefix + own)[..|prefix|] && prefix2 == (prefix2 + own2)[..|prefix2|];
  }

  // The log holds a complete chain with the rebased transactions on top of everything received.
  lemma RebasedChain(r: Replica, prefix: seq<Transaction>, own: seq<Transaction>, remote: seq<Transaction>,
                     newId: nat -> Id, log: Log)
    requires Holds(r, prefix, own) && remote != [] && Consistent(Head([], prefix), remote)
    requires Fresh(r.log.Keys, remote) && FreshSupply(newId, r.log.Keys + Ids(remote))
    requires var all := WithAll(r.log, remote + Renumbered(own, Last(remote).uuid, newId));
             forall x :: x in all && x !in Ids(own) ==> x in log && log[x] == all[x]
    ensures var pulled := Rebased(r.account, remote, own, newId);
            Holds(Replica(pulled.account, log), prefix + remote, Renumbered(own, Last(remote).uuid, newId))
  {
    hide Ids, Fresh, Segment, WithAll, Consistent, Renumbered;
    var renumbered := Renumbered(own, Last(remote).uuid, newId);
    var known := r.log.Keys;
    HoldsOwn(r, prefix, own);
    RenumberedFresh(own, Last(remote).uuid, newId, known + Ids(remote));
    FreshConcat(known, remote, renumbered);
    ConsistentConcat(Head([], prefix), remote, renumbered);
    Extend(r.log, [], prefix, Head([], prefix), remote + renumbered);
    var all := WithAll(r.log, remote + renumbered);
    var head := Head(Head([], prefix), remote + renumbered);
    assert prefix + remote + renumbered == prefix + (remote + renumbered);
    IdsConcat(prefix, remote + renumbered);
    FreshIds(known, remote + renumbered);
    SegmentFrame(all, log, [], prefix + (remote + renumbered), head);
    ConsistentConcat([], prefix, remote);
  }

  // Which transactions the log holds after a rebase.
  lemma RebasedKeys(local: Replica, own: seq<Transaction>, remote: seq<Transaction>, newId: nat -> Id)
    requires remote != [] && FreshSupply(newId, local.log.Keys + Ids(remote))
    ensures var renumbered := Renumbered(own, Last(remote).uuid, newId);
            var after := DoReplicaAll(local, Rebased(local.account, remote, own, newId).writes);
            && after.log.Keys == local.log.Keys + Ids(remote) + Ids(renumbered) - Ids(own)
            && Ids(renumbered) !! local.log.Keys + Ids(remote)
            && after.account.uuid == local.account.uuid && after.account.members == local.account.members
  {
    var renumbered := Renumbered(own, Last(remote).uuid, newId);
    RebasedView(local, remote, own, newId);
    WithAllKeys(local.log, remote + renumbered);
    IdsConcat(remote, renumbered);
    RenumberedFresh(own, Last(remote).uuid, newId, local.log.Keys + Ids(remote));
    FreshIds(local.log.Keys + Ids(remote), renumbered);
  }

  // Rebasing a client onto transactions it does not know.
  lemma RebaseConverges(local: Replica, prefix: seq<Transaction>, own: seq<Transaction>, remote: seq<Transaction>,
                        newId: nat -> Id)
    requires Holds(local, prefix, own) && remote != [] && Consistent(Head([], prefix), remote)
    requires Fresh(local.log.Keys, remote) && FreshSupply(newId, local.log.Keys + Ids(remote))
    ensures LocalWalkable(local) && Acceptable(local, remote)
    ensures Rebase(local, remote, newId) == Ok(Rebased(local.account, remote, own, newId))
    ensures Holds(DoReplicaAll(local, Rebased(local.account, remote, own, newId).writes),
                  prefix + remote, Renumbered(own, Last(remote).uuid, newId))
  {
    HoldsOwn(local, prefix, own);
    FreshIsUnknown(local.log, remote);
    ConsistentFirst(Head([], prefix), remote);
    RebasedView(local, remote, own, newId);
    var after := DoReplicaAll(local, Rebased(local.account, remote, own, newId).writes);
    RebasedChain(local, prefix, own, remote, newId, after.log);
  }

  // What the server answers when asked for the transactions after a synchronized prefix.
  lemma ServerChildren(server: Replica, prefix: seq<Transaction>, remote: seq<Transaction>)
    requires Complete(server.log, server.account.latestTransaction, prefix + remote)
    ensures ChildrenEnd(server, Head([], prefix)) && Children(server, Head([], prefix)) == Ok(remote)
    ensures Consistent(Head([], prefix), remote) && Fresh({}, prefix + remote)
    ensures server.account.latestTransaction == Head([], prefix) <==> remote == []
  {
    SinceComplete(server.log, server.account.latestTransaction, prefix, remote);
    SegmentSplit(server.log, [], prefix, remote, server.account.latestTransaction);
    SegmentHead(server.log, Head([], prefix), remote, server.account.latestTransaction);
    CompleteUnique(server.log, server.account.latestTransaction, prefix + remote, prefix + remote);
    if remote != [] {
      assert prefix + remote + [] == prefix + remote;
      SinceComplete(server.log, server.account.latestTransaction, prefix + remote, []);
      SegmentHead(server.log, [], prefix + remote, server.account.latestTransaction);
    }
  }

  // A pull of transactions the client does not know succeeds.
  lemma PullConverges(local: Replica, server: Replica, prefix: seq<Transaction>, own: seq<Transaction>,
                      remote: seq<Transaction>, newId: nat -> Id)
    requires Holds(local, prefix, own)
    requires Complete(server.log, server.account.latestTransaction, prefix + remote)
    requires Ids(remote) !! local.log.Keys && FreshSupply(newId, local.log.Keys + Ids(remote))
    ensures Fresh(local.log.Keys, remote) && Consistent(Head([], prefix), remote)
    ensures PullEnds(local, server)
    ensures Pull(local, server, newId) ==
            Ok(if remote == [] then Pulled(local.account, []) else Rebased(local.account, remote, own, newId))
  {
    ServerChildren(server, prefix, remote);
    if remote != [] {
      FreshConcat({}, prefix, remote);
      FreshRaise({} + Ids(prefix), local.log.Keys, remote);
      RebaseConverges(local, prefix, own, remote, newId);
    }
  }

  // A client that already knows the first transaction it is about to receive refuses it before any write.
  lemma DuplicateRefused(local: Replica, server: Replica, prefix: seq<Transaction>, remote: seq<Transaction>,
                         newId: nat -> Id)
    requires local.account.latestSynchronizedTransaction == Head([], prefix) && remote != []
    requires Complete(server.log, server.account.latestTransaction, prefix + remote)
    requires remote[0].uuid in local.log
    ensures PullEnds(local, server)
    ensures Pull(local, server, newId) == Err(DuplicateTransactionId(remote[0].uuid))
  {
    ServerChildren(server, prefix, remote);
    var ids := IdsOf(remote);
    assert ids[..1] == [remote[0].uuid] && Front(ids[..1]) == [];
    FirstKnownPrefix(local.log, ids, 1);
  }

  // Pushing on top of the server's own latest transaction.
  lemma PushConverges(local: Replica, server: Replica, common: seq<Transaction>, own: seq<Transaction>)
    requires Holds(local, common, own) && Complete(server.log, server.account.latestTransaction, common)
    requires Ids(own) !! server.log.Keys
    ensures LocalWalkable(local)
    ensures var after := Push(local, server);
            && after.result == Ok(())
            && after.local == Acknowledged(local) && Holds(after.local, common + own, [])
            && Complete(after.server.log, after.server.account.latestTransaction, common + own)
            && after.server.account.latestTransaction == local.account.latestTransaction
            && after.server.log.Keys == server.log.Keys + Ids(own)
            && after.server.account.uuid == server.account.uuid
  {
    HoldsOwn(local, common, own);
    SegmentSplit(local.log, [], common, own, local.account.latestTransaction);
    SegmentHead(local.log, Head([], common), own, local.account.latestTransaction);
    SegmentHead(server.log, [], common, server.account.latestTransaction);
    SegmentHead(local.log, [], common + own, local.account.latestTransaction);
    assert common + own + [] == common + own;
    if own == [] {
      assert common + own == common;
    } else {
      ConsistentFirst(Head([], common), own);
      FreshConcat({}, common, own);
      FreshRaise({} + Ids(common), server.log.Keys, own);
      ReceiveView(server, own);
      Extend(server.log, [], common, server.account.latestTransaction, own);
      WithAllKeys(server.log, own);
    }
  }

  lemma {:induction false} FreshRaise(fewer: set<Id>, known: set<Id>, txs: seq<Transaction>)
    requires Fresh(fewer, txs) && Ids(txs) !! known
    ensures Fresh(known, txs)
  {
    if txs != [] { FreshRaise(fewer, known, Front(txs)); }
  }

  // The client's transactions once they sit on top of what the server had.
  function OnTop(own: seq<Transaction>, remote: seq<Transaction>, newId: nat -> Id): seq<Transaction> {
    if remote == [] then own else Renumbered(own, Last(remote).uuid, newId)
  }

  /** With no interleaved push, a synchronization succeeds: both sides end up with the same chain, prefix + remote
      followed by the client's transactions, and with the same pointers. */
  lemma SyncConverges(local: Replica, server: Replica, prefix: seq<Transaction>, own: seq<Transaction>,
                      remote: seq<Transaction>, newId: nat -> Id)
    requires Holds(local, prefix, own)
    requires Complete(server.log, server.account.latestTransaction, prefix + remote)
    requires Ids(remote) !! local.log.Keys && Ids(own) !! server.log.Keys
    requires FreshSupply(newId, local.log.Keys + server.log.Keys)
    ensures SyncEnds(local, server, newId)
    ensures var after := SyncOutcome(local, server, newId);
            var chain := prefix + remote + OnTop(own, remote, newId);
            && after.result == Ok(())
            && Holds(after.local, chain, [])
            && Complete(after.server.log, after.server.account.latestTransaction, chain)
            && after.local.account.latestTransaction == after.server.account.latestTransaction
            && after.local.account.latestSynchronizedTransaction == after.server.account.latestTransaction
  {
    SegmentHead(server.log, [], prefix + remote, server.account.latestTransaction);
    IdsConcat(prefix, remote);
    PullConverges(local, server, prefix, own, remote, newId);
    if remote == [] {
      assert prefix + remote == prefix;
      PushConverges(local, server, prefix, own);
      assert DoReplicaAll(local, []) == local;
    } else {
      RebaseConverges(local, prefix, own, remote, newId);
      RebasedKeys(local, own, remote, newId);
      var after := DoReplicaAll(local, Rebased(local.account, remote, own, newId).writes);
      var renumbered := Renumbered(own, Last(remote).uuid, newId);
      RenumberedFresh(own, Last(remote).uuid, newId, local.log.Keys + server.log.Keys);
      FreshIds(local.log.Keys + server.log.Keys, renumbered);
      PushConverges(after, server, prefix + remote, renumbered);
    }
  }

  lemma {:induction false} FirstKnownIs(log: Log, txs: seq<Transaction>)
    ensures FirstKnown(log, IdsOf(txs)).None? <==> Ids(txs) !! log.Keys
    ensures FirstKnown(log, IdsOf(txs)).Some? ==>
              FirstKnown(log, IdsOf(txs)).value in Ids(txs) && FirstKnown(log, IdsOf(txs)).value in log
  {
    if txs != [] {
      FirstKnownIs(log, Front(txs));
      assert Front(IdsOf(txs)) == IdsOf(Front(txs));
    }
  }

  // A clone that finds none of the server's transactions copies its chain.
  lemma CloneSucceeds(account: Account, server: Replica, chain: seq<Transaction>, log: Log, newId: nat -> Id)
    requires Complete(server.log, server.account.latestTransaction, chain)
    requires FreshSupply(newId, log.Keys + server.log.Keys) && Ids(chain) !! log.Keys
    ensures var local := Replica(Unlinked(account), log);
            && SyncEnds(local, server, newId)
            && var after := SyncOutcome(local, server, newId);
            && after.result == Ok(()) && Holds(after.local, chain, []) && after.server == server
            && after.local.account.latestTransaction == server.account.latestTransaction
  {
    hide Segment, Ids, Fresh, Consistent, Rebased, DoReplicaAll;
    var local := Replica(Unlinked(account), log);
    assert [] + chain == chain && chain + [] == chain && OnTop([], chain, newId) == [];
    NothingHeld(local);
    SyncConverges(local, server, [], [], chain, newId);
    ServerChildren(server, [], chain);
    if chain == [] {
      NoWritesView(local);
      HoldsOwn(local, [], []);
    } else {
      SegmentHead(server.log, [], chain, server.account.latestTransaction);
      PullConverges(local, server, [], [], chain, newId);
      RebaseConverges(local, [], [], chain, newId);
      HoldsOwn(DoReplicaAll(local, Rebased(local.account, chain, [], newId).writes), [] + chain, []);
    }
  }

  lemma NothingHeld(r: Replica)
    requires r.account.latestTransaction == [] && r.account.latestSynchronizedTransaction == []
    ensures Holds(r, [], []) && Ids([]) == {} && LocalWalkable(r)
  {
    assert Trail(r.log, [], [], [], []);
  }

  /** Cloning an account succeeds exactly when the store holds none of the transactions on the server, such as those
      left behind by an earlier copy of the account that was deleted; otherwise it changes neither log.  The copy has
      the server's id, label and members in any case, and is the server's account when cloning succeeds. */
  lemma CloneConverges(account: Account, server: Replica, chain: seq<Transaction>, log: Log, newId: nat -> Id)
    requires Complete(server.log, server.account.latestTransaction, chain)
    requires FreshSupply(newId, log.Keys + server.log.Keys)
    ensures var local := Replica(Unlinked(account), log);
            && SyncEnds(local, server, newId)
            && var after := SyncOutcome(local, server, newId);
            && after.server == server && (after.result.Ok? <==> Ids(chain) !! log.Keys)
            && (after.result.Ok? ==>
                  && Holds(after.local, chain, [])
                  && after.local.account == account.(
                       latestTransaction := server.account.latestTransaction,
                       latestSynchronizedTransaction := server.account.latestTransaction))
            && (after.result.Err? ==>
                  && after.local.log == log && after.result.error.DuplicateTransactionId?
                  && after.local.account == account.(latestTransaction := [], latestSynchronizedTransaction := [])
                  && after.result.error.id in Ids(chain) && after.result.error.id in log)
  {
    hide Segment, Ids, Fresh, Consistent, Rebased, DoReplicaAll, Since;
    var local := Replica(Unlinked(account), log);
    if Ids(chain) !! log.Keys {
      CloneSucceeds(account, server, chain, log, newId);
      CopyIs(account, server, chain, log, newId);
    } else {
      assert [] + chain == chain;
      NothingHeld(local);
      ServerChildren(server, [], chain);
      FirstKnownIs(log, chain);
    }
  }

  lemma CopyIs(account: Account, server: Replica, chain: seq<Transaction>, log: Log, newId: nat -> Id)
    requires var local := Replica(Unlinked(account), log);
             && SyncEnds(local, server, newId)
             && var after := SyncOutcome(local, server, newId);
             Holds(after.local, chain, [])
             && after.local.account.latestTransaction == server.account.latestTransaction
    ensures SyncOutcome(Replica(Unlinked(account), log), server, newId).local.account ==
            account.(latestTransaction := server.account.latestTransaction,
                     latestSynchronizedTransaction := server.account.latestTransaction)
  {
    hide Segment, SyncOutcome, SyncEnds;
    SyncKeepsAccounts(Replica(Unlinked(account), log), server, newId);
    var after := SyncOutcome(Replica(Unlinked(account), log), server, newId).local;
    assert chain + [] == chain;
    SegmentHead(after.log, [], chain, after.account.latestTransaction);
  }

  /** Cloning an account, deleting it and cloning it again fails, because deleting it keeps its transactions. */
  lemma CloneAgainRefused(db: Db, server: Replica, chain: seq<Transaction>, newId: nat -> Id, again: nat -> Id)
    requires WellKeyed(db) && Has(db, server.account.uuid) && chain != []
    requires Complete(server.log, server.account.latestTransaction, chain) && FreshSupply(newId, server.log.Keys)
    requires SyncEnds(Replica(Unlinked(server.account), map[]), server, newId)
    requires View(db, server.account.uuid) ==
             SyncOutcome(Replica(Unlinked(server.account), map[]), server, newId).local
    requires FreshSupply(again, LogIn(db, server.account.uuid).Keys + server.log.Keys)
    ensures SyncOutcome(Replica(Unlinked(server.account), map[]), server, newId).result.Ok?
    ensures var gone := Do(db, RemoveAccount(server.account.uuid));
            var local := Replica(Unlinked(server.account), LogIn(gone, server.account.uuid));
            && SyncEnds(local, server, again)
            && SyncOutcome(local, server, again).result.Err?
            && SyncOutcome(local, server, again).result.error.DuplicateTransactionId?
  {
    hide Segment, Ids, Fresh, SyncOutcome, SyncEnds, LogIn;
    var a := server.account.uuid;
    LogView(db, RemoveAccount(a), a);
    var none: Log := map[];
    assert none.Keys + server.log.Keys == server.log.Keys;
    CloneConverges(server.account, server, chain, map[], newId);
    HoldsOwn(View(db, a), chain, []);
    CloneConverges(server.account, server, chain, LogIn(db, a), again);
    IdIn(chain, 0);
  }

  // ---------- Answers, one by one ----------

  // The first of the transactions' ids that the log knows.
  ghost predicate FirstKnownAt(log: Log, txs: seq<Transaction>, i: nat) {
    i < |txs| && txs[i].uuid in log && forall j :: 0 <= j < i ==> txs[j].uuid !in log
  }

  lemma {:induction false} FirstKnownAnswer(log: Log, txs: seq<Transaction>, i: nat)
    requires FirstKnownAt(log, txs, i)
    ensures FirstKnown(log, IdsOf(txs)) == Some(txs[i].uuid)
    decreases |txs|
  {
    assert Front(IdsOf(txs)) == IdsOf(Front(txs));
    if i < |txs| - 1 {
      assert forall j :: 0 <= j < |txs| - 1 ==> Front(txs)[j] == txs[j];
      FirstKnownAnswer(log, Front(txs), i);
    } else {
      NoneKnown(log, Front(txs));
    }
  }

  lemma {:induction false} NoneKnown(log: Log, txs: seq<Transaction>)
    requires forall j :: 0 <= j < |txs| ==> txs[j].uuid !in log
    ensures FirstKnown(log, IdsOf(txs)) == None
    decreases |txs|
  {
    if txs != [] {
      assert Front(IdsOf(txs)) == IdsOf(Front(txs));
      assert forall j :: 0 <= j < |txs| - 1 ==> Front(txs)[j] == txs[j];
      NoneKnown(log, Front(txs));
    }
  }

  /** What a client answers to the transactions it receives, in this order: none at all, one it knows, links that do not
      match, and transactions of its own it cannot read. */
  lemma RebaseAnswers(local: Replica, remote: seq<Transaction>, newId: nat -> Id)
    requires LocalWalkable(local)
    ensures remote == [] ==> Rebase(local, remote, newId) == Err(InconsistentServerResponse)
    ensures forall i: nat :: FirstKnownAt(local.log, remote, i) ==>
              Rebase(local, remote, newId) == Err(DuplicateTransactionId(remote[i].uuid))
    ensures remote != [] && (forall i :: 0 <= i < |remote| ==> remote[i].uuid !in local.log) ==>
              && (!LinksUp(remote) ==> Rebase(local, remote, newId) == Err(InconsistentChain))
              && (LinksUp(remote) && Unsynchronized(local).Err? ==>
                    Rebase(local, remote, newId) == Err(Unsynchronized(local).error))
              && (LinksUp(remote) && Unsynchronized(local).Ok? ==> Rebase(local, remote, newId).Ok?)
  {
    hide FirstKnown, Consistent, Unsynchronized, LocalWalkable, Rebased;
    forall i: nat | FirstKnownAt(local.log, remote, i)
      ensures Rebase(local, remote, newId) == Err(DuplicateTransactionId(remote[i].uuid))
    {
      FirstKnownAnswer(local.log, remote, i);
    }
    if remote != [] && forall i :: 0 <= i < |remote| ==> remote[i].uuid !in local.log {
      NoneKnown(local.log, remote);
      ConsistentIs(remote[0].parent, remote);
    }
  }

  /** A pull asks the server unless the latest synchronized transaction is the server's latest one, and passes on its
      error; whatever happens, nothing but the two pointers of the account changes. */
  lemma PullAnswers(local: Replica, server: Replica, newId: nat -> Id)
    requires PullEnds(local, server)
    ensures var base := local.account.latestSynchronizedTransaction;
            && (base == server.account.latestTransaction ==>
                  Pull(local, server, newId) == Ok(Pulled(local.account, [])))
            && (base != server.account.latestTransaction && base != [] && base !in server.log ==>
                  Pull(local, server, newId) == Err(NoSuchTransaction(base)))
            && (base != server.account.latestTransaction && Children(server, base).Err? ==>
                  Pull(local, server, newId) == Err(Children(server, base).error))
            && (base != server.account.latestTransaction && Children(server, base).Ok? ==>
                  Pull(local, server, newId) == Rebase(local, Children(server, base).value, newId))
    ensures Pull(local, server, newId).Ok? ==>
              && OnlyPointers(local.account, Pull(local, server, newId).value.account)
              && DoReplicaAll(local, Pull(local, server, newId).value.writes).account
                 == Pull(local, server, newId).value.account
  {
    hide Children, Rebase, DoReplicaAll, LocalWalkable;
    var base := local.account.latestSynchronizedTransaction;
    if base != server.account.latestTransaction && base != [] && base !in server.log {
      ChildrenUnknown(server, base);
    }
    if Pull(local, server, newId).Ok? { PulledView(local, server, newId); }
  }

  lemma OwnLinks(local: Replica, prefix: seq<Transaction>, own: seq<Transaction>)
    requires Holds(local, prefix, own)
    ensures Consistent(Head([], prefix), own) && (own != [] ==> own[0].parent == Head([], prefix) && LinksUp(own))
    ensures Head(Head([], prefix), own) == local.account.latestTransaction
  {
    hide Segment;
    SegmentSplit(local.log, [], prefix, own, local.account.latestTransaction);
    SegmentHead(local.log, Head([], prefix), own, local.account.latestTransaction);
    if own != [] {
      ConsistentIs(Head([], prefix), own);
    }
  }

  /** The answers to a push.  Without transactions of its own a client sends nothing; with some, they are refused with
      MustRebase, and nothing changes, exactly when the server has moved on; otherwise the server stores them and both
      sides record them. */
  lemma PushAnswers(local: Replica, server: Replica, prefix: seq<Transaction>, own: seq<Transaction>)
    requires Holds(local, prefix, own)
    ensures LocalWalkable(local)
    ensures own == [] ==> Push(local, server) == Outcome(Ok(()), local, server)
    ensures own != [] && server.account.latestTransaction != local.account.latestSynchronizedTransaction ==>
              Push(local, server) == Outcome(Err(MustRebase), local, server)
    ensures own != [] && server.account.latestTransaction == local.account.latestSynchronizedTransaction ==>
              var after := Push(local, server);
              && after.result == Ok(()) && after.local.log == local.log
              && after.local.account == local.account.(latestSynchronizedTransaction := local.account.latestTransaction)
              && after.server.account == server.account.(latestTransaction := local.account.latestTransaction)
              && after.server.log.Keys == server.log.Keys + Ids(own)
  {
    hide Segment, Ids, Consistent, DoReplicaAll, Receive, Fresh;
    HoldsOwn(local, prefix, own);
    OwnLinks(local, prefix, own);
    ReceiveAnswers(server, own);
  }

  // A client that cannot read its own transactions sends nothing.
  lemma PushUnreadable(local: Replica, server: Replica)
    requires LocalWalkable(local) && Unsynchronized(local).Err?
    ensures Push(local, server) == Outcome(Err(Unsynchronized(local).error), local, server)
  {}

  /** In particular, when somebody else has pushed in between. */
  lemma PushRefused(local: Replica, server: Replica, prefix: seq<Transaction>, own: seq<Transaction>,
                    more: seq<Transaction>)
    requires Holds(local, prefix, own) && Complete(server.log, server.account.latestTransaction, prefix + more)
    ensures LocalWalkable(local)
    ensures own != [] && more != [] ==> Push(local, server) == Outcome(Err(MustRebase), local, server)
    ensures Push(local, server).result.Ok? <==> own == [] || more == []
  {
    hide Segment, Ids, Fresh, Consistent, Push;
    ServerChildren(server, prefix, more);
    PushAnswers(local, server, prefix, own);
  }
}
