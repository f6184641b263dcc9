/**
 What synchronizing does to the balance.  Rebasing renames transactions but not what they supersede, and removes the
 old names; a push sends the chain, but nothing else the client still stores.
 */
module Rebalance {
  import opened Model
  import opened Store
  import opened Chain
  import opened Sync
  import opened Convergence
  import opened Crash
  import opened Balance
  import opened History
  import opened Tracing

  // ---------- Rebasing ----------

  // The log after own[..j] has been removed and transactions with new ids have been added: nothing that was superseded
  // but missing has turned up, and only the client's own transactions supersede one of them.
  ghost predicate Kept(log: Log, after: Log, own: seq<Transaction>, j: nat)
    requires j <= |own|
  {
    && Ids(own[..j]) !! after.Keys && Ids(own[..j]) <= Ids(own)
    && (forall x :: x in log ==> x in Ids(own[..j]) || (x in after && after[x] == log[x]))
    && (forall x :: x in log && log[x].supersedes in after ==> log[x].supersedes in log)
    && (forall x :: x in log && x !in Ids(own) ==> log[x].supersedes !in Ids(own))
  }

  // The client before a pull, and after one that has written the account and removed own[..j].
  ghost predicate Rebasing(local: Replica, after: Replica, prefix: seq<Transaction>, own: seq<Transaction>,
                           remote: seq<Transaction>, renamed: seq<Transaction>, j: nat)
  {
    && j <= |own| && Alike(renamed, own) && Kept(local.log, after.log, own, j)
    && Complete(local.log, local.account.latestTransaction, prefix + own)
    && Complete(after.log, after.account.latestTransaction, prefix + remote + renamed)
    && [] !in local.log && [] !in after.log && local.account.members == after.account.members
  }

  // A replica as it was when its chain ended with prefix.
  function Before(r: Replica, prefix: seq<Transaction>): Replica {
    r.(account := r.account.(latestTransaction := Head([], prefix)))
  }

  // None of the client's own transactions supersedes one of the first j.
  ghost predicate Spares(own: seq<Transaction>, j: nat)
    requires j <= |own|
  {
    forall i :: 0 <= i < |own| ==> own[i].supersedes !in Ids(own[..j])
  }

  lemma BeforeChain(r: Replica, prefix: seq<Transaction>, newer: seq<Transaction>)
    requires Complete(r.log, r.account.latestTransaction, prefix + newer)
    ensures Complete(Before(r, prefix).log, Before(r, prefix).account.latestTransaction, prefix)
  {
    hide Segment;
    SegmentSplit(r.log, [], prefix, newer, r.account.latestTransaction);
  }

  // Where the client's own transactions are stored.
  lemma OwnStored(r: Replica, prefix: seq<Transaction>, own: seq<Transaction>, i: nat)
    requires Complete(r.log, r.account.latestTransaction, prefix + own) && i < |own|
    ensures own[i].uuid in r.log && r.log[own[i].uuid] == own[i]
  {
    hide Segment;
    assert (prefix + own)[|prefix| + i] == own[i];
    StoredAt(r.log, [], prefix + own, r.account.latestTransaction, |prefix| + i);
  }

  lemma KeptBack(local: Replica, after: Replica, prefix: seq<Transaction>, own: seq<Transaction>, j: nat)
    requires j <= |own| && Kept(local.log, after.log, own, j)
    requires Complete(local.log, local.account.latestTransaction, prefix + own)
    ensures Covers(local.log, after.log)
    ensures forall i :: 0 <= i < |own| && own[i].supersedes in after.log ==> own[i].supersedes in local.log
    ensures forall i :: 0 <= i < |prefix| && prefix[i].supersedes in after.log ==> prefix[i].supersedes in local.log
  {
    hide Segment, Ids;
    forall i | 0 <= i < |own|
      ensures own[i].uuid in local.log && local.log[own[i].uuid] == own[i]
    {
      OwnStored(local, prefix, own, i);
    }
    forall i | 0 <= i < |prefix|
      ensures prefix[i].uuid in local.log && local.log[prefix[i].uuid] == prefix[i]
    {
      assert (prefix + own)[i] == prefix[i];
      StoredAt(local.log, [], prefix + own, local.account.latestTransaction, i);
    }
  }

  lemma KeptForth(local: Replica, after: Replica, prefix: seq<Transaction>, own: seq<Transaction>, j: nat)
    requires j <= |own| && Kept(local.log, after.log, own, j) && Spares(own, j)
    requires Complete(local.log, local.account.latestTransaction, prefix + own)
    ensures Covers(after.log, local.log)
    ensures forall i :: 0 <= i < |own| && own[i].supersedes in local.log ==> own[i].supersedes in after.log
  {
    hide Segment, Ids;
    forall x | x in local.log
      ensures local.log[x].supersedes !in Ids(own[..j])
    {
      if x in Ids(own) {
        var i := IdAt(own, x);
        OwnStored(local, prefix, own, i);
      }
    }
  }

  // One step of the proof that the walks of the new chain end, and where they can fail.
  lemma {:induction false} WalkMoved(log: Log, other: Log, t: Transaction, u: Transaction, n: nat, gone: set<Id>)
    requires Covers(log, other) && u.supersedes == t.supersedes && (t.supersedes in other ==> t.supersedes in log)
    requires forall x :: x in log ==> x in gone || x in other
    requires AncestorWithin(log, t, n).Some?
    ensures AncestorWithin(other, u, n).Some?
    ensures var result := AncestorWithin(other, u, n).value;
            AncestorWithin(log, t, n).value.Ok? && result.Err? ==>
              result.error.NoSuchTransaction? && result.error.id in gone
    decreases n
  {
    if t.supersedes != [] && t.supersedes in other && other[t.supersedes].deleted {
      var v := other[t.supersedes];
      WalkMoved(log, other, v, v, n - 1, gone);
    }
  }

  lemma TxMoved(log: Log, other: Log, t: Transaction, u: Transaction, gone: set<Id>)
    requires Covers(log, other) && u.Payload() == t.Payload() && (t.supersedes in other ==> t.supersedes in log)
    requires forall x :: x in log ==> x in gone || x in other
    requires t.IsCorrection() ==> HasAncestry(log, t)
    ensures u.IsCorrection() ==> HasAncestry(other, u)
    ensures TxEntries(other, u).Ok? ==> TxEntries(log, t) == TxEntries(other, u)
    ensures TxEntries(log, t).Ok? && TxEntries(other, u).Err? ==>
              TxEntries(other, u).error.NoSuchTransaction? && TxEntries(other, u).error.id in gone
  {
    SamePayload(t, u);
    if t.IsCorrection() {
      var n: nat :| AncestorWithin(log, t, n).Some?;
      WalkMoved(log, other, t, u, n, gone);
      AncestorIs(log, t, n);
      AncestorIs(other, u, n);
      EntriesOk(other, u);
      EntriesOk(log, t);
      if TxEntries(other, u).Ok? { TracedCovered(log, other, u, t); }
    }
  }

  // The history after the rebase: the walks end, and the first failing one names a removed id.
  lemma {:induction false} HistoryMoved(log: Log, other: Log, prefix: seq<Transaction>, own: seq<Transaction>,
                                        base: seq<Transaction>, renamed: seq<Transaction>, gone: set<Id>)
    requires Covers(log, other) && Alike(renamed, own)
    requires forall i :: 0 <= i < |own| && own[i].supersedes in other ==> own[i].supersedes in log
    requires forall x :: x in log ==> x in gone || x in other
    requires Readable(log, Reversed(prefix + own)) && Readable(other, Reversed(base))
    ensures Readable(other, Reversed(base + renamed))
    ensures var ledger := Ledger(other, Reversed(base + renamed), []);
            Ledger(other, Reversed(base), []).Ok? && Ledger(log, Reversed(prefix + own), []).Ok? && ledger.Err? ==>
              ledger.error.NoSuchTransaction? && ledger.error.id in gone
    decreases |own|
  {
    hide TxEntries, HasAncestry, Covers;
    if own == [] {
      assert base + renamed == base;
    } else {
      ConcatLast(prefix, own);
      ConcatLast(base, renamed);
      ReversedLast(prefix + own);
      ReversedLast(base + renamed);
      assert forall i :: 0 <= i < |own| - 1 ==> Front(own)[i] == own[i] && Front(renamed)[i] == renamed[i];
      TxMoved(log, other, Last(own), Last(renamed), gone);
      if TxEntries(other, Last(renamed)).Ok? {
        HistoryMoved(log, other, prefix, Front(own), base, Front(renamed), gone);
      }
    }
  }

  /** After a pull, complete or stopped during the removals, the balance can be computed exactly when it could be
      before, the chain received can be accounted for with what the client stores, and none of the client's own
      transactions supersedes one of those removed.  When only that is missing, the error names one of them. */
  lemma RebasedBalanceOk(local: Replica, after: Replica, prefix: seq<Transaction>, own: seq<Transaction>,
                         remote: seq<Transaction>, renamed: seq<Transaction>, j: nat)
    requires Rebasing(local, after, prefix, own, remote, renamed, j)
    requires BalanceEnds(local) && BalanceEnds(Before(after, prefix + remote))
    ensures BalanceEnds(after)
    ensures BalanceOf(after).Ok? <==>
            BalanceOf(local).Ok? && BalanceOf(Before(after, prefix + remote)).Ok? && Spares(own, j)
    ensures BalanceOf(local).Ok? && BalanceOf(Before(after, prefix + remote)).Ok? && !Spares(own, j) ==>
              BalanceOf(after).error.NoSuchTransaction? && BalanceOf(after).error.id in Ids(own[..j])
  {
    hide Segment, Ids, AllTraced, BalanceEnds, BalanceOf, Readable, Ledger, Covers, Spares, PostAll, Alike, Worth;
    var mid := Before(after, prefix + remote);
    BeforeChain(after, prefix + remote, renamed);
    ChainReadable(local, prefix + own);
    ChainReadable(mid, prefix + remote);
    KeptBack(local, after, prefix, own, j);
    HistoryMoved(local.log, after.log, prefix, own, prefix + remote, renamed, Ids(own[..j]));
    ReadableEnds(after, prefix + remote + renamed);
    ChainBalance(local, prefix + own);
    ChainBalance(mid, prefix + remote);
    ChainBalance(after, prefix + remote + renamed);
    WorthConcat(after.log, prefix + remote, renamed, []);
    WorthConcat(after.log, prefix, remote, []);
    WorthConcat(local.log, prefix, own, []);
    if AllTraced(after.log, prefix + remote + renamed) {
      AlikeItself(prefix);
      AllTracedCovered(local.log, after.log, prefix, prefix, []);
      AlikeBack(own, renamed, after.log, local.log);
      AllTracedCovered(local.log, after.log, renamed, own, []);
      TracedSpares(local, after, prefix, own, renamed, j);
    } else if BalanceOf(local).Ok? && BalanceOf(mid).Ok? && Spares(own, j) {
      KeptForth(local, after, prefix, own, j);
      AllTracedCovered(after.log, local.log, own, renamed, []);
    }
  }

  lemma AlikeItself(txs: seq<Transaction>)
    ensures Alike(txs, txs)
  {}

  lemma AlikeBack(own: seq<Transaction>, renamed: seq<Transaction>, after: Log, log: Log)
    requires Alike(renamed, own)
    requires forall i :: 0 <= i < |own| && own[i].supersedes in after ==> own[i].supersedes in log
    ensures Alike(own, renamed)
    ensures forall i :: 0 <= i < |renamed| && renamed[i].supersedes in after ==> renamed[i].supersedes in log
  {
    forall i | 0 <= i < |own|
      ensures renamed[i].supersedes == own[i].supersedes
    {
      SamePayload(own[i], renamed[i]);
    }
  }

  lemma TracedSpares(local: Replica, after: Replica, prefix: seq<Transaction>, own: seq<Transaction>,
                     renamed: seq<Transaction>, j: nat)
    requires j <= |own| && Kept(local.log, after.log, own, j) && Alike(renamed, own) && AllTraced(after.log, renamed)
    requires Complete(local.log, local.account.latestTransaction, prefix + own) && [] !in local.log
    ensures Spares(own, j)
  {
    hide Ids, Segment;
    forall i | 0 <= i < |own|
      ensures own[i].supersedes !in Ids(own[..j])
    {
      SamePayload(own[i], renamed[i]);
      assert Traced(after.log, renamed[i]);
      if own[i].supersedes in Ids(own[..j]) {
        var k := IdAt(own[..j], own[i].supersedes);
        OwnStored(local, prefix, own, k);
        AncestorStep(after.log, renamed[i]);
      }
    }
  }

  // The client stores everything the server does.
  ghost predicate StoresAll(log: Log, server: Log) { forall x :: x in server ==> x in log && log[x] == server[x] }

  // What the server can account for, the client can, with the same result.
  lemma ServerSuffices(server: Replica, mid: Replica, chain: seq<Transaction>)
    requires Complete(server.log, server.account.latestTransaction, chain) && StoresAll(mid.log, server.log)
    requires Complete(mid.log, mid.account.latestTransaction, chain)
    requires BalanceEnds(server) && BalanceOf(server).Ok?
    ensures BalanceEnds(mid) && BalanceOf(mid).Ok?
    ensures mid.account.members == server.account.members ==> BalanceOf(mid) == BalanceOf(server)
  {
    hide Segment, Ids, AllTraced, BalanceEnds, BalanceOf, Worth;
    ChainBalance(server, chain);
    ChainBalance(mid, chain);
    AllTracedCovered(mid.log, server.log, chain, chain, []);
    if mid.account.members == server.account.members {
      forall p | p in Members(server.account)
        ensures BalanceOf(mid).value[p] == BalanceOf(server).value[p]
      {
        AllTracedCovered(mid.log, server.log, chain, chain, p);
      }
      assert BalanceOf(mid).value == BalanceOf(server).value;
    }
  }

  /** When it can, everyone's balance is the server's plus what the client's own transactions had changed before. */
  lemma RebasedBalance(local: Replica, server: Replica, after: Replica, prefix: seq<Transaction>,
                       own: seq<Transaction>, remote: seq<Transaction>, renamed: seq<Transaction>, j: nat, p: Id)
    requires Rebasing(local, after, prefix, own, remote, renamed, j) && p in Members(local.account)
    requires Complete(server.log, server.account.latestTransaction, prefix + remote)
    requires StoresAll(after.log, server.log) && server.account.members == local.account.members
    requires BalanceEnds(local) && BalanceEnds(server) && BalanceOf(local).Ok? && BalanceOf(server).Ok?
    requires Spares(own, j)
    ensures BalanceEnds(after) && BalanceEnds(Before(local, prefix))
    ensures BalanceOf(after).Ok? && BalanceOf(Before(local, prefix)).Ok?
    ensures p in BalanceOf(local).value && p in BalanceOf(server).value && p in BalanceOf(after).value
            && p in BalanceOf(Before(local, prefix)).value
    ensures BalanceOf(after).value[p] ==
            BalanceOf(server).value[p] + BalanceOf(local).value[p] - BalanceOf(Before(local, prefix)).value[p]
  {
    hide Segment, Ids, AllTraced, BalanceEnds, BalanceOf, Covers, Spares, Worth, StoresAll;
    var mid := Before(after, prefix + remote);
    BeforeChain(after, prefix + remote, renamed);
    BeforeChain(local, prefix, own);
    ServerSuffices(server, mid, prefix + remote);
    RebasedBalanceOk(local, after, prefix, own, remote, renamed, j);
    ChainBalance(local, prefix + own);
    ChainBalance(mid, prefix + remote);
    ChainBalance(after, prefix + remote + renamed);
    WorthConcat(after.log, prefix + remote, renamed, p);
    WorthConcat(local.log, prefix, own, p);
    ChainBalance(Before(local, prefix), prefix);
    KeptForth(local, after, prefix, own, j);
    AllTracedCovered(after.log, local.log, own, renamed, p);
  }

  // ---------- The rebase of a pull ----------

  // What the transactions of the log supersede.
  ghost function Supersedes(log: Log): set<Id> { set x | x in log :: log[x].supersedes }

  // What is needed of a client and of the transactions it receives.
  ghost predicate Pullable(local: Replica, prefix: seq<Transaction>, own: seq<Transaction>, remote: seq<Transaction>,
                           newId: nat -> Id)
  {
    && Pulling(local, prefix, own, remote, newId) && [] !in local.log
    && Ids(remote) !! Supersedes(local.log) && FreshSupply(newId, local.log.Keys + Ids(remote) + Supersedes(local.log))
    && (forall x :: x in local.log && x !in Ids(own) ==> local.log[x].supersedes !in Ids(own))
  }

  /** A pull that has written the account and removed the first j of the client's old transactions is an instance. */
  lemma RebaseIsRebasing(local: Replica, prefix: seq<Transaction>, own: seq<Transaction>, remote: seq<Transaction>,
                         newId: nat -> Id, j: nat)
    requires Pullable(local, prefix, own, remote, newId) && j <= |own|
    ensures |remote| + |own| + 1 + j <= |Rebased(local.account, remote, own, newId).writes|
    ensures Rebasing(local, Interrupted(local, own, remote, newId, |remote| + |own| + 1 + j), prefix, own, remote,
                     Renamed(own, remote, newId), j)
  {
    hide Segment, Ids, Fresh, Consistent, Rebased, FreshSupply, Interrupted, Renamed, WithAll, Kept, Supersedes;
    hide Payloads;
    var k := |remote| + |own| + 1 + j;
    var renamed := Renamed(own, remote, newId);
    PullSize(local, own, remote, newId);
    InterruptedPullKeepsAChain(local, prefix, own, remote, newId, k);
    PrefixWithRemoves(local, own, remote, newId, k);
    RebasedMembers(local.account, remote, own, newId);
    RenamedPayloads(own, remote, newId);
    AlikePayloads(own, renamed);
    NewTransactions(local, prefix, own, remote, newId);
    KeptAfter(local.log, own, remote, renamed, j);
  }

  lemma RenamedPayloads(own: seq<Transaction>, remote: seq<Transaction>, newId: nat -> Id)
    requires remote != []
    ensures Payloads(Renamed(own, remote, newId)) == Payloads(own)
  {
    RenumberedPayloads(own, Last(remote).uuid, newId);
  }

  // What is added is new, and is superseded by nothing stored.
  lemma NewTransactions(local: Replica, prefix: seq<Transaction>, own: seq<Transaction>, remote: seq<Transaction>,
                        newId: nat -> Id)
    requires Pullable(local, prefix, own, remote, newId)
    ensures var added := Ids(remote + Renamed(own, remote, newId));
            added !! local.log.Keys && added !! Supersedes(local.log) && [] !in added
    ensures Ids(own) <= local.log.Keys
  {
    hide Segment, Ids, Fresh, Consistent, FreshSupply, Renumbered, Supersedes;
    var renamed := Renamed(own, remote, newId);
    var known := local.log.Keys + Ids(remote) + Supersedes(local.log);
    RenumberedFresh(own, Last(remote).uuid, newId, known);
    FreshIds(known, renamed);
    FreshIds(local.log.Keys, remote);
    IdsConcat(remote, renamed);
    HoldsOwn(local, prefix, own);
  }

  lemma KeptAfter(log: Log, own: seq<Transaction>, remote: seq<Transaction>, renamed: seq<Transaction>, j: nat)
    requires j <= |own| && Ids(own) <= log.Keys
    requires var added := Ids(remote + renamed); added !! log.Keys && added !! Supersedes(log) && [] !in added
    requires forall x :: x in log && x !in Ids(own) ==> log[x].supersedes !in Ids(own)
    ensures Kept(log, WithAll(log, remote + renamed) - Ids(own[..j]), own, j)
    ensures [] !in log ==> [] !in WithAll(log, remote + renamed) - Ids(own[..j])
  {
    hide Ids, WithAll;
    WithAllKeys(log, remote + renamed);
    assert own == own[..j] + own[j..];
    IdsConcat(own[..j], own[j..]);
  }

  lemma RebasedMembers(account: Account, remote: seq<Transaction>, own: seq<Transaction>, newId: nat -> Id)
    requires remote != []
    ensures Rebased(account, remote, own, newId).account.members == account.members
    ensures OnlyPointers(account, Rebased(account, remote, own, newId).account)
  {}

  lemma AlikePayloads(own: seq<Transaction>, renamed: seq<Transaction>)
    requires Payloads(renamed) == Payloads(own)
    ensures Alike(renamed, own) && Alike(own, renamed)
  {
    assert |Payloads(renamed)| == |renamed| && |Payloads(own)| == |own|;
    forall i | 0 <= i < |own|
      ensures renamed[i].Payload() == own[i].Payload()
    {
      assert Payloads(renamed)[i] == Payloads(own)[i];
    }
  }

  lemma FollowRenamed(own: seq<Transaction>, renamed: seq<Transaction>, ids: set<Id>, more: set<Id>)
    requires Payloads(renamed) == Payloads(own) && FollowAll(own, ids) && ids <= more
    ensures FollowAll(renamed, more)
  {
    AlikePayloads(own, renamed);
    forall i | 0 <= i < |renamed|
      ensures Follows(renamed[i], more)
    {
      SamePayload(own[i], renamed[i]);
      assert Follows(own[i], ids);
    }
  }

  // ---------- Pushing ----------

  /** After a push to a server that stores just its chain, and where nothing supersedes a newer transaction, the
      server's balance can be computed exactly when everything superseded is on the chain, older, and every deletion
      says what it deletes.  The client can then compute the same balance.  The converse fails: the client may store
      more. */
  lemma PushedBalance(local: Replica, server: Replica, common: seq<Transaction>, own: seq<Transaction>)
    requires Holds(local, common, own) && NoStray(common + own, Ids(common + own))
    requires Complete(server.log, server.account.latestTransaction, common) && server.log.Keys == Ids(common)
    requires local.account.members == server.account.members
    ensures LocalWalkable(local) && Sync.Push(local, server).result == Ok(())
    ensures var after := Sync.Push(local, server).server;
            && BalanceEnds(after) && (BalanceOf(after).Ok? <==> Sound(common + own))
            && (BalanceOf(after).Ok? ==> BalanceEnds(local) && BalanceOf(local) == BalanceOf(after))
  {
    hide Segment, Ids, Sound, Sync.Push, BalanceOf, BalanceEnds, NoStray, StoresAll;
    PushedExactly(local, server, common, own);
    PushKeepsMembers(local, server, common, own);
    var after, chain := Sync.Push(local, server).server, common + own;
    if BalanceOf(after).Ok? {
      SameStored(local, after, chain);
      ServerSuffices(after, local, chain);
    }
  }

  lemma PushedExactly(local: Replica, server: Replica, common: seq<Transaction>, own: seq<Transaction>)
    requires Holds(local, common, own) && NoStray(common + own, Ids(common + own))
    requires Complete(server.log, server.account.latestTransaction, common) && server.log.Keys == Ids(common)
    ensures LocalWalkable(local) && Sync.Push(local, server).result == Ok(())
    ensures var after := Sync.Push(local, server).server;
            && Complete(after.log, after.account.latestTransaction, common + own)
            && after.log.Keys == Ids(common + own)
            && BalanceEnds(after) && (BalanceOf(after).Ok? <==> Sound(common + own))
  {
    hide Segment, Ids, Sound, Sync.Push, BalanceOf, BalanceEnds, NoStray;
    HoldsOwn(local, common, own);
    PushConverges(local, server, common, own);
    IdsConcat(common, own);
    var after := Sync.Push(local, server).server;
    SegmentHead(after.log, [], common + own, after.account.latestTransaction);
    SoundExactly(after, common + own);
  }

  lemma SameStored(local: Replica, server: Replica, chain: seq<Transaction>)
    requires Complete(local.log, local.account.latestTransaction, chain)
    requires Complete(server.log, server.account.latestTransaction, chain) && server.log.Keys <= Ids(chain)
    ensures StoresAll(local.log, server.log)
  {
    hide Segment, Ids;
    forall x | x in server.log
      ensures x in local.log && local.log[x] == server.log[x]
    {
      var i := IdAt(chain, x);
      StoredAt(local.log, [], chain, local.account.latestTransaction, i);
      StoredAt(server.log, [], chain, server.account.latestTransaction, i);
    }
  }

  lemma PushKeepsMembers(local: Replica, server: Replica, common: seq<Transaction>, own: seq<Transaction>)
    requires Holds(local, common, own) && LocalWalkable(local)
    ensures Sync.Push(local, server).server.account.members == server.account.members
  {
    hide Segment, Ids, DoReplicaAll;
    HoldsOwn(local, common, own);
    if own != [] && Receive(server, own).Ok? { ReceiveView(server, own); }
  }
}
