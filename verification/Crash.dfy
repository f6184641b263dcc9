/** A pull that stops between two of its writes. */
module Crash {
  import opened Model
  import opened Store
  import opened Chain
  import opened Sync
  import opened Convergence

  // A pull of remote into a client holding prefix + own, as RebaseConverges assumes it.
  ghost predicate Pulling(local: Replica, prefix: seq<Transaction>, own: seq<Transaction>, remote: seq<Transaction>,
                          newId: nat -> Id)
  {
    && Holds(local, prefix, own) && remote != [] && Consistent(Head([], prefix), remote)
    && Fresh(local.log.Keys, remote) && FreshSupply(newId, local.log.Keys + Ids(remote))
  }

  ghost function Renamed(own: seq<Transaction>, remote: seq<Transaction>, newId: nat -> Id): seq<Transaction>
    requires remote != []
  {
    Renumbered(own, Last(remote).uuid, newId)
  }

  lemma PullSize(local: Replica, own: seq<Transaction>, remote: seq<Transaction>, newId: nat -> Id)
    requires remote != []
    ensures |Renamed(own, remote, newId)| == |own|
    ensures |Rebased(local.account, remote, own, newId).writes| == |remote| + |own| + 1 + |own|
  {}

  // The store after the first k writes of the pull.
  ghost function Interrupted(local: Replica, own: seq<Transaction>, remote: seq<Transaction>, newId: nat -> Id,
                             k: nat): Replica
    requires remote != [] && k <= |Rebased(local.account, remote, own, newId).writes|
  {
    DoReplicaAll(local, Rebased(local.account, remote, own, newId).writes[..k])
  }

  // The effect of the first writes of a rebase, before and after the account is written.
  lemma PrefixView(r: Replica, a: Id, kept: seq<Transaction>, account: Account, dropped: seq<Transaction>, k: nat)
    requires k <= |kept| + 1 + |dropped|
    ensures DoReplicaAll(r, RebaseWrites(a, kept, account, dropped)[..k]) ==
            if k <= |kept| then r.(log := WithAll(r.log, kept[..k]))
            else Replica(account, WithAll(r.log, kept) - Ids(dropped[..k - |kept| - 1]))
  {
    if k <= |kept| {
      assert RebaseWrites(a, kept, account, dropped)[..k] == Puts(a, kept[..k]);
      PutsView(r, a, kept[..k]);
    } else {
      PrefixOfWrites(a, kept, account, dropped, k - |kept| - 1);
      RebaseWritesView(r, a, kept, account, dropped[..k - |kept| - 1]);
    }
  }

  lemma PrefixOfWrites(a: Id, kept: seq<Transaction>, account: Account, dropped: seq<Transaction>, j: nat)
    requires j <= |dropped|
    ensures RebaseWrites(a, kept, account, dropped)[..|kept| + 1 + j] == RebaseWrites(a, kept, account, dropped[..j])
  {
    var s := Puts(a, kept) + [PutAccount(account)];
    assert Removes(a, dropped)[..j] == Removes(a, dropped[..j]);
    assert (s + Removes(a, dropped))[..|s| + j] == s + Removes(a, dropped)[..j];
  }

  lemma PrefixOfPuts(local: Replica, own: seq<Transaction>, remote: seq<Transaction>, newId: nat -> Id, k: nat)
    requires remote != [] && k <= |remote| + |own|
    ensures Interrupted(local, own, remote, newId, k) ==
            local.(log := WithAll(local.log, (remote + Renamed(own, remote, newId))[..k]))
  {
    PrefixView(local, local.account.uuid, remote + Renamed(own, remote, newId),
               Rebased(local.account, remote, own, newId).account, own, k);
  }

  lemma PrefixWithRemoves(local: Replica, own: seq<Transaction>, remote: seq<Transaction>, newId: nat -> Id, k: nat)
    requires remote != [] && |remote| + |own| < k <= |Rebased(local.account, remote, own, newId).writes|
    ensures Interrupted(local, own, remote, newId, k) ==
            Replica(Rebased(local.account, remote, own, newId).account,
                    WithAll(local.log, remote + Renamed(own, remote, newId)) - Ids(own[..k - |remote| - |own| - 1]))
  {
    var kept := remote + Renamed(own, remote, newId);
    assert |kept| == |remote| + |own|;
    PrefixView(local, local.account.uuid, kept, Rebased(local.account, remote, own, newId).account, own, k);
  }

  lemma PutsAreFresh(local: Replica, prefix: seq<Transaction>, own: seq<Transaction>, remote: seq<Transaction>,
                     newId: nat -> Id, k: nat)
    requires Pulling(local, prefix, own, remote, newId) && k <= |remote| + |own|
    ensures Fresh(local.log.Keys, (remote + Renamed(own, remote, newId))[..k])
  {
    hide Ids, Fresh, Segment, Consistent, FreshSupply, Renumbered;
    var all := remote + Renamed(own, remote, newId);
    RenumberedFresh(own, Last(remote).uuid, newId, local.log.Keys + Ids(remote));
    FreshConcat(local.log.Keys, remote, Renamed(own, remote, newId));
    assert all == all[..k] + all[k..];
    FreshConcat(local.log.Keys, all[..k], all[k..]);
  }

  /** Wherever a pull stops, the stored account heads a complete chain: the whole old one as long as the account has
      not been written, the whole new one from then on. */
  lemma InterruptedPullKeepsAChain(local: Replica, prefix: seq<Transaction>, own: seq<Transaction>,
                                   remote: seq<Transaction>, newId: nat -> Id, k: nat)
    requires Pulling(local, prefix, own, remote, newId)
    requires k <= |Rebased(local.account, remote, own, newId).writes|
    ensures if k <= |remote| + |own|
            then Holds(Interrupted(local, own, remote, newId, k), prefix, own)
            else Holds(Interrupted(local, own, remote, newId, k), prefix + remote, Renamed(own, remote, newId))
  {
    hide Segment, Ids, Fresh, Consistent, Rebased, DoReplicaAll, WithAll, FreshSupply, Renumbered;
    PullSize(local, own, remote, newId);
    if k <= |remote| + |own| {
      PrefixOfPuts(local, own, remote, newId, k);
      PutsAreFresh(local, prefix, own, remote, newId, k);
      var stored := (remote + Renamed(own, remote, newId))[..k];
      FreshIds(local.log.Keys, stored);
      WithAllKeys(local.log, stored);
      SegmentFrame(local.log, WithAll(local.log, stored), [], prefix + own, local.account.latestTransaction);
    } else {
      var j := k - |remote| - |own| - 1;
      PrefixWithRemoves(local, own, remote, newId, k);
      assert own == own[..j] + own[j..];
      IdsConcat(own[..j], own[j..]);
      var r := Interrupted(local, own, remote, newId, k);
      RebasedChain(local, prefix, own, remote, newId, r.log);
    }
  }

  // The pull that follows an interrupted one, once the server has moved on to prefix + remote + more.
  ghost predicate Retrying(local: Replica, server: Replica, prefix: seq<Transaction>, own: seq<Transaction>,
                           remote: seq<Transaction>, more: seq<Transaction>, newId: nat -> Id)
  {
    && Pulling(local, prefix, own, remote, newId)
    && Complete(server.log, server.account.latestTransaction, prefix + remote + more)
    && Ids(more) !! local.log.Keys && Ids(more) !! Ids(Renamed(own, remote, newId))
  }

  lemma FirstIsStored(local: Replica, own: seq<Transaction>, remote: seq<Transaction>, newId: nat -> Id, k: nat)
    requires remote != [] && 0 < k <= |remote| + |own|
    ensures Interrupted(local, own, remote, newId, k).account == local.account
    ensures remote[0].uuid in Interrupted(local, own, remote, newId, k).log
  {
    PrefixOfPuts(local, own, remote, newId, k);
    var stored := (remote + Renamed(own, remote, newId))[..k];
    WithAllKeys(local.log, stored);
    IdIn(stored, 0);
  }

  lemma RetryBeforeAccount(local: Replica, server: Replica, prefix: seq<Transaction>, own: seq<Transaction>,
                           remote: seq<Transaction>, more: seq<Transaction>, newId: nat -> Id, k: nat, retry: nat -> Id)
    requires Retrying(local, server, prefix, own, remote, more, newId) && 0 < k <= |remote| + |own|
    ensures var r := Interrupted(local, own, remote, newId, k);
            && PullEnds(r, server)
            && Pull(r, server, retry) == Err(DuplicateTransactionId(remote[0].uuid))
  {
    hide Segment, Ids, Fresh, Consistent, Rebased, DoReplicaAll, Pull, PullEnds, FreshSupply, Renamed, Interrupted;
    PullSize(local, own, remote, newId);
    FirstIsStored(local, own, remote, newId, k);
    assert prefix + remote + more == prefix + (remote + more);
    DuplicateRefused(Interrupted(local, own, remote, newId, k), server, prefix, remote + more, retry);
  }

  lemma RetryAfterAccount(local: Replica, server: Replica, prefix: seq<Transaction>, own: seq<Transaction>,
                          remote: seq<Transaction>, more: seq<Transaction>, newId: nat -> Id, k: nat, retry: nat -> Id)
    requires Retrying(local, server, prefix, own, remote, more, newId)
    requires |remote| + |own| < k <= |Rebased(local.account, remote, own, newId).writes|
    requires FreshSupply(retry, Interrupted(local, own, remote, newId, k).log.Keys + Ids(more))
    ensures var r := Interrupted(local, own, remote, newId, k);
            PullEnds(r, server) && Pull(r, server, retry).Ok?
  {
    var r := Interrupted(local, own, remote, newId, k);
    InterruptedPullKeepsAChain(local, prefix, own, remote, newId, k);
    KeysAfterAccount(local, own, remote, newId, k);
    LaterIsNew(server, prefix, remote, more);
    PullConverges(r, server, prefix + remote, Renamed(own, remote, newId), more, retry);
  }

  lemma KeysAfterAccount(local: Replica, own: seq<Transaction>, remote: seq<Transaction>, newId: nat -> Id, k: nat)
    requires remote != [] && |remote| + |own| < k <= |Rebased(local.account, remote, own, newId).writes|
    ensures Interrupted(local, own, remote, newId, k).log.Keys <=
            local.log.Keys + Ids(remote) + Ids(Renamed(own, remote, newId))
  {
    PrefixWithRemoves(local, own, remote, newId, k);
    WithAllKeys(local.log, remote + Renamed(own, remote, newId));
    IdsConcat(remote, Renamed(own, remote, newId));
  }

  lemma LaterIsNew(server: Replica, prefix: seq<Transaction>, remote: seq<Transaction>, more: seq<Transaction>)
    requires Complete(server.log, server.account.latestTransaction, prefix + remote + more)
    ensures Ids(more) !! Ids(remote)
  {
    ServerChildren(server, prefix + remote, more);
    FreshConcat({}, prefix + remote, more);
    FreshIds({} + Ids(prefix + remote), more);
    IdsConcat(prefix, remote);
  }

  lemma RetryFromTheStart(local: Replica, server: Replica, prefix: seq<Transaction>, own: seq<Transaction>,
                          remote: seq<Transaction>, more: seq<Transaction>, newId: nat -> Id, retry: nat -> Id)
    requires Retrying(local, server, prefix, own, remote, more, newId)
    requires FreshSupply(retry, local.log.Keys + Ids(remote + more))
    ensures PullEnds(local, server) && Pull(local, server, retry).Ok?
  {
    hide Segment, Ids, Fresh, Consistent, Rebased, Renamed, Pull, PullEnds, LocalWalkable;
    assert prefix + remote + more == prefix + (remote + more);
    IdsConcat(remote, more);
    FreshIds(local.log.Keys, remote);
    PullConverges(local, server, prefix, own, remote + more, retry);
  }

  /** After an interruption the next pull fails exactly when some transaction was stored but not yet the account:
      the client then takes the transactions it stored itself for duplicates. */
  lemma RetryFailsExactlyAfterPartialPuts(local: Replica, server: Replica, prefix: seq<Transaction>,
                                          own: seq<Transaction>, remote: seq<Transaction>, more: seq<Transaction>,
                                          newId: nat -> Id, k: nat, retry: nat -> Id)
    requires Retrying(local, server, prefix, own, remote, more, newId)
    requires k <= |Rebased(local.account, remote, own, newId).writes|
    requires FreshSupply(retry, Interrupted(local, own, remote, newId, k).log.Keys + Ids(remote + more))
    ensures var r := Interrupted(local, own, remote, newId, k);
            && PullEnds(r, server)
            && (Pull(r, server, retry).Err? <==> 0 < k <= |remote| + |own|)
            && (Pull(r, server, retry).Err? ==>
                  Pull(r, server, retry) == Err(DuplicateTransactionId(remote[0].uuid)))
  {
    IdsConcat(remote, more);
    if k == 0 {
      assert Rebased(local.account, remote, own, newId).writes[..0] == [];
      RetryFromTheStart(local, server, prefix, own, remote, more, newId, retry);
    } else if k <= |remote| + |own| {
      RetryBeforeAccount(local, server, prefix, own, remote, more, newId, k, retry);
    } else {
      RetryAfterAccount(local, server, prefix, own, remote, more, newId, k, retry);
    }
  }
}
