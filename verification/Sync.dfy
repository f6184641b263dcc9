/**
 Client-side synchronization: pull and rebase, then push.

 Fresh transaction ids come from newId: the i-th id generated during one synchronization is newId(i).
 */
module Sync {
  import opened Model
  import opened Store
  import opened Chain

  // The transactions with new ids, put on top of base in the same order; `supersedes` still names the old ids.
  function Renumbered(txs: seq<Transaction>, base: Id, newId: nat -> Id): (r: seq<Transaction>)
    ensures |r| == |txs|
  {
    if txs == [] then [] else
      var older := Renumbered(Front(txs), base, newId);
      older + [Last(txs).(uuid := newId(|txs| - 1), parent := Head(base, older))]
  }

  function Removes(a: Id, txs: seq<Transaction>): seq<Write> {
    seq(|txs|, i requires 0 <= i < |txs| => RemoveTransaction(a, txs[i].uuid))
  }

  // The first of the ids that the log already knows.
  function FirstKnown(log: Log, ids: seq<Id>): Option<Id> {
    if ids == [] then None
    else if FirstKnown(log, Front(ids)).Some? then FirstKnown(log, Front(ids))
    else if Last(ids) in log then Some(Last(ids))
    else None
  }

  method CheckTransactionIdUniqueness(repo: SledRepository, account: Id, ids: seq<Id>) returns (r: Result<()>)
    requires repo.Valid()
    ensures var known := FirstKnown(LogIn(repo.db, account), ids);
            r == if known.None? then Ok(()) else Err(DuplicateTransactionId(known.value))
    ensures r.Ok? <==> forall i :: 0 <= i < |ids| ==> ids[i] !in LogIn(repo.db, account)
    ensures r.Err? ==> exists i :: && 0 <= i < |ids| && r == Err(DuplicateTransactionId(ids[i]))
                                   && ids[i] in LogIn(repo.db, account)
                                   && forall j :: 0 <= j < i ==> ids[j] !in LogIn(repo.db, account)
  {
    for i := 0 to |ids|
      invariant FirstKnown(LogIn(repo.db, account), ids[..i]) == None
      invariant forall j :: 0 <= j < i ==> ids[j] !in LogIn(repo.db, account)
    {
      assert Front(ids[..i + 1]) == ids[..i];
      var tx := repo.GetTransaction(account, ids[i]);
      if tx.Ok? {
        FirstKnownPrefix(LogIn(repo.db, account), ids, i + 1);
        return Err(DuplicateTransactionId(ids[i]));
      }
    }
    assert ids[..|ids|] == ids;
    return Ok(());
  }

  lemma {:induction false} FirstKnownPrefix(log: Log, ids: seq<Id>, k: nat)
    requires k <= |ids| && FirstKnown(log, ids[..k]).Some?
    ensures FirstKnown(log, ids) == FirstKnown(log, ids[..k])
  {
    if k < |ids| {
      assert Front(ids)[..k] == ids[..k];
      FirstKnownPrefix(log, Front(ids), k);
    } else {
      assert ids[..k] == ids;
    }
  }

  // ---------- Pulling ----------

  // The account as it will be after a pull, and the writes that get there, in order.
  datatype Pulled = Pulled(account: Account, writes: seq<Write>)

  // Whether the transactions received are good enough to start rebasing.
  predicate Acceptable(local: Replica, remote: seq<Transaction>) {
    remote != [] && FirstKnown(local.log, IdsOf(remote)) == None && Consistent(remote[0].parent, remote)
  }

  ghost function Unsynchronized(r: Replica): Result<seq<Transaction>>
    requires LocalWalkable(r)
  {
    Since(r.log, r.account.latestTransaction, r.account.latestSynchronizedTransaction)
  }

  ghost predicate LocalWalkable(r: Replica) {
    Walkable(r.log, r.account.latestTransaction, r.account.latestSynchronizedTransaction)
  }

  // Transactions are stored first, then the account, and only then the transactions it no longer reaches are removed.
  function RebaseWrites(a: Id, kept: seq<Transaction>, account: Account, dropped: seq<Transaction>): (ws: seq<Write>)
    ensures |ws| == |kept| + 1 + |dropped|
  {
    Puts(a, kept) + [PutAccount(account)] + Removes(a, dropped)
  }

  function Rebased(account: Account, remote: seq<Transaction>, own: seq<Transaction>, newId: nat -> Id): Pulled
    requires remote != []
  {
    var base := Last(remote).uuid;
    var rebased := Renumbered(own, base, newId);
    var after := account.(latestTransaction := Head(base, rebased), latestSynchronizedTransaction := base);
    Pulled(after, RebaseWrites(account.uuid, remote + rebased, after, own))
  }

  // What a client does with the transactions the server has after the last synchronized one.
  ghost function Rebase(local: Replica, remote: seq<Transaction>, newId: nat -> Id): Result<Pulled>
    requires Acceptable(local, remote) ==> LocalWalkable(local)
  {
    if remote == [] then Err(InconsistentServerResponse)
    else match FirstKnown(local.log, IdsOf(remote))
      case Some(id) => Err(DuplicateTransactionId(id))
      case None =>
        if !Consistent(remote[0].parent, remote) then Err(InconsistentChain)
        else
          var own :- Unsynchronized(local);
          Ok(Rebased(local.account, remote, own, newId))
  }

  ghost predicate PullEnds(local: Replica, server: Replica) {
    server.account.latestTransaction != local.account.latestSynchronizedTransaction ==>
      var base := local.account.latestSynchronizedTransaction;
      ChildrenEnd(server, base)
      && (Children(server, base).Ok? && Acceptable(local, Children(server, base).value) ==> LocalWalkable(local))
  }

  ghost function Pull(local: Replica, server: Replica, newId: nat -> Id): Result<Pulled>
    requires PullEnds(local, server)
  {
    if local.account.latestSynchronizedTransaction == server.account.latestTransaction then
      Ok(Pulled(local.account, []))
    else
      var remote :- Children(server, local.account.latestSynchronizedTransaction);
      Rebase(local, remote, newId)
  }

  lemma UnsynchronizedFresh(r: Replica, own: seq<Transaction>)
    requires LocalWalkable(r) && Unsynchronized(r) == Ok(own)
    ensures Fresh({}, own) && Ids(own) <= r.log.Keys
  {
    var head, base := r.account.latestTransaction, r.account.latestSynchronizedTransaction;
    var s, stop :| Trail(r.log, head, base, s, stop);
    SinceIs(r.log, head, base, s, stop);
    TrailFresh(r.log, head, base, s, stop);
    SegmentHead(r.log, stop, s, head);
  }

  lemma {:induction false} FreshAt(known: set<Id>, txs: seq<Transaction>, i: nat)
    requires Fresh(known, txs) && i < |txs|
    ensures txs[i].uuid in Ids(txs) && txs[i].uuid !in Ids(txs[..i])
    ensures Ids(txs[..i + 1]) == Ids(txs[..i]) + {txs[i].uuid}
    decreases |txs|
  {
    assert Front(txs[..i + 1]) == txs[..i];
    if i < |txs| - 1 {
      FreshAt(known, Front(txs), i);
      assert Front(txs)[..i] == txs[..i];
    } else {
      assert txs[..i] == Front(txs);
    }
  }

  method RebaseTransactions(repo: SledRepository, account: Account, newBase: Id, newId: nat -> Id)
    returns (r: Result<(seq<Transaction>, seq<Id>)>)
    requires repo.Valid() && Keyed(LogIn(repo.db, account.uuid))
    requires LocalWalkable(Replica(account, LogIn(repo.db, account.uuid)))
    ensures var own := Unsynchronized(Replica(account, LogIn(repo.db, account.uuid)));
            r == if own.Ok? then Ok((Renumbered(own.value, newBase, newId), IdsOf(own.value))) else Err(own.error)
  {
    ghost var since := Unsynchronized(Replica(account, LogIn(repo.db, account.uuid)));
    var newest := CollectSince(repo, account, account.latestSynchronizedTransaction);
    if newest.Err? {
      return Err(newest.error);
    }
    var toRebase := Reversed(newest.value);
    ReversedTwice(since.value);
    var rebased, oldIds := Renumber(toRebase, newBase, newId);
    return Ok((rebased, oldIds));
  }

  // The second loop of the rebase, from the oldest transaction to the newest.
  method Renumber(toRebase: seq<Transaction>, newBase: Id, newId: nat -> Id)
    returns (rebased: seq<Transaction>, oldIds: seq<Id>)
    ensures rebased == Renumbered(toRebase, newBase, newId)
    ensures oldIds == IdsOf(toRebase)
  {
    rebased, oldIds := [], [];
    var parent := newBase;
    for i := 0 to |toRebase|
      invariant rebased == Renumbered(toRebase[..i], newBase, newId)
      invariant oldIds == IdsOf(toRebase[..i])
      invariant parent == Head(newBase, rebased)
    {
      assert Front(toRebase[..i + 1]) == toRebase[..i];
      var tx, id := toRebase[i], newId(i);
      oldIds := oldIds + [tx.uuid];
      rebased := rebased + [tx.(uuid := id, parent := parent)];
      parent := id;
    }
    assert toRebase[..|toRebase|] == toRebase;
  }

  lemma DoNext(db: Db, ws: seq<Write>, i: nat)
    requires i < |ws|
    ensures DoAll(db, ws[..i + 1]) == Do(DoAll(db, ws[..i]), ws[i])
  {
    assert ws[..i + 1] == ws[..i] + [ws[i]];
    DoAllConcat(db, ws[..i], [ws[i]]);
    assert DoAll(Do(DoAll(db, ws[..i]), ws[i]), []) == Do(DoAll(db, ws[..i]), ws[i]);
  }

  method StoreTransactions(local: SledRepository, account: Id, txs: seq<Transaction>)
    requires local.Valid()
    modifies local
    ensures local.Valid() && local.db == DoAll(old(local.db), Puts(account, txs))
  {
    ghost var db, puts := local.db, Puts(account, txs);
    for i := 0 to |txs|
      invariant local.Valid() && local.db == DoAll(db, puts[..i])
    {
      DoNext(db, puts, i);
      local.AddTransaction(account, txs[i]);
    }
    assert puts[..|puts|] == puts;
  }

  // One more old transaction removed from what is left of the log.
  lemma GarbageStep(db: Db, a: Id, log: Log, own: seq<Transaction>, i: nat)
    requires Fresh({}, own) && Ids(own) <= log.Keys && i < |own|
    requires LogIn(db, a) == log - Ids(own[..i])
    ensures own[i].uuid in LogIn(db, a)
    ensures LogIn(Do(db, RemoveTransaction(a, own[i].uuid)), a) == log - Ids(own[..i + 1])
  {
    hide LogIn, Ids, Fresh;
    FreshAt({}, own, i);
    LogView(db, RemoveTransaction(a, own[i].uuid), a);
    assert log - Ids(own[..i]) - {own[i].uuid} == log - Ids(own[..i + 1]);
  }

  method CollectGarbage(local: SledRepository, account: Id, oldIds: seq<Id>, ghost own: seq<Transaction>)
    requires local.Valid() && oldIds == IdsOf(own)
    requires Fresh({}, own) && Ids(own) <= LogIn(local.db, account).Keys
    modifies local
    ensures local.Valid() && local.db == DoAll(old(local.db), Removes(account, own))
  {
    hide LogIn, Fresh;
    ghost var db, removes, log := local.db, Removes(account, own), LogIn(local.db, account);
    for i := 0 to |oldIds|
      invariant local.Valid() && local.db == DoAll(db, removes[..i])
      invariant LogIn(local.db, account) == log - Ids(own[..i])
    {
      DoNext(db, removes, i);
      GarbageStep(local.db, account, log, own, i);
      var deleted := local.DeleteTransaction(account, oldIds[i]);
      assert deleted.Ok?;
    }
    assert removes[..|removes|] == removes;
  }

  // Storing two lists of transactions and then the account forgets no transaction.
  lemma LogAfterPuts(db: Db, account: Account, s: seq<Transaction>, t: seq<Transaction>, after: Account)
    requires WellKeyed(db) && AccountIn(db, account.uuid) == Some(account) && after.uuid == account.uuid
    ensures var stored := Do(DoAll(DoAll(db, Puts(account.uuid, s)), Puts(account.uuid, t)), PutAccount(after));
            LogIn(db, account.uuid).Keys <= LogIn(stored, account.uuid).Keys
  {
    var a, db1 := account.uuid, DoAll(db, Puts(account.uuid, s));
    WritesView(db, Puts(a, s), a, a);
    PutsView(View(db, a), a, s);
    WithAllKeys(LogIn(db, a), s);
    WritesView(db1, Puts(a, t), a, a);
    PutsView(View(db1, a), a, t);
    WithAllKeys(LogIn(db1, a), t);
    LogView(DoAll(db1, Puts(a, t)), PutAccount(after), a);
  }

  lemma PulledWrites(db: Db, account: Account, remote: seq<Transaction>, own: seq<Transaction>, newId: nat -> Id)
    requires remote != []
    ensures var base := Last(remote).uuid;
            var rebased := Renumbered(own, base, newId);
            var pulled := Rebased(account, remote, own, newId);
            DoAll(db, pulled.writes) ==
              DoAll(Do(DoAll(DoAll(db, Puts(account.uuid, remote)), Puts(account.uuid, rebased)),
                       PutAccount(pulled.account)),
                    Removes(account.uuid, own))
  {
    var rebased := Renumbered(own, Last(remote).uuid, newId);
    var pulled := Rebased(account, remote, own, newId);
    var a, w := account.uuid, PutAccount(pulled.account);
    assert Puts(a, remote + rebased) == Puts(a, remote) + Puts(a, rebased);
    DoAllConcat(db, Puts(a, remote), Puts(a, rebased));
    DoAllConcat(db, Puts(a, remote + rebased), [w]);
    var middle := DoAll(db, Puts(a, remote + rebased));
    assert DoAll(Do(middle, w), []) == Do(middle, w);
    DoAllConcat(db, Puts(a, remote + rebased) + [w], Removes(a, own));
  }

  lemma {:induction false} RenumberedBase(txs: seq<Transaction>, base: Id, newId: nat -> Id)
    ensures txs != [] ==> Renumbered(txs, base, newId)[0].parent == base
  {
    if |txs| > 1 { RenumberedBase(Front(txs), base, newId); }
  }

  // The second half of a pull, once the transactions received have been checked.
  method InstallRebase(local: SledRepository, account: Account, received: seq<Transaction>, newId: nat -> Id)
    returns (r: Result<Account>)
    requires local.Valid() && received != [] && AccountIn(local.db, account.uuid) == Some(account)
    requires Keyed(LogIn(local.db, account.uuid)) && LocalWalkable(View(local.db, account.uuid))
    modifies local
    ensures local.Valid()
    ensures var own := Unsynchronized(View(old(local.db), account.uuid));
            if own.Err? then r == Err(own.error) && local.db == old(local.db)
            else
              var pulled := Rebased(account, received, own.value, newId);
              r == Ok(pulled.account) && local.db == DoAll(old(local.db), pulled.writes)
  {
    ghost var db := local.db;
    var rebasing :- RebaseTransactions(local, account, Last(received).uuid, newId);
    var rebased: seq<Transaction>, oldIds := rebasing.0, rebasing.1;
    ghost var own := Unsynchronized(View(db, account.uuid)).value;
    var latest := Head(Last(received).uuid, rebased);
    var synchronized := if rebased == [] then Last(received).uuid else rebased[0].parent;
    RenumberedBase(own, Last(received).uuid, newId);
    StoreTransactions(local, account.uuid, received);
    StoreTransactions(local, account.uuid, rebased);
    var after := account.(latestTransaction := latest, latestSynchronizedTransaction := synchronized);
    local.AddAccount(after);
    LogAfterPuts(db, account, received, rebased, after);
    UnsynchronizedFresh(View(db, account.uuid), own);
    CollectGarbage(local, account.uuid, oldIds, own);
    PulledWrites(db, account, received, own, newId);
    return Ok(after);
  }

  method RebaseLocalTransactions(local: SledRepository, remote: SledRepository, account: Account, newId: nat -> Id)
    returns (r: Result<Account>)
    requires local != remote && local.Valid() && remote.Valid()
    requires AccountIn(local.db, account.uuid) == Some(account)
    requires Keyed(LogIn(local.db, account.uuid)) && Keyed(LogIn(remote.db, account.uuid))
    requires Has(remote.db, account.uuid) ==> PullEnds(View(local.db, account.uuid), View(remote.db, account.uuid))
    modifies local
    ensures local.Valid()
    ensures !Has(remote.db, account.uuid) ==> r == Err(NoSuchAccount(account.uuid)) && local.db == old(local.db)
    ensures Has(remote.db, account.uuid) ==>
              var pulled := Pull(View(old(local.db), account.uuid), View(remote.db, account.uuid), newId);
              if pulled.Err? then r == Err(pulled.error) && local.db == old(local.db)
              else r == Ok(pulled.value.account) && local.db == DoAll(old(local.db), pulled.value.writes)
  {
    ghost var db := local.db;
    var server :- remote.GetAccount(account.uuid);
    if account.latestSynchronizedTransaction == server.latestTransaction {
      return Ok(account);
    }
    var received :- GetChildTransactions(remote, account.uuid, account.latestSynchronizedTransaction);
    if received == [] {
      return Err(InconsistentServerResponse);
    }
    var unique := CheckTransactionIdUniqueness(local, account.uuid, IdsOf(received));
    if unique.Err? {
      return Err(unique.error);
    }
    var consistent := CheckChainConsistency(received);
    if !consistent {
      return Err(InconsistentChain);
    }
    r := InstallRebase(local, account, received, newId);
  }

  // ---------- Pull, then push ----------

  datatype Outcome = Outcome(result: Result<()>, local: Replica, server: Replica)

  function Acknowledged(r: Replica): Replica {
    r.(account := r.account.(latestSynchronizedTransaction := r.account.latestTransaction))
  }

  ghost function Push(local: Replica, server: Replica): Outcome
    requires LocalWalkable(local)
  {
    match Unsynchronized(local)
    case Err(e) => Outcome(Err(e), local, server)
    case Ok(own) =>
      if own == [] then Outcome(Ok(()), local, server)
      else match Receive(server, own)
        case Err(e) => Outcome(Err(e), local, server)
        case Ok(writes) => Outcome(Ok(()), Acknowledged(local), DoReplicaAll(server, writes))
  }

  ghost predicate SyncEnds(local: Replica, server: Replica, newId: nat -> Id) {
    && PullEnds(local, server)
    && (Pull(local, server, newId).Ok? ==>
          LocalWalkable(DoReplicaAll(local, Pull(local, server, newId).value.writes)))
  }

  // One synchronization during which nobody else talks to the server.
  ghost function SyncOutcome(local: Replica, server: Replica, newId: nat -> Id): Outcome
    requires SyncEnds(local, server, newId)
  {
    match Pull(local, server, newId)
    case Err(e) => Outcome(Err(e), local, server)
    case Ok(pulled) => Push(DoReplicaAll(local, pulled.writes), server)
  }

  lemma {:induction false} RemovesView(r: Replica, a: Id, txs: seq<Transaction>)
    ensures DoReplicaAll(r, Removes(a, txs)) == r.(log := r.log - Ids(txs))
  {
    if txs == [] {
      assert r.log - {} == r.log;
    } else {
      assert Removes(a, txs) == Removes(a, Front(txs)) + [RemoveTransaction(a, Last(txs).uuid)];
      DoReplicaConcat(r, Removes(a, Front(txs)), [RemoveTransaction(a, Last(txs).uuid)]);
      RemovesView(r, a, Front(txs));
      DoReplicaOne(DoReplicaAll(r, Removes(a, Front(txs))), RemoveTransaction(a, Last(txs).uuid));
      assert r.log - Ids(txs) == r.log - Ids(Front(txs)) - {Last(txs).uuid};
    }
  }

  // The effect of all the writes of a rebase.
  lemma RebaseWritesView(r: Replica, a: Id, kept: seq<Transaction>, account: Account, dropped: seq<Transaction>)
    ensures DoReplicaAll(r, RebaseWrites(a, kept, account, dropped)) ==
            Replica(account, WithAll(r.log, kept) - Ids(dropped))
  {
    var w := PutAccount(account);
    DoReplicaConcat(r, Puts(a, kept) + [w], Removes(a, dropped));
    DoReplicaConcat(r, Puts(a, kept), [w]);
    PutsView(r, a, kept);
    DoReplicaOne(r.(log := WithAll(r.log, kept)), w);
    RemovesView(Replica(account, WithAll(r.log, kept)), a, dropped);
  }

  lemma RebaseWritesConcern(a: Id, kept: seq<Transaction>, account: Account, dropped: seq<Transaction>)
    requires account.uuid == a
    ensures ConcernAll(RebaseWrites(a, kept, account, dropped), a)
  {}

  // What a rebase leaves behind: everything received and renumbered, and none of the old transactions.
  lemma RebasedView(r: Replica, remote: seq<Transaction>, own: seq<Transaction>, newId: nat -> Id)
    requires remote != []
    ensures var pulled := Rebased(r.account, remote, own, newId);
            && DoReplicaAll(r, pulled.writes) ==
                 Replica(pulled.account,
                         WithAll(r.log, remote + Renumbered(own, Last(remote).uuid, newId)) - Ids(own))
            && ConcernAll(pulled.writes, r.account.uuid)
  {
    var pulled := Rebased(r.account, remote, own, newId);
    var kept := remote + Renumbered(own, Last(remote).uuid, newId);
    RebaseWritesView(r, r.account.uuid, kept, pulled.account, own);
    RebaseWritesConcern(r.account.uuid, kept, pulled.account, own);
  }

  // The same account, but for what it points to.
  ghost predicate OnlyPointers(before: Account, after: Account) {
    after.uuid == before.uuid && after.caption == before.caption && after.members == before.members
  }

  lemma NoWritesView(r: Replica)
    ensures DoReplicaAll(r, []) == r
  {}

  lemma PulledView(local: Replica, server: Replica, newId: nat -> Id)
    requires PullEnds(local, server) && Pull(local, server, newId).Ok?
    ensures var pulled := Pull(local, server, newId).value;
            && DoReplicaAll(local, pulled.writes).account == pulled.account
            && ConcernAll(pulled.writes, local.account.uuid) && OnlyPointers(local.account, pulled.account)
  {
    hide DoReplicaAll, Children, Unsynchronized, Consistent, FirstKnown, LocalWalkable;
    var base := local.account.latestSynchronizedTransaction;
    if base == server.account.latestTransaction {
      NoWritesView(local);
    } else {
      RebasedView(local, Children(server, base).value, Unsynchronized(local).value, newId);
    }
  }

  lemma PushKeepsAccount(local: Replica, server: Replica)
    requires LocalWalkable(local)
    ensures OnlyPointers(local.account, Push(local, server).local.account)
    ensures local.account.latestTransaction == Push(local, server).local.account.latestTransaction
    ensures var after := Push(local, server).server.account;
            after == server.account.(latestTransaction := after.latestTransaction)
    ensures Push(local, server).result.Err? ==>
              Push(local, server) == Outcome(Push(local, server).result, local, server)
  {
    hide Unsynchronized, LocalWalkable, DoReplicaAll, Consistent;
    if Unsynchronized(local).Ok? && Unsynchronized(local).value != []
       && Receive(server, Unsynchronized(local).value).Ok? {
      ReceiveView(server, Unsynchronized(local).value);
    }
  }

  /** A synchronization changes nothing of the two accounts but what they point to; on the server only the latest
      transaction.  A pull that fails leaves everything as it was. */
  lemma SyncKeepsAccounts(local: Replica, server: Replica, newId: nat -> Id)
    requires SyncEnds(local, server, newId)
    ensures var after := SyncOutcome(local, server, newId);
            && OnlyPointers(local.account, after.local.account)
            && after.server.account == server.account.(latestTransaction := after.server.account.latestTransaction)
            && (Pull(local, server, newId).Err? ==>
                  after == Outcome(Err(Pull(local, server, newId).error), local, server))
  {
    hide Pull, PullEnds, Push, LocalWalkable, DoReplicaAll;
    if Pull(local, server, newId).Ok? {
      PulledView(local, server, newId);
      PushKeepsAccount(DoReplicaAll(local, Pull(local, server, newId).value.writes), server);
    }
  }

  // Every account but one is the same in both stores.
  ghost predicate OthersUntouched(before: Db, after: Db, id: Id) {
    forall other :: other != id ==>
      && AccountIn(after, other) == AccountIn(before, other)
      && (|other| == |id| ==> LogIn(after, other) == LogIn(before, other))
  }

  lemma WritesUntouched(db: Db, ws: seq<Write>, a: Id)
    requires WellKeyed(db) && Has(db, a) && ConcernAll(ws, a)
    ensures WellKeyed(DoAll(db, ws)) && Has(DoAll(db, ws), a)
    ensures View(DoAll(db, ws), a) == DoReplicaAll(View(db, a), ws)
    ensures OthersUntouched(db, DoAll(db, ws), a)
  {
    WritesView(db, ws, a, a);
    forall other | other != a
      ensures AccountIn(DoAll(db, ws), other) == AccountIn(db, other)
      ensures |other| == |a| ==> LogIn(DoAll(db, ws), other) == LogIn(db, other)
    {
      WritesView(db, ws, a, other);
    }
  }

  // Once the server has the transactions, the account is written twice with the new synchronized pointer.
  method Acknowledge(local: SledRepository, account: Account)
    requires local.Valid() && AccountIn(local.db, account.uuid) == Some(account)
    modifies local
    ensures local.Valid() && Has(local.db, account.uuid)
    ensures View(local.db, account.uuid) == Acknowledged(View(old(local.db), account.uuid))
    ensures OthersUntouched(old(local.db), local.db, account.uuid)
  {
    ghost var db, a := local.db, account.uuid;
    var after := account.(latestSynchronizedTransaction := account.latestTransaction);
    var updated := local.SetLatestSynchronizedTransaction(account.uuid, account.latestTransaction);
    local.AddAccount(after);
    ghost var w := PutAccount(after);
    assert Do(Do(db, w), w) == Do(db, w);
    assert DoAll(Do(db, w), []) == Do(db, w);
    WritesUntouched(db, [w], a);
    DoReplicaOne(View(db, a), w);
  }

  /** The second half of a synchronization: sends the unsynchronized transactions and records that they arrived. */
  method PushLocalTransactions(local: SledRepository, remote: SledRepository, account: Account)
    returns (r: Result<()>)
    requires local != remote && local.Valid() && remote.Valid()
    requires AccountIn(local.db, account.uuid) == Some(account) && Has(remote.db, account.uuid)
    requires Keyed(LogIn(local.db, account.uuid)) && LocalWalkable(View(local.db, account.uuid))
    modifies local, remote
    ensures local.Valid() && remote.Valid() && Has(local.db, account.uuid) && Has(remote.db, account.uuid)
    ensures Push(View(old(local.db), account.uuid), View(old(remote.db), account.uuid))
            == Outcome(r, View(local.db, account.uuid), View(remote.db, account.uuid))
    ensures OthersUntouched(old(local.db), local.db, account.uuid)
    ensures OthersUntouched(old(remote.db), remote.db, account.uuid)
  {
    ghost var own := Unsynchronized(View(local.db, account.uuid));
    var newest := CollectSince(local, account, account.latestSynchronizedTransaction);
    if newest.Err? {
      return Err(newest.error);
    }
    if newest.value == [] {
      return Ok(());
    }
    var transactions := Reversed(newest.value);
    ReversedTwice(own.value);
    ghost var db, sent := remote.db, Receive(View(remote.db, account.uuid), transactions);
    if sent.Ok? {
      ReceiveView(View(db, account.uuid), transactions);
      WritesUntouched(db, sent.value, account.uuid);
    }
    var received := ReceiveTransactions(remote, account.uuid, transactions);
    if received.Err? {
      return received;
    }
    Acknowledge(local, account);
    return Ok(());
  }

  method Sync(local: SledRepository, remote: SledRepository, accountId: Id, newId: nat -> Id)
    returns (r: Result<()>)
    requires local != remote && local.Valid() && remote.Valid()
    requires Keyed(LogIn(local.db, accountId)) && Keyed(LogIn(remote.db, accountId))
    requires Has(local.db, accountId) && Has(remote.db, accountId) ==>
               SyncEnds(View(local.db, accountId), View(remote.db, accountId), newId)
    modifies local, remote
    ensures local.Valid() && remote.Valid()
    ensures !Has(old(local.db), accountId) || !Has(old(remote.db), accountId) ==>
              r == Err(NoSuchAccount(accountId)) && local.db == old(local.db) && remote.db == old(remote.db)
    ensures Has(old(local.db), accountId) && Has(old(remote.db), accountId) ==>
              && Has(local.db, accountId) && Has(remote.db, accountId)
              && SyncOutcome(View(old(local.db), accountId), View(old(remote.db), accountId), newId)
                 == Outcome(r, View(local.db, accountId), View(remote.db, accountId))
    ensures Has(old(local.db), accountId) && Has(old(remote.db), accountId) ==>
              && OnlyPointers(View(old(local.db), accountId).account, View(local.db, accountId).account)
              && OnlyPointers(View(old(remote.db), accountId).account, View(remote.db, accountId).account)
    ensures OthersUntouched(old(local.db), local.db, accountId)
    ensures OthersUntouched(old(remote.db), remote.db, accountId)
  {
    hide Pull, Push, PullEnds, LocalWalkable, DoReplicaAll, Rebased;
    if Has(local.db, accountId) && Has(remote.db, accountId) {
      SyncKeepsAccounts(View(local.db, accountId), View(remote.db, accountId), newId);
    }
    var account :- local.GetAccount(accountId);
    ghost var db, replica := local.db, View(local.db, accountId);
    account :- RebaseLocalTransactions(local, remote, account, newId);
    ghost var server := View(remote.db, accountId);
    ghost var pulled := Pull(replica, server, newId).value;
    PulledView(replica, server, newId);
    WritesUntouched(db, pulled.writes, accountId);
    PullKeepsKeys(replica, server, newId);
    r := PushLocalTransactions(local, remote, account);
  }

  lemma PullKeepsKeys(local: Replica, server: Replica, newId: nat -> Id)
    requires PullEnds(local, server) && Pull(local, server, newId).Ok? && Keyed(local.log)
    ensures Keyed(DoReplicaAll(local, Pull(local, server, newId).value.writes).log)
  {
    var base := local.account.latestSynchronizedTransaction;
    if base != server.account.latestTransaction {
      var remote, own := Children(server, base).value, Unsynchronized(local).value;
      RebasedView(local, remote, own, newId);
      WithAllKeys(local.log, remote + Renumbered(own, Last(remote).uuid, newId));
    }
  }

  // The copy of a remote account before its first synchronization.
  function Unlinked(account: Account): Account {
    account.(latestTransaction := [], latestSynchronizedTransaction := [])
  }

  lemma SameUntouched(db: Db, id: Id)
    ensures OthersUntouched(db, db, id)
  {}

  lemma UntouchedTwice(before: Db, middle: Db, after: Db, id: Id)
    requires OthersUntouched(before, middle, id) && OthersUntouched(middle, after, id)
    ensures OthersUntouched(before, after, id)
  {
    hide LogIn, AccountIn;
  }

  lemma OneWriteUntouched(db: Db, account: Account)
    ensures OthersUntouched(db, Do(db, PutAccount(account)), account.uuid)
  {
    hide LogIn;
    forall other | other != account.uuid
      ensures AccountIn(Do(db, PutAccount(account)), other) == AccountIn(db, other)
      ensures |other| == |account.uuid| ==> LogIn(Do(db, PutAccount(account)), other) == LogIn(db, other)
    {
      AccountView(db, PutAccount(account), other);
      LogView(db, PutAccount(account), other);
    }
  }

  method CloneRemote(local: SledRepository, remote: SledRepository, accountId: Id, newId: nat -> Id)
    returns (r: Result<()>)
    requires local != remote && local.Valid() && remote.Valid()
    requires Keyed(LogIn(local.db, accountId)) && Keyed(LogIn(remote.db, accountId))
    requires Has(remote.db, accountId) ==>
               var server := View(remote.db, accountId);
               SyncEnds(Replica(Unlinked(server.account), LogIn(local.db, accountId)), server, newId)
    modifies local, remote
    ensures local.Valid() && remote.Valid()
    ensures !Has(old(remote.db), accountId) ==>
              r == Err(NoSuchAccount(accountId)) && local.db == old(local.db) && remote.db == old(remote.db)
    ensures Has(old(remote.db), accountId) ==>
              && Has(local.db, accountId) && Has(remote.db, accountId)
              && var server := View(old(remote.db), accountId);
              SyncOutcome(Replica(Unlinked(server.account), LogIn(old(local.db), accountId)), server, newId)
              == Outcome(r, View(local.db, accountId), View(remote.db, accountId))
    // Whether or not it succeeds, the copy has the id, the label and the members of the original.
    ensures Has(old(remote.db), accountId) ==>
              var copy, original := View(local.db, accountId).account, View(old(remote.db), accountId).account;
              copy.uuid == original.uuid && copy.caption == original.caption && copy.members == original.members
    ensures OthersUntouched(old(local.db), local.db, accountId)
    ensures OthersUntouched(old(remote.db), remote.db, accountId)
  {
    hide SyncOutcome, SyncEnds, OthersUntouched;
    ghost var db := local.db;
    SameUntouched(local.db, accountId);
    SameUntouched(remote.db, accountId);
    var account :- remote.GetAccount(accountId);
    account := account.(latestTransaction := [], latestSynchronizedTransaction := []);
    AccountView(local.db, PutAccount(account), accountId);
    LogView(local.db, PutAccount(account), accountId);
    local.AddAccount(account);
    OneWriteUntouched(db, account);
    ghost var copied := local.db;
    r := Sync(local, remote, accountId, newId);
    UntouchedTwice(db, copied, local.db, accountId);
  }
}
