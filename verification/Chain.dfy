/**
 Parent-linked chains of transactions: walking them, receiving a suffix and returning one.

 Sequences of transactions are oldest first, except where a name says newest first.
 */
module Chain {
  import opened Model
  import opened Store

  type Log = map<Id, Transaction>

  // Every transaction is stored under its own id.
  ghost predicate Keyed(log: Log) { forall x :: x in log ==> log[x].uuid == x }

  // Writes to accounts with ids of the same length keep transactions under their own ids.
  lemma WriteKeepsKeyed(db: Db, w: Write, a: Id)
    requires Keyed(LogIn(db, a)) && ((w.PutTransaction? || w.RemoveTransaction?) ==> |w.owner| == |a|)
    ensures Keyed(LogIn(Do(db, w), a))
  {
    hide LogIn, Do;
    LogView(db, w, a);
  }

  function Front<T>(s: seq<T>): seq<T>
    requires s != []
  {
    s[..|s| - 1]
  }

  function Last<T>(s: seq<T>): T
    requires s != []
  {
    s[|s| - 1]
  }

  // The id a chain reaches when txs are put on top of base.
  function Head(base: Id, txs: seq<Transaction>): Id { if txs == [] then base else Last(txs).uuid }

  // Each transaction's parent is the one before it, starting from base.
  predicate Consistent(base: Id, txs: seq<Transaction>) {
    txs != [] ==> Consistent(base, Front(txs)) && Last(txs).parent == Head(base, Front(txs))
  }

  ghost function Ids(txs: seq<Transaction>): set<Id> {
    if txs == [] then {} else Ids(Front(txs)) + {Last(txs).uuid}
  }

  // Transactions with distinct ids, none of them empty or already known.
  ghost predicate Fresh(known: set<Id>, txs: seq<Transaction>) {
    txs != [] ==>
      && Fresh(known, Front(txs))
      && Last(txs).uuid != [] && Last(txs).uuid !in known && Last(txs).uuid !in Ids(Front(txs))
  }

  // Following parents from head visits exactly txs, newest first, and arrives at base.
  ghost predicate Segment(log: Log, base: Id, txs: seq<Transaction>, head: Id) {
    if txs == [] then head == base
    else
      && head != [] && head in log && Last(txs) == log[head] && Last(txs).uuid == head
      && Segment(log, base, Front(txs), Last(txs).parent)
  }

  // A complete chain, down to the empty id.
  ghost predicate Complete(log: Log, head: Id, txs: seq<Transaction>) { Segment(log, [], txs, head) }

  lemma {:induction false} SegmentHead(log: Log, base: Id, txs: seq<Transaction>, head: Id)
    requires Segment(log, base, txs, head)
    ensures head == Head(base, txs) && Consistent(base, txs) && Ids(txs) <= log.Keys && [] !in Ids(txs)
  {
    if txs != [] {
      SegmentHead(log, base, Front(txs), Last(txs).parent);
    }
  }

  lemma ConcatLast<T>(s: seq<T>, t: seq<T>)
    requires t != []
    ensures Last(s + t) == Last(t) && Front(s + t) == s + Front(t)
  {}

  lemma {:induction false} SegmentSplit(log: Log, base: Id, older: seq<Transaction>, newer: seq<Transaction>, head: Id)
    requires Segment(log, base, older + newer, head)
    ensures Segment(log, base, older, Head(base, older)) && Segment(log, Head(base, older), newer, head)
    decreases |newer|
  {
    if newer == [] {
      assert older + newer == older;
      SegmentHead(log, base, older, head);
    } else {
      ConcatLast(older, newer);
      SegmentSplit(log, base, older, Front(newer), Last(newer).parent);
    }
  }

  lemma {:induction false} IdsConcat(s: seq<Transaction>, t: seq<Transaction>)
    ensures Ids(s + t) == Ids(s) + Ids(t)
    decreases |t|
  {
    if t == [] {
      assert s + t == s;
    } else {
      ConcatLast(s, t);
      IdsConcat(s, Front(t));
    }
  }

  lemma {:induction false} ConsistentConcat(base: Id, s: seq<Transaction>, t: seq<Transaction>)
    ensures Consistent(base, s + t) <==> Consistent(base, s) && Consistent(Head(base, s), t)
    ensures Head(base, s + t) == Head(Head(base, s), t)
    decreases |t|
  {
    if t == [] {
      assert s + t == s;
    } else {
      ConcatLast(s, t);
      ConsistentConcat(base, s, Front(t));
    }
  }

  // The parents link up, whatever the first one is.
  ghost predicate LinksUp(txs: seq<Transaction>) { forall i :: 0 < i < |txs| ==> txs[i].parent == txs[i - 1].uuid }

  lemma {:induction false} ConsistentIs(base: Id, txs: seq<Transaction>)
    ensures Consistent(base, txs) <==> (txs != [] ==> txs[0].parent == base) && LinksUp(txs)
    decreases |txs|
  {
    if |txs| == 1 {
      assert Front(txs) == [];
    } else if |txs| > 1 {
      ConsistentIs(base, Front(txs));
      LinksUpFront(txs);
    }
  }

  lemma LinksUpFront(txs: seq<Transaction>)
    requires |txs| > 1
    ensures LinksUp(txs) <==> LinksUp(Front(txs)) && Last(txs).parent == Last(Front(txs)).uuid
  {
    var older := Front(txs);
    if LinksUp(older) && Last(txs).parent == Last(older).uuid {
      forall i | 0 < i < |txs|
        ensures txs[i].parent == txs[i - 1].uuid
      {
        if i < |older| { assert older[i].parent == older[i - 1].uuid; }
      }
    }
    if LinksUp(txs) {
      forall i | 0 < i < |older|
        ensures older[i].parent == older[i - 1].uuid
      {
        assert txs[i].parent == txs[i - 1].uuid;
      }
    }
  }

  lemma {:induction false} FreshConcat(known: set<Id>, s: seq<Transaction>, t: seq<Transaction>)
    ensures Fresh(known, s + t) <==> Fresh(known, s) && Fresh(known + Ids(s), t)
    decreases |t|
  {
    if t == [] {
      assert s + t == s;
    } else {
      ConcatLast(s, t);
      FreshConcat(known, s, Front(t));
      IdsConcat(s, Front(t));
    }
  }

  lemma {:induction false} FreshIds(known: set<Id>, txs: seq<Transaction>)
    requires Fresh(known, txs)
    ensures known !! Ids(txs) && [] !in Ids(txs)
  {
    if txs != [] { FreshIds(known, Front(txs)); }
  }

  lemma {:induction false} FreshWeaken(known: set<Id>, fewer: set<Id>, txs: seq<Transaction>)
    requires Fresh(known, txs) && fewer <= known
    ensures Fresh(fewer, txs)
  {
    if txs != [] { FreshWeaken(known, fewer, Front(txs)); }
  }

  // A segment survives any change of the log outside its own transactions.
  lemma {:induction false} SegmentFrame(log: Log, after: Log, base: Id, txs: seq<Transaction>, head: Id)
    requires Segment(log, base, txs, head)
    requires forall x :: x in Ids(txs) && x in log ==> x in after && after[x] == log[x]
    ensures Segment(after, base, txs, head)
  {
    if txs != [] { SegmentFrame(log, after, base, Front(txs), Last(txs).parent); }
  }

  // ---------- Walking back from the head ----------

  // The walk back from head that looks for base visits txs and ends at stop: at base, at the root or at a missing id.
  ghost predicate Trail(log: Log, head: Id, base: Id, txs: seq<Transaction>, stop: Id) {
    && Segment(log, stop, txs, head) && base !in Ids(txs)
    && (stop == base || stop == [] || stop !in log)
  }

  // The walk ends; it runs forever exactly when parents form a cycle.
  ghost predicate Walkable(log: Log, head: Id, base: Id) { exists txs, stop :: Trail(log, head, base, txs, stop) }

  lemma {:induction false} TrailUnique(log: Log, head: Id, base: Id, s: seq<Transaction>, x: Id,
                                       t: seq<Transaction>, y: Id)
    requires Trail(log, head, base, s, x) && Trail(log, head, base, t, y)
    ensures s == t && x == y
    decreases |s|
  {
    if s != [] && t != [] {
      TrailUnique(log, log[head].parent, base, Front(s), x, Front(t), y);
      assert s == Front(s) + [Last(s)] && t == Front(t) + [Last(t)];
    }
  }

  // No transaction is visited twice: parent links are acyclic along a walk that ends.
  lemma {:induction false} TrailFresh(log: Log, head: Id, base: Id, txs: seq<Transaction>, stop: Id)
    requires Trail(log, head, base, txs, stop)
    ensures Fresh({}, txs)
    decreases |txs|
  {
    if txs != [] {
      TrailFresh(log, Last(txs).parent, base, Front(txs), stop);
      if head in Ids(Front(txs)) {
        var k := IdAt(Front(txs), head);
        var again := txs[..k + 1];
        assert txs == again + txs[k + 1..];
        SegmentSplit(log, stop, again, txs[k + 1..], head);
        IdsConcat(again, txs[k + 1..]);
        TrailUnique(log, head, base, again, stop, txs, stop);
        assert false;
      }
    }
  }

  lemma {:induction false} IdAt(txs: seq<Transaction>, x: Id) returns (k: nat)
    requires x in Ids(txs)
    ensures k < |txs| && txs[k].uuid == x
  {
    if Last(txs).uuid == x {
      k := |txs| - 1;
    } else {
      k := IdAt(Front(txs), x);
    }
  }

  lemma {:induction false} IdIn(txs: seq<Transaction>, k: nat)
    requires k < |txs|
    ensures txs[k].uuid in Ids(txs)
  {
    if k < |txs| - 1 { IdIn(Front(txs), k); }
  }

  // A complete chain is determined by its head and repeats no id.
  lemma CompleteUnique(log: Log, head: Id, s: seq<Transaction>, t: seq<Transaction>)
    requires Complete(log, head, s) && Complete(log, head, t)
    ensures s == t && Fresh({}, s)
  {
    SegmentHead(log, [], s, head);
    SegmentHead(log, [], t, head);
    TrailUnique(log, head, [], s, [], t, []);
    TrailFresh(log, head, [], s, []);
  }

  // What a walk collects on top of base, oldest first.
  ghost function Since(log: Log, head: Id, base: Id): Result<seq<Transaction>>
    requires Walkable(log, head, base)
  {
    var txs, stop :| Trail(log, head, base, txs, stop);
    if stop == [] || stop in log then Ok(txs) else Err(NoSuchTransaction(stop))
  }

  lemma SinceIs(log: Log, head: Id, base: Id, txs: seq<Transaction>, stop: Id)
    requires Trail(log, head, base, txs, stop)
    ensures Walkable(log, head, base)
    ensures Since(log, head, base) ==
            if stop == [] || stop in log then Ok(txs) else Err(NoSuchTransaction(stop))
  {
    var s, x :| Trail(log, head, base, s, x)
      && Since(log, head, base) == if x == [] || x in log then Ok(s) else Err(NoSuchTransaction(x));
    TrailUnique(log, head, base, s, x, txs, stop);
  }

  // On a complete chain the walk collects what comes after base, or everything when base is not on the chain.
  lemma SinceComplete(log: Log, head: Id, older: seq<Transaction>, newer: seq<Transaction>)
    requires Complete(log, head, older + newer)
    ensures Walkable(log, head, Head([], older)) && Since(log, head, Head([], older)) == Ok(newer)
  {
    var c, base := older + newer, Head([], older);
    CompleteUnique(log, head, c, c);
    SegmentSplit(log, [], older, newer, head);
    FreshConcat({}, older, newer);
    assert {} + Ids(older) == Ids(older);
    FreshIds(Ids(older), newer);
    assert base !in Ids(newer);
    SinceIs(log, head, base, newer, base);
    SegmentHead(log, [], older, base);
  }

  // A walk that comes to a missing transaction before it finds base fails and names that transaction.
  lemma SinceMissing(log: Log, head: Id, base: Id, txs: seq<Transaction>, missing: Id)
    requires Segment(log, missing, txs, head) && missing != [] && missing !in log && base !in Ids(txs)
    ensures Walkable(log, head, base) && Since(log, head, base) == Err(NoSuchTransaction(missing))
  {
    SinceIs(log, head, base, txs, missing);
  }

  // A base that is not on a complete chain does not end the walk.
  lemma SinceElsewhere(log: Log, head: Id, base: Id, chain: seq<Transaction>)
    requires Complete(log, head, chain) && base !in Ids(chain)
    ensures Walkable(log, head, base) && Since(log, head, base) == Ok(chain)
  {
    SinceIs(log, head, base, chain, []);
  }

  /** Iterates over the transactions of an account from the newest to the oldest. */
  class TransactionChain {
    const repo: SledRepository
    const account: Id
    var id: Id

    constructor (repo: SledRepository, account: Account)
      ensures this.repo == repo && this.account == account.uuid && id == account.latestTransaction
    {
      this.repo, this.account, this.id := repo, account.uuid, account.latestTransaction;
    }

    method Next() returns (item: Option<Result<Transaction>>)
      requires repo.Valid()
      modifies this
      ensures var log := LogIn(repo.db, account);
              if old(id) == [] then item == None && id == []
              else if old(id) in log then item == Some(Ok(log[old(id)])) && id == log[old(id)].parent
              else item == Some(Err(NoSuchTransaction(old(id)))) && id == old(id)
    {
      if id == [] {
        return None;
      }
      var tx := repo.GetTransaction(account, id);
      if tx.Ok? {
        id := tx.value.parent;
      }
      return Some(tx);
    }
  }

  /** The loop shared by rebasing, pushing and listing children: collects transactions, newest first, down to base. */
  method CollectSince(repo: SledRepository, account: Account, base: Id) returns (r: Result<seq<Transaction>>)
    requires repo.Valid() && Keyed(LogIn(repo.db, account.uuid))
    requires Walkable(LogIn(repo.db, account.uuid), account.latestTransaction, base)
    ensures var since := Since(LogIn(repo.db, account.uuid), account.latestTransaction, base);
            r == if since.Ok? then Ok(Reversed(since.value)) else since
  {
    hide LogIn, Since;
    ghost var log := LogIn(repo.db, account.uuid);
    ghost var all: seq<Transaction>, stop: Id :| Trail(log, account.latestTransaction, base, all, stop);
    SinceIs(log, account.latestTransaction, base, all, stop);
    ghost var rest: seq<Transaction> := all;
    var collected: seq<Transaction> := [];
    var chain := new TransactionChain(repo, account);
    while true
      invariant Trail(log, chain.id, base, rest, stop) && chain.repo == repo && chain.account == account.uuid
      invariant rest <= all && collected == Reversed(all)[..|all| - |rest|]
      decreases |rest|
    {
      var item := chain.Next();
      if item == None {
        assert Reversed(all)[..|all|] == Reversed(all);
        return Ok(collected);
      }
      if item.value.Err? {
        return Err(item.value.error);
      }
      var tx := item.value.value;
      if tx.uuid == base {
        assert Reversed(all)[..|all|] == Reversed(all);
        return Ok(collected);
      }
      rest := Front(rest);
      collected := collected + [tx];
    }
  }

  method CheckChainConsistency(transactions: seq<Transaction>) returns (ok: bool)
    ensures ok <==> transactions == [] || Consistent(transactions[0].parent, transactions)
    ensures ok <==> forall i :: 0 < i < |transactions| ==> transactions[i].parent == transactions[i - 1].uuid
  {
    if transactions != [] { ConsistentIs(transactions[0].parent, transactions); }
    if transactions == [] {
      return true;
    }
    var base := transactions[0].parent;
    for i := 0 to |transactions|
      invariant base == Head(transactions[0].parent, transactions[..i])
      invariant Consistent(transactions[0].parent, transactions[..i])
    {
      assert Front(transactions[..i + 1]) == transactions[..i];
      if transactions[i].parent != base {
        assert transactions == transactions[..i + 1] + transactions[i + 1..];
        ConsistentConcat(transactions[0].parent, transactions[..i + 1], transactions[i + 1..]);
        return false;
      }
      base := transactions[i].uuid;
    }
    assert transactions[..|transactions|] == transactions;
    return true;
  }

  // ---------- Storing a list of transactions ----------

  function Puts(a: Id, txs: seq<Transaction>): seq<Write> {
    seq(|txs|, i requires 0 <= i < |txs| => PutTransaction(a, txs[i]))
  }

  function WithAll(log: Log, txs: seq<Transaction>): Log {
    if txs == [] then log else WithAll(log, Front(txs))[Last(txs).uuid := Last(txs)]
  }

  lemma {:induction false} PutsView(r: Replica, a: Id, txs: seq<Transaction>)
    ensures DoReplicaAll(r, Puts(a, txs)) == r.(log := WithAll(r.log, txs))
  {
    if txs != [] {
      assert Puts(a, txs) == Puts(a, Front(txs)) + [PutTransaction(a, Last(txs))];
      DoReplicaConcat(r, Puts(a, Front(txs)), [PutTransaction(a, Last(txs))]);
      PutsView(r, a, Front(txs));
      DoReplicaOne(DoReplicaAll(r, Puts(a, Front(txs))), PutTransaction(a, Last(txs)));
    }
  }

  lemma DoReplicaOne(r: Replica, w: Write)
    ensures DoReplicaAll(r, [w]) == DoReplica(r, w)
  {
    assert DoReplicaAll(DoReplica(r, w), []) == DoReplica(r, w);
  }

  lemma {:induction false} DoReplicaConcat(r: Replica, v: seq<Write>, w: seq<Write>)
    ensures DoReplicaAll(r, v + w) == DoReplicaAll(DoReplicaAll(r, v), w)
    decreases |v|
  {
    if v == [] {
      assert v + w == w;
    } else {
      assert (v + w)[1..] == v[1..] + w;
      DoReplicaConcat(DoReplica(r, v[0]), v[1..], w);
    }
  }

  lemma {:induction false} WithAllKeys(log: Log, txs: seq<Transaction>)
    ensures WithAll(log, txs).Keys == log.Keys + Ids(txs)
    ensures forall x :: x in log && x !in Ids(txs) ==> WithAll(log, txs)[x] == log[x]
    ensures Keyed(log) ==> Keyed(WithAll(log, txs))
  {
    if txs != [] { WithAllKeys(log, Front(txs)); }
  }

  // Storing new transactions on top of a segment lengthens it.
  lemma {:induction false} Extend(log: Log, base: Id, older: seq<Transaction>, head: Id, newer: seq<Transaction>)
    requires Segment(log, base, older, head) && Consistent(head, newer) && Fresh(log.Keys, newer)
    ensures Segment(WithAll(log, newer), base, older + newer, Head(head, newer))
    decreases |newer|
  {
    if newer == [] {
      assert older + newer == older;
    } else {
      Extend(log, base, older, head, Front(newer));
      ConcatLast(older, newer);
      WithAllKeys(log, Front(newer));
      var middle := Head(head, Front(newer));
      SegmentHead(WithAll(log, Front(newer)), base, older + Front(newer), middle);
      SegmentFrame(WithAll(log, Front(newer)), WithAll(log, newer), base, older + Front(newer), middle);
    }
  }

  // ---------- The server side of synchronization ----------

  // What receiving transactions writes, or why they are refused.
  function Receive(r: Replica, txs: seq<Transaction>): Result<seq<Write>> {
    if txs == [] then Ok([])
    else if r.account.latestTransaction != txs[0].parent then Err(MustRebase)
    else if !Consistent(txs[0].parent, txs) then Err(InconsistentChain)
    else Ok(Puts(r.account.uuid, txs)
            + [PutAccount(r.account.(latestTransaction := txs[|txs| - 1].uuid))])
  }

  /** The four answers to a push, and what an accepted one leaves behind. */
  lemma ReceiveAnswers(r: Replica, txs: seq<Transaction>)
    ensures txs == [] ==> Receive(r, txs) == Ok([])
    ensures txs != [] && txs[0].parent != r.account.latestTransaction ==> Receive(r, txs) == Err(MustRebase)
    ensures txs != [] && txs[0].parent == r.account.latestTransaction && !LinksUp(txs) ==>
              Receive(r, txs) == Err(InconsistentChain)
    ensures txs != [] && txs[0].parent == r.account.latestTransaction && LinksUp(txs) ==>
              && Receive(r, txs).Ok?
              && var after := DoReplicaAll(r, Receive(r, txs).value);
              && after.account == r.account.(latestTransaction := txs[|txs| - 1].uuid)
              && after.log.Keys == r.log.Keys + Ids(txs)
              && (Fresh(r.log.Keys, txs) ==>
                    (forall i :: 0 <= i < |txs| ==> txs[i].uuid in after.log && after.log[txs[i].uuid] == txs[i])
                    && forall x :: x in r.log ==> after.log[x] == r.log[x])
  {
    hide Ids, Fresh, DoReplicaAll, WithAll;
    if txs != [] {
      ConsistentIs(txs[0].parent, txs);
      if Receive(r, txs).Ok? {
        ReceiveView(r, txs);
        WithAllKeys(r.log, txs);
        if Fresh(r.log.Keys, txs) {
          FreshIds(r.log.Keys, txs);
          forall i | 0 <= i < |txs|
            ensures txs[i].uuid in WithAll(r.log, txs) && WithAll(r.log, txs)[txs[i].uuid] == txs[i]
          {
            WithAllAt(r.log, txs, i);
          }
        }
      }
    }
  }

  lemma {:induction false} WithAllAt(log: Log, txs: seq<Transaction>, i: nat)
    requires Fresh(log.Keys, txs) && i < |txs|
    ensures txs[i].uuid in WithAll(log, txs) && WithAll(log, txs)[txs[i].uuid] == txs[i]
  {
    if i < |txs| - 1 {
      WithAllAt(log, Front(txs), i);
      IdIn(Front(txs), i);
    }
  }

  method ReceiveTransactions(repo: SledRepository, accountId: Id, transactions: seq<Transaction>)
    returns (r: Result<()>)
    requires repo.Valid()
    modifies repo
    ensures repo.Valid()
    ensures !Has(old(repo.db), accountId) ==> r == Err(NoSuchAccount(accountId)) && repo.db == old(repo.db)
    ensures Has(old(repo.db), accountId) ==>
              var ws := Receive(View(old(repo.db), accountId), transactions);
              if ws.Ok? then r == Ok(()) && repo.db == DoAll(old(repo.db), ws.value)
              else r == Err(ws.error) && repo.db == old(repo.db)
    ensures Has(old(repo.db), accountId) ==>
              r == if transactions == [] then Ok(())
                   else if transactions[0].parent != View(old(repo.db), accountId).account.latestTransaction
                   then Err(MustRebase)
                   else if !LinksUp(transactions) then Err(InconsistentChain)
                   else Ok(())
  {
    var account :- repo.GetAccount(accountId);
    if transactions == [] {
      return Ok(());
    }
    if account.latestTransaction != transactions[0].parent {
      return Err(MustRebase);
    }
    var consistent := CheckChainConsistency(transactions);
    if !consistent {
      return Err(InconsistentChain);
    }
    ghost var db, puts := repo.db, Puts(account.uuid, transactions);
    for i := 0 to |transactions|
      invariant repo.Valid() && repo.db == DoAll(db, puts[..i])
      invariant AccountIn(repo.db, accountId) == Some(account)
    {
      AccountView(repo.db, puts[i], accountId);
      DoAllConcat(db, puts[..i], [puts[i]]);
      assert puts[..i + 1] == puts[..i] + [puts[i]];
      repo.AddTransaction(account.uuid, transactions[i]);
    }
    assert puts[..|puts|] == puts;
    var last := PutAccount(account.(latestTransaction := transactions[|transactions| - 1].uuid));
    DoAllConcat(db, puts, [last]);
    r := repo.SetLatestTransaction(account.uuid, transactions[|transactions| - 1].uuid);
  }

  ghost predicate ChildrenEnd(r: Replica, base: Id) {
    base == [] || base in r.log ==> Walkable(r.log, r.account.latestTransaction, base)
  }

  // The transactions after base.
  ghost function Children(r: Replica, base: Id): Result<seq<Transaction>>
    requires ChildrenEnd(r, base)
  {
    if base != [] && base !in r.log then Err(NoSuchTransaction(base))
    else Since(r.log, r.account.latestTransaction, base)
  }

  lemma ChildrenUnknown(r: Replica, base: Id)
    requires ChildrenEnd(r, base) && base != [] && base !in r.log
    ensures Children(r, base) == Err(NoSuchTransaction(base))
  {}

  method GetChildTransactions(repo: SledRepository, accountId: Id, base: Id)
    returns (r: Result<seq<Transaction>>)
    requires repo.Valid() && Keyed(LogIn(repo.db, accountId))
    requires Has(repo.db, accountId) ==> ChildrenEnd(View(repo.db, accountId), base)
    ensures base != [] && base !in LogIn(repo.db, accountId) ==> r == Err(NoSuchTransaction(base))
    ensures !Has(repo.db, accountId) && (base == [] || base in LogIn(repo.db, accountId)) ==>
              r == Err(NoSuchAccount(accountId))
    ensures Has(repo.db, accountId) ==> r == Children(View(repo.db, accountId), base)
  {
    if base != [] {
      var known := repo.GetTransaction(accountId, base);
      if known.Err? {
        return Err(known.error);
      }
    }
    var account :- repo.GetAccount(accountId);
    var transactions := CollectSince(repo, account, base);
    if transactions.Err? {
      return transactions;
    }
    r := Ok(Reversed(transactions.value));
    assert Since(LogIn(repo.db, accountId), account.latestTransaction, base).Ok? ==>
      Reversed(transactions.value) == Since(LogIn(repo.db, accountId), account.latestTransaction, base).value;
  }

  // A server that accepts new transactions on top of a complete chain then returns, for the id at any position of
  // that chain, exactly what follows it.
  lemma ReceiveThenChildren(r: Replica, chain: seq<Transaction>, txs: seq<Transaction>, k: nat)
    requires Complete(r.log, r.account.latestTransaction, chain) && k <= |chain|
    requires Receive(r, txs).Ok? && Fresh(r.log.Keys, txs)
    ensures var after := DoReplicaAll(r, Receive(r, txs).value);
            && Complete(after.log, after.account.latestTransaction, chain + txs)
            && ChildrenEnd(after, Head([], chain[..k]))
            && Children(after, Head([], chain[..k])) == Ok(chain[k..] + txs)
  {
    var after := DoReplicaAll(r, Receive(r, txs).value);
    if txs == [] {
      assert chain + txs == chain;
    } else {
      ReceiveView(r, txs);
      SegmentHead(r.log, [], chain, r.account.latestTransaction);
      Extend(r.log, [], chain, r.account.latestTransaction, txs);
    }
    assert chain + txs == chain[..k] + (chain[k..] + txs);
    SinceComplete(after.log, after.account.latestTransaction, chain[..k], chain[k..] + txs);
    SegmentSplit(after.log, [], chain[..k], chain[k..] + txs, after.account.latestTransaction);
  }

  lemma ReceiveView(r: Replica, txs: seq<Transaction>)
    requires Receive(r, txs).Ok? && txs != []
    ensures DoReplicaAll(r, Receive(r, txs).value) ==
            Replica(r.account.(latestTransaction := txs[|txs| - 1].uuid), WithAll(r.log, txs))
    ensures ConcernAll(Receive(r, txs).value, r.account.uuid)
  {
    var last := PutAccount(r.account.(latestTransaction := txs[|txs| - 1].uuid));
    DoReplicaConcat(r, Puts(r.account.uuid, txs), [last]);
    PutsView(r, r.account.uuid, txs);
    DoReplicaOne(DoReplicaAll(r, Puts(r.account.uuid, txs)), last);
  }
}
