/**
 Which transactions the balance can account for, and what other logs make of them.

 Sequences are oldest first, except that a history is newest first.
 */
module Tracing {
  import opened Model
  import opened Store
  import opened Chain
  import opened Balance
  import opened History

  // ---------- The balance of a chain, transaction by transaction ----------

  // The transaction corrects nothing, or something that can be found.
  ghost predicate Traced(log: Log, t: Transaction) { t.IsCorrection() ==> HasAncestry(log, t) && Ancestor(log, t).Ok? }

  ghost predicate AllTraced(log: Log, txs: seq<Transaction>) { forall i :: 0 <= i < |txs| ==> Traced(log, txs[i]) }

  // What the transactions change, all together, for one person.
  ghost function Worth(log: Log, txs: seq<Transaction>, p: Id): int
    requires AllTraced(log, txs)
    decreases |txs|
  {
    if txs == [] then 0 else
      assert Traced(log, Last(txs)) && AllTraced(log, Front(txs));
      Worth(log, Front(txs), p) + Net(TxEntries(log, Last(txs)).value, p)
  }

  lemma EntriesOk(log: Log, t: Transaction)
    requires t.IsCorrection() ==> HasAncestry(log, t)
    ensures TxEntries(log, t).Ok? <==> Traced(log, t)
    ensures TxEntries(log, t).Err? ==> TxEntries(log, t).error == Ancestor(log, t).error
  {}

  lemma ReversedLast<T>(s: seq<T>)
    requires s != []
    ensures Reversed(s)[0] == Last(s) && Reversed(s)[1..] == Reversed(Front(s))
  {}

  lemma {:induction false} ReversedIds(txs: seq<Transaction>)
    ensures Uuids(Reversed(txs)) == Ids(txs)
  {
    if txs != [] {
      ReversedLast(txs);
      ReversedIds(Front(txs));
    }
  }

  lemma {:induction false} TracedLedger(log: Log, chain: seq<Transaction>, p: Id)
    requires AllTraced(log, chain)
    ensures Readable(log, Reversed(chain)) && Ledger(log, Reversed(chain), []).Ok?
    ensures Net(Ledger(log, Reversed(chain), []).value, p) == Worth(log, chain, p)
    decreases |chain|
  {
    hide TxEntries, Net;
    if chain == [] {
      NetOfNothing(p);
    } else {
      ReversedLast(chain);
      assert Traced(log, Last(chain)) && AllTraced(log, Front(chain));
      EntriesOk(log, Last(chain));
      TracedLedger(log, Front(chain), p);
      NetConcat(TxEntries(log, Last(chain)).value, Ledger(log, Reversed(Front(chain)), []).value, p);
    }
  }

  lemma {:induction false} LedgerTraced(log: Log, chain: seq<Transaction>)
    requires Readable(log, Reversed(chain)) && Ledger(log, Reversed(chain), []).Ok?
    ensures AllTraced(log, chain)
    decreases |chain|
  {
    hide TxEntries, Traced;
    if chain != [] {
      ReversedLast(chain);
      EntriesOk(log, Last(chain));
      LedgerTraced(log, Front(chain));
      assert chain == Front(chain) + [Last(chain)];
    }
  }

  // The walk through a complete chain is the chain itself.
  lemma ChainReadable(r: Replica, chain: seq<Transaction>)
    requires Complete(r.log, r.account.latestTransaction, chain) && BalanceEnds(r)
    ensures Readable(r.log, Reversed(chain))
    ensures BalanceOf(r) == Posted(r.account.members, Ledger(r.log, Reversed(chain), []))
  {
    hide Segment, Ids, Readable;
    SegmentHead(r.log, [], chain, r.account.latestTransaction);
    var txs, stop :| Trail(r.log, r.account.latestTransaction, [], txs, stop) && Readable(r.log, Reversed(txs));
    TrailUnique(r.log, r.account.latestTransaction, [], chain, [], txs, stop);
    BalanceIs(r, chain, []);
  }

  lemma ReadableEnds(r: Replica, chain: seq<Transaction>)
    requires Complete(r.log, r.account.latestTransaction, chain) && Readable(r.log, Reversed(chain))
    ensures BalanceEnds(r)
    ensures BalanceOf(r) == Posted(r.account.members, Ledger(r.log, Reversed(chain), []))
  {
    hide Segment, Ids, Readable;
    SegmentHead(r.log, [], chain, r.account.latestTransaction);
    BalanceIs(r, chain, []);
  }

  /** The balance of a complete chain can be computed exactly when every transaction is traced, and is then what they
      are worth. */
  lemma ChainBalance(r: Replica, chain: seq<Transaction>)
    requires Complete(r.log, r.account.latestTransaction, chain)
    ensures BalanceEnds(r) && BalanceOf(r).Ok? <==> AllTraced(r.log, chain)
    ensures AllTraced(r.log, chain) ==>
              && BalanceEnds(r) && BalanceOf(r).Ok? && BalanceOf(r).value.Keys == Members(r.account)
              && forall p :: p in Members(r.account) ==> BalanceOf(r).value[p] == Worth(r.log, chain, p)
  {
    hide Segment, Ids, AllTraced, Worth, Readable, PostAll, Net, Ledger;
    if BalanceEnds(r) {
      ChainReadable(r, chain);
      if BalanceOf(r).Ok? { LedgerTraced(r.log, chain); }
    }
    if AllTraced(r.log, chain) {
      TracedLedger(r.log, chain, []);
      ReadableEnds(r, chain);
      PostAllNet(Zero(r.account.members), Ledger(r.log, Reversed(chain), []).value);
      forall p | p in Members(r.account)
        ensures BalanceOf(r).value[p] == Worth(r.log, chain, p)
      {
        TracedLedger(r.log, chain, p);
      }
    }
  }

  lemma {:induction false} WorthConcat(log: Log, older: seq<Transaction>, newer: seq<Transaction>, p: Id)
    ensures AllTraced(log, older + newer) <==> AllTraced(log, older) && AllTraced(log, newer)
    ensures AllTraced(log, older + newer) ==>
              Worth(log, older + newer, p) == Worth(log, older, p) + Worth(log, newer, p)
    decreases |newer|
  {
    hide TxEntries, Traced, Net;
    var all := older + newer;
    assert forall i :: 0 <= i < |older| ==> older[i] == all[i];
    assert forall i :: 0 <= i < |newer| ==> newer[i] == all[|older| + i];
    if newer == [] {
      assert all == older;
    } else {
      ConcatLast(older, newer);
      WorthConcat(log, older, Front(newer), p);
    }
  }

  // A chain whose transactions all have ids of their own.
  lemma {:induction false} ChainHasNewIds(log: Log, base: Id, txs: seq<Transaction>, head: Id)
    requires Segment(log, base, txs, head) && Fresh({}, txs)
    ensures NewIds(log, Reversed(txs))
    decreases |txs|
  {
    if txs != [] {
      ReversedLast(txs);
      ReversedIds(Front(txs));
      ChainHasNewIds(log, base, Front(txs), Last(txs).parent);
    }
  }

  // A balance that can be computed, seen through the updates it is made of.
  lemma BalanceNet(r: Replica, chain: seq<Transaction>, p: Id)
    requires Complete(r.log, r.account.latestTransaction, chain) && p in Members(r.account)
    requires Readable(r.log, Reversed(chain)) && Ledger(r.log, Reversed(chain), []).Ok?
    ensures BalanceEnds(r) && BalanceOf(r).Ok? && p in BalanceOf(r).value
    ensures BalanceOf(r).value[p] == Net(Ledger(r.log, Reversed(chain), []).value, p)
  {
    hide Segment, Ids, Readable, PostAll, Net, Ledger;
    ReadableEnds(r, chain);
    PostAllNet(Zero(r.account.members), Ledger(r.log, Reversed(chain), []).value);
  }

  /** A device whose chain is complete, and that only ever edited or deleted transactions it displayed at the time,
      shows for every member the sum of what the transactions it now displays contribute. */
  lemma DeviceBalance(r: Replica, chain: seq<Transaction>, p: Id)
    requires Complete(r.log, r.account.latestTransaction, chain) && OneDevice(Reversed(chain))
    requires p in Members(r.account)
    ensures BalanceEnds(r) && BalanceOf(r).Ok? && p in BalanceOf(r).value
    ensures BalanceOf(r).value[p] == Contributed(Flatten(Reversed(chain), {}), p)
  {
    hide Segment, Ids, Readable, Ledger, Net, BalanceOf, BalanceEnds;
    CompleteUnique(r.log, r.account.latestTransaction, chain, chain);
    ChainHasNewIds(r.log, [], chain, r.account.latestTransaction);
    OneDeviceBalance(r.log, Reversed(chain), p);
    BalanceNet(r, chain, p);
  }

  // ---------- The same transactions in another log ----------

  // Whatever log stores, it stores like other, and together with what other stores of what it supersedes.
  ghost predicate Covers(log: Log, other: Log) {
    forall x :: x in log && x in other ==>
      log[x] == other[x] && (log[x].supersedes in other ==> log[x].supersedes in log)
  }

  // A search that succeeds in other succeeds in log, with the same result.
  lemma {:induction false} WalkCovered(log: Log, other: Log, t: Transaction, u: Transaction, n: nat)
    requires Covers(log, other) && u.supersedes == t.supersedes && (t.supersedes in other ==> t.supersedes in log)
    requires AncestorWithin(other, t, n).Some? && AncestorWithin(other, t, n).value.Ok?
    ensures AncestorWithin(log, u, n) == AncestorWithin(other, t, n)
    decreases n
  {
    var v := other[t.supersedes];
    if v.deleted { WalkCovered(log, other, v, v, n - 1); }
  }

  lemma SamePayload(t: Transaction, u: Transaction)
    requires u.Payload() == t.Payload()
    ensures u.supersedes == t.supersedes && u.deleted == t.deleted
    ensures u.payedBy == t.payedBy && u.payedFor == t.payedFor
  {
    assert u.Payload().supersedes == u.supersedes && t.Payload().supersedes == t.supersedes;
    assert u.Payload().deleted == u.deleted && t.Payload().deleted == t.deleted;
    assert u.Payload().payedBy == u.payedBy && t.Payload().payedBy == t.payedBy;
    assert u.Payload().payedFor == u.payedFor && t.Payload().payedFor == t.payedFor;
  }

  lemma TracedCovered(log: Log, other: Log, t: Transaction, u: Transaction)
    requires Covers(log, other) && u.Payload() == t.Payload() && (t.supersedes in other ==> t.supersedes in log)
    requires Traced(other, t)
    ensures Traced(log, u) && TxEntries(log, u) == TxEntries(other, t)
  {
    SamePayload(t, u);
    if t.IsCorrection() {
      var n: nat :| AncestorWithin(other, t, n).Some?;
      AncestorIs(other, t, n);
      WalkCovered(log, other, t, u, n);
      AncestorIs(log, u, n);
    }
  }

  ghost predicate Alike(s: seq<Transaction>, t: seq<Transaction>) {
    |s| == |t| && forall i :: 0 <= i < |s| ==> s[i].Payload() == t[i].Payload()
  }

  lemma {:induction false} AllTracedCovered(log: Log, other: Log, ts: seq<Transaction>, us: seq<Transaction>, p: Id)
    requires Covers(log, other) && Alike(us, ts) && AllTraced(other, ts)
    requires forall i :: 0 <= i < |ts| && ts[i].supersedes in other ==> ts[i].supersedes in log
    ensures AllTraced(log, us) && Worth(log, us, p) == Worth(other, ts, p)
    decreases |ts|
  {
    hide TxEntries, Traced, Net, Covers;
    if ts != [] {
      assert forall i :: 0 <= i < |ts| - 1 ==> Front(ts)[i] == ts[i] && Front(us)[i] == us[i];
      AllTracedCovered(log, other, Front(ts), Front(us), p);
      TracedCovered(log, other, Last(ts), Last(us));
      assert forall i :: 0 <= i < |us| ==> us[i] == if i < |us| - 1 then Front(us)[i] else Last(us);
    }
  }

  /** A balance that cannot be computed never can be again, whatever is added to the chain, as long as nothing that was
      superseded but missing turns up in the store. */
  lemma BrokenForGood(before: Replica, older: seq<Transaction>, after: Replica, newer: seq<Transaction>)
    requires Complete(before.log, before.account.latestTransaction, older)
    requires Complete(after.log, after.account.latestTransaction, older + newer)
    requires Covers(before.log, after.log) && BalanceEnds(before) && BalanceEnds(after)
    ensures BalanceOf(before).Err? ==> BalanceOf(after).Err?
  {
    hide Segment, Ids, AllTraced, Covers, BalanceEnds, BalanceOf;
    ChainBalance(before, older);
    ChainBalance(after, older + newer);
    if AllTraced(after.log, older + newer) {
      WorthConcat(after.log, older, newer, []);
      ChainCovered(before, older, after, newer);
    }
  }

  lemma ChainCovered(before: Replica, older: seq<Transaction>, after: Replica, newer: seq<Transaction>)
    requires Complete(before.log, before.account.latestTransaction, older)
    requires Complete(after.log, after.account.latestTransaction, older + newer)
    requires Covers(before.log, after.log) && AllTraced(after.log, older)
    ensures AllTraced(before.log, older)
  {
    hide Segment, AllTraced, Ids;
    forall i | 0 <= i < |older| && older[i].supersedes in after.log
      ensures older[i].supersedes in before.log
    {
      StoredAt(before.log, [], older, before.account.latestTransaction, i);
      assert (older + newer)[i] == older[i];
      StoredAt(after.log, [], older + newer, after.account.latestTransaction, i);
    }
    AllTracedCovered(before.log, after.log, older, older, []);
  }

  lemma {:induction false} StoredAt(log: Log, base: Id, txs: seq<Transaction>, head: Id, i: nat)
    requires Segment(log, base, txs, head) && i < |txs|
    ensures txs[i].uuid in log && log[txs[i].uuid] == txs[i]
  {
    if i < |txs| - 1 { StoredAt(log, base, Front(txs), Last(txs).parent, i); }
  }

  // ---------- Which chains have a balance ----------

  // Whatever is superseded is older in the sequence, or is none of the ids.
  ghost predicate NoStray(txs: seq<Transaction>, ids: set<Id>) {
    txs != [] ==>
      && NoStray(Front(txs), ids)
      && var x := Last(txs).supersedes; x == [] || x in Ids(Front(txs)) || x !in ids
  }

  lemma {:induction false} NoStrayWeaken(txs: seq<Transaction>, ids: set<Id>, fewer: set<Id>)
    requires NoStray(txs, ids) && fewer <= ids
    ensures NoStray(txs, fewer)
  {
    if txs != [] { NoStrayWeaken(Front(txs), ids, fewer); }
  }

  lemma {:induction false} NoStrayConcat(older: seq<Transaction>, newer: seq<Transaction>, ids: set<Id>)
    ensures NoStray(older + newer, ids) <==>
            NoStray(older, ids)
            && forall i :: 0 <= i < |newer| ==>
                 var x := newer[i].supersedes; x == [] || x in Ids(older + newer[..i]) || x !in ids
    decreases |newer|
  {
    hide Ids;
    if newer == [] {
      assert older + newer == older;
    } else {
      ConcatLast(older, newer);
      NoStrayConcat(older, Front(newer), ids);
      assert forall i :: 0 <= i < |newer| - 1 ==> Front(newer)[i] == newer[i] && Front(newer)[..i] == newer[..i];
      assert newer[..|newer| - 1] == Front(newer);
    }
  }

  // All transactions of a part of a log, each after whatever it supersedes.
  ghost predicate Arranged(log: Log, all: seq<Transaction>) {
    && Fresh({}, all) && NoStray(all, log.Keys)
    && forall i :: 0 <= i < |all| ==> all[i].uuid in log && log[all[i].uuid] == all[i]
  }

  // The ids from which following what is superseded, past deletions, arrives at a transaction.
  ghost function Resolved(all: seq<Transaction>): (ids: set<Id>)
    ensures ids <= Ids(all)
  {
    if all == [] then {} else
      var t, ids := Last(all), Resolved(Front(all));
      if !t.deleted || t.supersedes in ids then ids + {t.uuid} else ids
  }

  lemma {:induction false} ResolvedIs(log: Log, all: seq<Transaction>, t: Transaction)
    requires Arranged(log, all) && [] !in log
    requires t.supersedes == [] || t.supersedes in Ids(all) || t.supersedes !in log
    ensures HasAncestry(log, t) && (Ancestor(log, t).Ok? <==> t.supersedes in Resolved(all))
    decreases |all|
  {
    ArrangedIds(log, all);
    if t.supersedes == [] || t.supersedes !in log {
      AncestorIs(log, t, 0);
    } else {
      var y := Last(all);
      FreshIds({}, Front(all));
      ArrangedFront(log, all);
      if t.supersedes != y.uuid {
        ResolvedIs(log, Front(all), t);
      } else if !y.deleted {
        AncestorIs(log, t, 0);
      } else {
        ResolvedIs(log, Front(all), y);
        var n: nat :| AncestorWithin(log, y, n).Some?;
        AncestorIs(log, y, n);
        assert AncestorWithin(log, t, n + 1) == AncestorWithin(log, y, n);
        AncestorIs(log, t, n + 1);
      }
    }
  }

  lemma ArrangedFront(log: Log, all: seq<Transaction>)
    requires Arranged(log, all) && all != []
    ensures Arranged(log, Front(all)) && Last(all).uuid in log && log[Last(all).uuid] == Last(all)
  {
    assert forall i :: 0 <= i < |all| - 1 ==> Front(all)[i] == all[i];
  }

  lemma {:induction false} ArrangedIds(log: Log, all: seq<Transaction>)
    requires Arranged(log, all)
    ensures Ids(all) <= log.Keys && [] !in Ids(all)
    decreases |all|
  {
    if all != [] {
      ArrangedFront(log, all);
      ArrangedIds(log, Front(all));
    }
  }

  // Every correction supersedes one of the ids.
  ghost predicate Resolves(chain: seq<Transaction>, ids: set<Id>) {
    forall i :: 0 <= i < |chain| && chain[i].IsCorrection() ==> chain[i].supersedes in ids
  }

  lemma {:induction false} WalksReadable(log: Log, chain: seq<Transaction>)
    requires forall i :: 0 <= i < |chain| && chain[i].IsCorrection() ==> HasAncestry(log, chain[i])
    ensures Readable(log, Reversed(chain))
    decreases |chain|
  {
    hide HasAncestry;
    if chain != [] {
      ReversedLast(chain);
      assert forall i :: 0 <= i < |chain| - 1 ==> Front(chain)[i] == chain[i];
      WalksReadable(log, Front(chain));
    }
  }

  lemma {:induction false} NoStrayAt(txs: seq<Transaction>, ids: set<Id>, i: nat)
    requires NoStray(txs, ids) && i < |txs|
    ensures var x := txs[i].supersedes; x == [] || x in Ids(txs[..i]) || x !in ids
  {
    if i < |txs| - 1 {
      NoStrayAt(Front(txs), ids, i);
      assert Front(txs)[..i] == txs[..i];
    } else {
      assert txs[..i] == Front(txs);
    }
  }

  // A chain that lies within an arranged part of its log.
  ghost predicate Within(log: Log, chain: seq<Transaction>, all: seq<Transaction>) {
    Arranged(log, all) && Ids(chain) <= Ids(all)
  }

  lemma WithinSupersedes(r: Replica, chain: seq<Transaction>, all: seq<Transaction>, i: nat)
    requires Complete(r.log, r.account.latestTransaction, chain) && Within(r.log, chain, all) && i < |chain|
    ensures chain[i].supersedes == [] || chain[i].supersedes in Ids(all) || chain[i].supersedes !in r.log
  {
    hide Segment, Fresh, NoStray, Ids;
    StoredAt(r.log, [], chain, r.account.latestTransaction, i);
    IdIn(chain, i);
    var k := IdAt(all, chain[i].uuid);
    NoStrayAt(all, r.log.Keys, k);
    assert all == all[..k] + all[k..];
    IdsConcat(all[..k], all[k..]);
  }

  /** In any store whose transactions can be arranged so that each comes after what it supersedes, the balance can be
      computed exactly when every correction of the chain supersedes an id that leads, past deletions, to a stored
      transaction. */
  lemma ComputableExactly(r: Replica, chain: seq<Transaction>, all: seq<Transaction>)
    requires Complete(r.log, r.account.latestTransaction, chain) && [] !in r.log && Within(r.log, chain, all)
    ensures BalanceEnds(r) && (BalanceOf(r).Ok? <==> Resolves(chain, Resolved(all)))
  {
    hide Segment, Ids, NoStray, BalanceOf, BalanceEnds, Resolved, Readable, HasAncestry, Arranged, Within;
    forall i | 0 <= i < |chain|
      ensures HasAncestry(r.log, chain[i])
      ensures Ancestor(r.log, chain[i]).Ok? <==> chain[i].supersedes in Resolved(all)
    {
      WithinSupersedes(r, chain, all, i);
      WithinArranged(r.log, chain, all);
      ResolvedIs(r.log, all, chain[i]);
    }
    WalksReadable(r.log, chain);
    ReadableEnds(r, chain);
    ChainBalance(r, chain);
  }

  lemma WithinArranged(log: Log, chain: seq<Transaction>, all: seq<Transaction>)
    requires Within(log, chain, all)
    ensures Arranged(log, all)
  {}

  // ---------- Chains that only supersede their own transactions ----------

  // The transaction supersedes nothing or one of the ids, and says what it deletes.
  predicate Follows(t: Transaction, ids: set<Id>) {
    (t.supersedes != [] ==> t.supersedes in ids) && (t.deleted ==> t.supersedes != [])
  }

  // Every transaction only supersedes an older one of the chain.
  ghost predicate Sound(chain: seq<Transaction>) {
    chain != [] ==> Sound(Front(chain)) && Follows(Last(chain), Ids(Front(chain)))
  }

  ghost predicate FollowAll(txs: seq<Transaction>, ids: set<Id>) { forall i :: 0 <= i < |txs| ==> Follows(txs[i], ids) }

  lemma {:induction false} SoundConcat(older: seq<Transaction>, newer: seq<Transaction>)
    ensures Sound(older + newer) ==> Sound(older)
    ensures Sound(older) && FollowAll(newer, Ids(older)) ==> Sound(older + newer)
    decreases |newer|
  {
    hide Ids;
    if newer == [] {
      assert older + newer == older;
    } else {
      ConcatLast(older, newer);
      IdsConcat(older, Front(newer));
      assert forall i :: 0 <= i < |newer| - 1 ==> Front(newer)[i] == newer[i];
      SoundConcat(older, Front(newer));
    }
  }

  lemma {:induction false} SoundIsNoStray(chain: seq<Transaction>, ids: set<Id>)
    requires Sound(chain)
    ensures NoStray(chain, ids)
  {
    if chain != [] { SoundIsNoStray(Front(chain), ids); }
  }

  lemma {:induction false} SoundIsOrdered(log: Log, base: Id, chain: seq<Transaction>, head: Id)
    requires Segment(log, base, chain, head) && Fresh({}, chain) && Sound(chain)
    ensures Ordered(log, Reversed(chain)) && DeletionsNamed(Reversed(chain))
  {
    if chain != [] {
      ReversedLast(chain);
      ReversedIds(Front(chain));
      SoundIsOrdered(log, base, Front(chain), Last(chain).parent);
    }
  }

  lemma {:induction false} SoundIsResolved(chain: seq<Transaction>)
    requires Fresh({}, chain) && NoStray(chain, Ids(chain))
    ensures Sound(chain) <==> Resolves(chain, Resolved(chain))
    ensures Sound(chain) ==> Resolved(chain) == Ids(chain)
    decreases |chain|
  {
    if chain != [] {
      var older := Front(chain);
      assert chain == older + [Last(chain)];
      NoStrayWeaken(older, Ids(chain), Ids(older));
      SoundIsResolved(older);
      FreshIds({}, chain);
      if Resolves(chain, Resolved(chain)) {
        forall i | 0 <= i < |older| && older[i].IsCorrection()
          ensures older[i].supersedes in Resolved(older)
        {
          assert chain[i] == older[i];
          NoStrayAt(chain, Ids(chain), i);
          FrontIds(older, i);
        }
        assert chain[|chain| - 1] == Last(chain);
      }
      assert Sound(older) ==>
          forall i :: 0 <= i < |older| && older[i].IsCorrection() ==> older[i].supersedes in Ids(older);
    }
  }

  lemma FrontIds(older: seq<Transaction>, i: nat)
    requires i <= |older|
    ensures forall last: Transaction :: (older + [last])[..i] == older[..i]
    ensures Ids(older[..i]) <= Ids(older)
  {
    hide Ids;
    assert older == older[..i] + older[i..];
    IdsConcat(older[..i], older[i..]);
  }

  // The arrangement of a chain is the chain itself.
  lemma ChainArranged(r: Replica, chain: seq<Transaction>)
    requires Complete(r.log, r.account.latestTransaction, chain) && NoStray(chain, r.log.Keys)
    ensures Arranged(r.log, chain) && Ids(chain) <= r.log.Keys
  {
    hide NoStray, Ids, Segment, Fresh;
    CompleteUnique(r.log, r.account.latestTransaction, chain, chain);
    SegmentHead(r.log, [], chain, r.account.latestTransaction);
    forall i | 0 <= i < |chain|
      ensures chain[i].uuid in r.log && r.log[chain[i].uuid] == chain[i]
    {
      StoredAt(r.log, [], chain, r.account.latestTransaction, i);
    }
  }

  /** When nothing supersedes a stored transaction that is not older in the chain, that is so exactly when everything
      superseded is there at all and every deletion says what it deletes. */
  lemma SoundExactly(r: Replica, chain: seq<Transaction>)
    requires Complete(r.log, r.account.latestTransaction, chain) && [] !in r.log && NoStray(chain, r.log.Keys)
    ensures BalanceEnds(r) && (BalanceOf(r).Ok? <==> Sound(chain))
  {
    hide Segment, Ids, Sound, NoStray, BalanceOf, BalanceEnds, Resolves, Resolved, Fresh;
    ChainArranged(r, chain);
    ComputableExactly(r, chain, chain);
    NoStrayWeaken(chain, r.log.Keys, Ids(chain));
    SoundIsResolved(chain);
  }

  // A replica whose chain is complete and only supersedes its own older transactions.
  ghost predicate Tidy(r: Replica, chain: seq<Transaction>) {
    Complete(r.log, r.account.latestTransaction, chain) && [] !in r.log && Sound(chain)
  }

  lemma TidyHistory(r: Replica, chain: seq<Transaction>)
    requires Tidy(r, chain)
    ensures Ordered(r.log, Reversed(chain)) && DeletionsNamed(Reversed(chain))
  {
    CompleteUnique(r.log, r.account.latestTransaction, chain, chain);
    SoundIsOrdered(r.log, [], chain, r.account.latestTransaction);
  }

  lemma TidyComputes(r: Replica, chain: seq<Transaction>)
    requires Tidy(r, chain)
    ensures BalanceEnds(r) && BalanceOf(r).Ok?
  {
    SoundIsNoStray(chain, r.log.Keys);
    SoundExactly(r, chain);
  }

  // Its balance in terms of what is on display.
  lemma TidyBalance(r: Replica, chain: seq<Transaction>, p: Id)
    requires Tidy(r, chain) && p in Members(r.account)
    ensures BalanceEnds(r) && BalanceOf(r).Ok? && p in BalanceOf(r).value
    ensures BalanceOf(r).value[p] ==
            Contributed(Flatten(Reversed(chain), {}), p) - Redundant(r.log, Reversed(chain), p)
  {
    hide Ordered, DeletionsNamed, Sound, Readable, Ledger, Net, Segment, BalanceOf, BalanceEnds;
    TidyHistory(r, chain);
    BalanceIsVisibleSum(r.log, Reversed(chain), p);
    BalanceNet(r, chain, p);
  }
}
