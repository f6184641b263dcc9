/**
 The transactions still visible after edits and deletions, and how the balance relates to them.

 Sequences are newest first.
 */
module History {
  import opened Model
  import opened Chain
  import opened Balance

  // The transactions that no newer one, itself or an id already seen supersedes, and that are not deletions.
  function Flatten(history: seq<Transaction>, seen: set<Id>): seq<Transaction>
    decreases |history|
  {
    if history == [] then [] else
      var t := history[0];
      var now := if t.supersedes != [] then seen + {t.supersedes} else seen;
      (if t.uuid in now || t.deleted then [] else [t]) + Flatten(history[1..], now)
  }

  lemma FlattenStep(t: Transaction, older: seq<Transaction>, seen: set<Id>)
    ensures var now := if t.supersedes != [] then seen + {t.supersedes} else seen;
            Flatten([t] + older, seen) == (if t.uuid in now || t.deleted then [] else [t]) + Flatten(older, now)
  {
    assert ([t] + older)[0] == t && ([t] + older)[1..] == older;
  }

  lemma NothingFlat(seen: set<Id>)
    ensures Flatten([], seen) == []
  {}

  method FlattenHistory(transactions: seq<Transaction>) returns (visible: seq<Transaction>)
    ensures visible == Flatten(transactions, {})
  {
    hide Flatten;
    var seenTransactions: set<Id> := {};
    visible := [];
    for i := 0 to |transactions|
      invariant Flatten(transactions, {}) == visible + Flatten(transactions[i..], seenTransactions)
    {
      var tx := transactions[i];
      assert transactions[i..] == [tx] + transactions[i + 1..];
      FlattenStep(tx, transactions[i + 1..], seenTransactions);
      if tx.supersedes != [] {
        seenTransactions := seenTransactions + {tx.supersedes};
      }
      if !(tx.uuid in seenTransactions || tx.deleted) {
        visible := visible + [tx];
      }
    }
    assert transactions[|transactions|..] == [];
    NothingFlat(seenTransactions);
  }

  // The transactions at these places of the history, from the newest to the oldest.
  ghost predicate Picks(at: seq<nat>, history: seq<Transaction>, txs: seq<Transaction>) {
    && |at| == |txs| && (forall i, j :: 0 <= i < j < |at| ==> at[i] < at[j])
    && forall i :: 0 <= i < |at| ==> at[i] < |history| && history[at[i]] == txs[i]
  }

  function Shifted(at: seq<nat>): seq<nat> { seq(|at|, i requires 0 <= i < |at| => at[i] + 1) }

  lemma PicksMore(at: seq<nat>, t: Transaction, older: seq<Transaction>, txs: seq<Transaction>)
    requires Picks(at, older, txs)
    ensures Picks(Shifted(at), [t] + older, txs) && Picks([0] + Shifted(at), [t] + older, [t] + txs)
  {}

  // The visible transactions are transactions of the history, in its order.
  lemma {:induction false} FlattenInOrder(history: seq<Transaction>, seen: set<Id>) returns (at: seq<nat>)
    ensures Picks(at, history, Flatten(history, seen))
    decreases |history|
  {
    hide Flatten, Picks;
    if history == [] {
      NothingFlat(seen);
      at := [];
      PicksNothing();
    } else {
      var t, older := history[0], history[1..];
      var now := if t.supersedes != [] then seen + {t.supersedes} else seen;
      var rest := FlattenInOrder(older, now);
      PicksMore(rest, t, older, Flatten(older, now));
      assert history == [t] + older;
      FlattenStep(t, older, seen);
      assert [] + Flatten(older, now) == Flatten(older, now);
      at := if t.uuid in now || t.deleted then Shifted(rest) else [0] + Shifted(rest);
    }
  }

  lemma PicksNothing()
    ensures Picks([], [], [])
  {}

  // ---------- Histories in which corrections name older transactions ----------

  ghost function Uuids(history: seq<Transaction>): set<Id>
    decreases |history|
  {
    if history == [] then {} else {history[0].uuid} + Uuids(history[1..])
  }

  // The ids that some transaction supersedes.
  ghost function Superseded(history: seq<Transaction>): set<Id>
    decreases |history|
  {
    if history == [] then {} else
      (if history[0].supersedes != [] then {history[0].supersedes} else {}) + Superseded(history[1..])
  }

  // Every transaction is stored under an id of its own, and whatever it supersedes is older in the same history.
  ghost predicate Ordered(log: Log, history: seq<Transaction>)
    decreases |history|
  {
    history != [] ==>
      var t, older := history[0], history[1..];
      && t.uuid in log && log[t.uuid] == t && t.uuid !in Uuids(older) && t.uuid != []
      && (t.supersedes != [] ==> t.supersedes in Uuids(older))
      && Ordered(log, older)
  }

  // Deletions say what they delete.
  ghost predicate DeletionsNamed(history: seq<Transaction>)
    decreases |history|
  {
    history != [] ==> (history[0].deleted ==> history[0].supersedes != []) && DeletionsNamed(history[1..])
  }

  lemma {:induction false} OrderedStored(log: Log, history: seq<Transaction>, x: Id)
    requires Ordered(log, history) && x in Uuids(history)
    ensures x in log && log[x].uuid == x && x != []
    ensures log[x].supersedes != [] ==> log[x].supersedes in Uuids(history)
    ensures DeletionsNamed(history) && log[x].deleted ==> log[x].supersedes != []
    decreases |history|
  {
    if x != history[0].uuid { OrderedStored(log, history[1..], x); }
  }

  lemma {:induction false} OrderedSuperseded(log: Log, history: seq<Transaction>)
    requires Ordered(log, history)
    ensures Superseded(history) <= Uuids(history)
    decreases |history|
  {
    if history != [] { OrderedSuperseded(log, history[1..]); }
  }

  // The walk from any correction ends, and without a bound given from outside: ids only get older.
  lemma {:induction false} OrderedAncestry(log: Log, history: seq<Transaction>, x: Id)
    requires Ordered(log, history) && x in Uuids(history)
    ensures x in log && HasAncestry(log, log[x])
    ensures Ancestor(log, log[x]).Ok? ==>
              var a := Ancestor(log, log[x]).value;
              a.uuid in Superseded(history) && a.uuid in log && log[a.uuid] == a && !a.deleted
    ensures DeletionsNamed(history) && log[x].IsCorrection() ==> Ancestor(log, log[x]).Ok?
    decreases |history|
  {
    OrderedStored(log, history, x);
    var t, older := log[x], history[1..];
    if x != history[0].uuid {
      OrderedAncestry(log, older, x);
    } else if t.supersedes == [] {
      AncestorIs(log, t, 0);
    } else {
      var y := t.supersedes;
      OrderedStored(log, older, y);
      if !log[y].deleted {
        AncestorIs(log, t, 0);
      } else {
        OrderedAncestry(log, older, y);
        var n: nat :| AncestorWithin(log, log[y], n).Some?;
        assert AncestorWithin(log, t, n + 1) == AncestorWithin(log, log[y], n);
        AncestorIs(log, t, n + 1);
        AncestorIs(log, log[y], n);
      }
    }
  }

  lemma {:induction false} OrderedReadable(log: Log, history: seq<Transaction>)
    requires Ordered(log, history)
    ensures Readable(log, history)
    decreases |history|
  {
    if history != [] {
      OrderedAncestry(log, history, history[0].uuid);
      OrderedReadable(log, history[1..]);
    }
  }

  /** Computing the balance of a complete history fails exactly when some deletion does not say what it deletes. */
  lemma {:induction false} LedgerOk(log: Log, history: seq<Transaction>)
    requires Ordered(log, history)
    ensures Readable(log, history)
    ensures Ledger(log, history, []).Ok? <==> DeletionsNamed(history)
    decreases |history|
  {
    OrderedReadable(log, history);
    if history != [] {
      var t, older := history[0], history[1..];
      OrderedAncestry(log, history, t.uuid);
      LedgerOk(log, older);
      if t.IsCorrection() {
        AncestorStep(log, t);
        if t.supersedes != [] && DeletionsNamed(older) { FirstAncestor(log, t, older); }
      }
    }
  }

  // The newest transaction supersedes something older, whose own deletions are all named.
  lemma FirstAncestor(log: Log, t: Transaction, older: seq<Transaction>)
    requires Ordered(log, older) && DeletionsNamed(older) && t.supersedes in Uuids(older) && HasAncestry(log, t)
    requires t.supersedes != []
    ensures Ancestor(log, t).Ok?
    ensures var a := Ancestor(log, t).value;
            && a.uuid in Uuids(older) && a.uuid in log && log[a.uuid] == a && !a.deleted
            && t.supersedes in log && (log[t.supersedes].deleted ==> a.uuid in Superseded(older))
            && (!log[t.supersedes].deleted ==> a == log[t.supersedes])
  {
    OrderedStored(log, older, t.supersedes);
    OrderedSuperseded(log, older);
    AncestorStep(log, t);
    if log[t.supersedes].deleted { OrderedAncestry(log, older, t.supersedes); }
  }

  // ---------- The exact relation ----------

  function Contributed(txs: seq<Transaction>, p: Id): int
    decreases |txs|
  {
    if txs == [] then 0 else Contribution(txs[0], p) + Contributed(txs[1..], p)
  }

  // What t makes the balance subtract has been superseded before.
  ghost predicate Repeats(log: Log, t: Transaction, older: seq<Transaction>) {
    && t.IsCorrection() && HasAncestry(log, t) && Ancestor(log, t).Ok?
    && Ancestor(log, t).value.uuid in Superseded(older)
  }

  // The contributions subtracted once more although they no longer counted.
  ghost function Redundant(log: Log, history: seq<Transaction>, p: Id): int
    decreases |history|
  {
    if history == [] then 0 else
      var t, older := history[0], history[1..];
      Redundant(log, older, p) + if Repeats(log, t, older) then Contribution(Ancestor(log, t).value, p) else 0
  }

  // The newest transaction changes the balance by its own contribution minus that of what it supersedes.
  lemma TxNet(log: Log, t: Transaction, p: Id)
    requires t.IsCorrection() ==> HasAncestry(log, t)
    requires TxEntries(log, t).Ok?
    ensures Net(TxEntries(log, t).value, p) ==
            (if t.deleted then 0 else Contribution(t, p))
            - (if t.IsCorrection() then Contribution(Ancestor(log, t).value, p) else 0)
  {
    hide Net, Entries;
    if t.IsCorrection() {
      var original := Ancestor(log, t).value;
      EntriesNegated(original, p);
      NetConcat(if t.deleted then [] else Entries(t, 1), Entries(original, -1), p);
      NetOfNothing(p);
    }
  }

  lemma NetOfNothing(p: Id)
    ensures Net([], p) == 0
  {}

  // Which transactions stay visible.
  lemma {:induction false} FlattenKeeps(log: Log, history: seq<Transaction>, seen: set<Id>, x: Id)
    requires Ordered(log, history)
    ensures x in Uuids(Flatten(history, seen)) <==>
            x in Uuids(history) && x in log && !log[x].deleted && x !in seen && x !in Superseded(history)
    decreases |history|
  {
    if history != [] {
      var t, older := history[0], history[1..];
      var now := if t.supersedes != [] then seen + {t.supersedes} else seen;
      FlattenKeeps(log, older, now, x);
      OrderedSuperseded(log, older);
      var rest := Flatten(older, now);
      assert ([t] + rest)[1..] == rest && [] + rest == rest;
    }
  }

  // What hiding one more id takes away from the visible sum.
  function Hidden(txs: seq<Transaction>, x: Id, p: Id): int
    decreases |txs|
  {
    if txs == [] then 0 else (if txs[0].uuid == x then Contribution(txs[0], p) else 0) + Hidden(txs[1..], x, p)
  }

  lemma {:induction false} HideOne(history: seq<Transaction>, seen: set<Id>, x: Id, p: Id)
    ensures Contributed(Flatten(history, seen + {x}), p) ==
            Contributed(Flatten(history, seen), p) - Hidden(Flatten(history, seen), x, p)
    decreases |history|
  {
    hide Contribution;
    if history != [] {
      var t, older := history[0], history[1..];
      var now := if t.supersedes != [] then seen + {t.supersedes} else seen;
      HideOne(older, now, x, p);
      assert now + {x} == if t.supersedes != [] then seen + {x} + {t.supersedes} else seen + {x};
      SumConcatOne(t, Flatten(older, now), p);
      SumConcatOne(t, Flatten(older, now + {x}), p);
      HiddenConcatOne(t, Flatten(older, now), x, p);
    }
  }

  lemma HiddenConcatOne(t: Transaction, rest: seq<Transaction>, x: Id, p: Id)
    ensures Hidden([t] + rest, x, p) == (if t.uuid == x then Contribution(t, p) else 0) + Hidden(rest, x, p)
    ensures [] + rest == rest
  {
    assert ([t] + rest)[1..] == rest;
  }

  // At most one visible transaction has a given id.
  lemma {:induction false} HiddenIs(log: Log, history: seq<Transaction>, seen: set<Id>, x: Id, p: Id)
    requires Ordered(log, history)
    ensures Hidden(Flatten(history, seen), x, p) ==
            if x in Uuids(history) && x in log && !log[x].deleted && x !in seen && x !in Superseded(history)
            then Contribution(log[x], p) else 0
    decreases |history|
  {
    hide Contribution;
    if history != [] {
      var t, older := history[0], history[1..];
      var now := if t.supersedes != [] then seen + {t.supersedes} else seen;
      HiddenIs(log, older, now, x, p);
      OrderedSuperseded(log, older);
      HiddenConcatOne(t, Flatten(older, now), x, p);
    }
  }

  lemma SumConcatOne(t: Transaction, rest: seq<Transaction>, p: Id)
    ensures Contributed([t] + rest, p) == Contribution(t, p) + Contributed(rest, p) && [] + rest == rest
  {
    assert ([t] + rest)[1..] == rest;
  }

  // How the visible sum changes with the newest transaction.
  lemma VisibleStep(log: Log, history: seq<Transaction>, p: Id)
    requires Ordered(log, history) && history != []
    ensures var t, older := history[0], history[1..];
            Contributed(Flatten(history, {}), p) ==
              Contributed(Flatten(older, {}), p) + (if t.deleted then 0 else Contribution(t, p))
              - (if t.supersedes != [] && t.supersedes in log && !log[t.supersedes].deleted
                    && t.supersedes !in Superseded(older)
                 then Contribution(log[t.supersedes], p) else 0)
  {
    var t, older := history[0], history[1..];
    var now := if t.supersedes != [] then {t.supersedes} else {};
    assert {} + {t.supersedes} == {t.supersedes};
    SumConcatOne(t, Flatten(older, now), p);
    if t.supersedes != [] {
      OrderedStored(log, older, t.supersedes);
      HideOne(older, {}, t.supersedes, p);
      HiddenIs(log, older, {}, t.supersedes, p);
    }
  }

  /** The balance is the sum over the visible transactions, minus what redundant corrections subtract again. */
  lemma {:induction false} BalanceIsVisibleSum(log: Log, history: seq<Transaction>, p: Id)
    requires Ordered(log, history) && DeletionsNamed(history)
    ensures Readable(log, history) && Ledger(log, history, []).Ok?
    ensures Net(Ledger(log, history, []).value, p) == Contributed(Flatten(history, {}), p) - Redundant(log, history, p)
    decreases |history|
  {
    hide Net, Flatten, Contributed, Contribution, TxEntries;
    LedgerOk(log, history);
    if history == [] {
      NetOfNothing(p);
      NothingVisible(p);
    } else {
      var t, older := history[0], history[1..];
      BalanceIsVisibleSum(log, older, p);
      VisibleStep(log, history, p);
      OrderedAncestry(log, history, t.uuid);
      var es := TxEntries(log, t).value;
      TxNet(log, t, p);
      NetConcat(es, Ledger(log, older, []).value, p);
      if t.IsCorrection() {
        OrderedStored(log, older, t.supersedes);
        FirstAncestor(log, t, older);
      }
    }
  }

  lemma NothingVisible(p: Id)
    ensures Contributed(Flatten([], {}), p) == 0
  {}

  // ---------- One device ----------

  // What a device can add to its own history: a new transaction, or the edit or deletion of a visible one.
  ghost predicate Entered(t: Transaction, older: seq<Transaction>) {
    t.IsCorrection() ==> t.supersedes in Uuids(Flatten(older, {}))
  }

  ghost predicate OneDevice(history: seq<Transaction>)
    decreases |history|
  {
    history != [] ==> Entered(history[0], history[1..]) && OneDevice(history[1..])
  }

  // Each transaction is stored under a new id.
  ghost predicate NewIds(log: Log, history: seq<Transaction>)
    decreases |history|
  {
    history != [] ==>
      var t, older := history[0], history[1..];
      t.uuid in log && log[t.uuid] == t && t.uuid !in Uuids(older) && t.uuid != [] && NewIds(log, older)
  }

  lemma {:induction false} OneDeviceOrdered(log: Log, history: seq<Transaction>, p: Id)
    requires NewIds(log, history) && OneDevice(history)
    ensures Ordered(log, history) && DeletionsNamed(history) && Redundant(log, history, p) == 0
    decreases |history|
  {
    if history != [] {
      var t, older := history[0], history[1..];
      OneDeviceOrdered(log, older, p);
      if t.IsCorrection() {
        FlattenKeeps(log, older, {}, t.supersedes);
        OrderedStored(log, older, t.supersedes);
        AncestorIs(log, t, 0);
        assert Ancestor(log, t).value.uuid == t.supersedes;
      }
    }
  }

  /** Over every run of a single device the balance is the sum of what the transactions on display contribute. */
  lemma OneDeviceBalance(log: Log, history: seq<Transaction>, p: Id)
    requires NewIds(log, history) && OneDevice(history)
    ensures Readable(log, history) && Ledger(log, history, []).Ok?
    ensures Net(Ledger(log, history, []).value, p) == Contributed(Flatten(history, {}), p)
  {
    OneDeviceOrdered(log, history, p);
    BalanceIsVisibleSum(log, history, p);
  }

  // Nothing is subtracted that had been superseded before.
  ghost predicate NoRepeats(log: Log, history: seq<Transaction>)
    decreases |history|
  {
    history != [] ==> !Repeats(log, history[0], history[1..]) && NoRepeats(log, history[1..])
  }

  /** That is so exactly when each correction names a transaction visible when it was made. */
  lemma {:induction false} NoRepeatsIsOneDevice(log: Log, history: seq<Transaction>)
    requires Ordered(log, history) && DeletionsNamed(history)
    ensures NoRepeats(log, history) <==> OneDevice(history)
    decreases |history|
  {
    if history != [] {
      var t, older := history[0], history[1..];
      NoRepeatsIsOneDevice(log, older);
      OrderedAncestry(log, history, t.uuid);
      if t.IsCorrection() {
        OrderedStored(log, older, t.supersedes);
        FlattenKeeps(log, older, {}, t.supersedes);
        FirstAncestor(log, t, older);
      }
    }
  }

  // Everything that is subtracted, if it is at all, is a loss for p.
  ghost predicate AlwaysCredited(log: Log, p: Id) {
    forall x :: x in log && !log[x].deleted ==> Contribution(log[x], p) > 0
  }

  lemma {:induction false} RedundantIsZero(log: Log, history: seq<Transaction>, p: Id)
    requires Ordered(log, history) && DeletionsNamed(history) && AlwaysCredited(log, p)
    ensures Redundant(log, history, p) >= 0
    ensures Redundant(log, history, p) == 0 <==> NoRepeats(log, history)
    decreases |history|
  {
    hide Contribution;
    if history != [] {
      var t, older := history[0], history[1..];
      RedundantIsZero(log, older, p);
      OrderedAncestry(log, history, t.uuid);
      if t.IsCorrection() { FirstAncestor(log, t, older); }
    }
  }

  /** For somebody to whom every transaction gives credit, the balance is the sum of what the transactions on display
      contribute exactly when each correction names a transaction visible when it was made. */
  lemma BalanceAgreesExactlyOnOneDevice(log: Log, history: seq<Transaction>, p: Id)
    requires Ordered(log, history) && DeletionsNamed(history) && AlwaysCredited(log, p)
    ensures Readable(log, history) && Ledger(log, history, []).Ok?
    ensures Net(Ledger(log, history, []).value, p) == Contributed(Flatten(history, {}), p) <==> OneDevice(history)
  {
    BalanceIsVisibleSum(log, history, p);
    RedundantIsZero(log, history, p);
    NoRepeatsIsOneDevice(log, history);
  }

  /** Two devices that correct the same transaction make the balance subtract it twice. */
  lemma TwoDevicesDisagree(log: Log, v: Transaction, e: Transaction, f: Transaction, p: Id)
    requires NewIds(log, [f, e, v]) && !v.IsCorrection() && !e.deleted && !f.deleted
    requires e.supersedes == v.uuid && f.supersedes == v.uuid
    ensures Readable(log, [f, e, v]) && Ledger(log, [f, e, v], []).Ok?
    ensures Net(Ledger(log, [f, e, v], []).value, p) == Contributed(Flatten([f, e, v], {}), p) - Contribution(v, p)
  {
    hide Net, Flatten, Contributed, Contribution, NewIds;
    assert [f, e, v] == [f] + [e, v] && [e, v] == [e] + [v] && [v] == [v] + [];
    OneMore(log, f, [e, v]);
    OneMore(log, e, [v]);
    OneMore(log, v, []);
    AncestorIs(log, f, 0);
    AncestorIs(log, e, 0);
    BalanceIsVisibleSum(log, [f, e, v], p);
  }

  // ---------- What is on display while a new transaction is being saved ----------

  // Hiding what is superseded forgets nothing: what the hidden transactions supersede is hidden too.
  lemma {:induction false} FlattenTwice(history: seq<Transaction>, seen: set<Id>, more: set<Id>)
    ensures Flatten(Flatten(history, seen), more) == Flatten(history, seen + more)
    decreases |history|
  {
    if history != [] {
      var t, older := history[0], history[1..];
      var now := if t.supersedes != [] then seen + {t.supersedes} else seen;
      var also := if t.supersedes != [] then more + {t.supersedes} else more;
      assert history == [t] + older;
      FlattenStep(t, older, seen);
      FlattenStep(t, older, seen + more);
      if t.uuid in now || t.deleted {
        assert [] + Flatten(older, now) == Flatten(older, now);
        assert [] + Flatten(older, now + more) == Flatten(older, now + more);
        FlattenTwice(older, now, more);
        assert now + more == if t.supersedes != [] then seen + more + {t.supersedes} else seen + more;
      } else {
        FlattenStep(t, Flatten(older, now), more);
        FlattenTwice(older, now, also);
        assert now + also == if t.supersedes != [] then seen + more + {t.supersedes} else seen + more;
      }
    }
  }

  // No deletions, and nothing that supersedes another one of the transactions.
  ghost predicate Unrelated(txs: seq<Transaction>) {
    forall a, b :: a in txs && b in txs ==> !a.deleted && (a.supersedes != [] ==> a.supersedes != b.uuid)
  }

  function Except(txs: seq<Transaction>, ids: set<Id>): seq<Transaction>
    decreases |txs|
  {
    if txs == [] then [] else (if txs[0].uuid in ids then [] else [txs[0]]) + Except(txs[1..], ids)
  }

  lemma {:induction false} ExceptCount(txs: seq<Transaction>, ids: set<Id>, t: Transaction)
    ensures multiset(Except(txs, ids))[t] == if t.uuid in ids then 0 else multiset(txs)[t]
    decreases |txs|
  {
    if txs != [] {
      assert txs == [txs[0]] + txs[1..];
      ExceptCount(txs[1..], ids, t);
    }
  }

  lemma {:induction false} FlattenUnrelated(txs: seq<Transaction>, ids: set<Id>, others: set<Id>)
    requires Unrelated(txs) && forall a :: a in txs ==> a.uuid !in others
    ensures Flatten(txs, ids + others) == Except(txs, ids)
    decreases |txs|
  {
    if txs != [] {
      var t, older := txs[0], txs[1..];
      var more := if t.supersedes != [] then others + {t.supersedes} else others;
      assert t in txs && forall a :: a in older ==> a in txs;
      assert ids + more == if t.supersedes != [] then ids + others + {t.supersedes} else ids + others;
      FlattenUnrelated(older, ids, more);
    }
  }

  lemma {:induction false} FlattenMember(history: seq<Transaction>, seen: set<Id>, a: Transaction)
    requires a in Flatten(history, seen)
    ensures a.uuid in Uuids(Flatten(history, seen)) && !a.deleted
    ensures a.supersedes != [] ==> a.supersedes in Superseded(history)
    decreases |history|
  {
    var t, older := history[0], history[1..];
    var now := if t.supersedes != [] then seen + {t.supersedes} else seen;
    var rest := Flatten(older, now);
    assert ([t] + rest)[1..] == rest && [] + rest == rest;
    if a in rest { FlattenMember(older, now, a); }
  }

  lemma VisibleUnrelated(log: Log, history: seq<Transaction>)
    requires Ordered(log, history)
    ensures Unrelated(Flatten(history, {}))
  {
    hide Flatten;
    var visible := Flatten(history, {});
    forall a, b | a in visible && b in visible
      ensures !a.deleted && (a.supersedes != [] ==> a.supersedes != b.uuid)
    {
      FlattenMember(history, {}, a);
      FlattenMember(history, {}, b);
      FlattenKeeps(log, history, {}, b.uuid);
    }
  }

  lemma ShownExcept(log: Log, history: seq<Transaction>, shown: seq<Transaction>, ids: set<Id>)
    requires Ordered(log, history) && multiset(shown) == multiset(Flatten(history, {}))
    ensures multiset(Flatten(shown, ids)) == multiset(Flatten(history, ids))
  {
    hide Flatten;
    var visible := Flatten(history, {});
    VisibleUnrelated(log, history);
    forall a
      ensures a in shown <==> a in visible
    {
      assert a in multiset(shown) <==> a in multiset(visible);
    }
    assert {} + ids == ids && ids + {} == ids;
    FlattenTwice(history, {}, ids);
    FlattenUnrelated(visible, ids, {});
    FlattenUnrelated(shown, ids, {});
    forall t
      ensures multiset(Except(shown, ids))[t] == multiset(Except(visible, ids))[t]
    {
      ExceptCount(shown, ids, t);
      ExceptCount(visible, ids, t);
    }
  }

  /** Whatever order the visible transactions are shown in, putting a new transaction on top of what is shown and
      hiding what it supersedes gives what reading the whole history again would give. */
  lemma DisplayKeepsUp(log: Log, history: seq<Transaction>, shown: seq<Transaction>, t: Transaction)
    requires Ordered(log, history) && multiset(shown) == multiset(Flatten(history, {}))
    ensures multiset(Flatten([t] + shown, {})) == multiset(Flatten([t] + history, {}))
  {
    hide Flatten;
    FlattenStep(t, shown, {});
    FlattenStep(t, history, {});
    ShownExcept(log, history, shown, if t.supersedes != [] then {} + {t.supersedes} else {});
  }

  // The recursive definitions, unfolded once.
  lemma OneMore(log: Log, t: Transaction, older: seq<Transaction>)
    requires NewIds(log, [t] + older)
    ensures NewIds(log, older) && t.uuid in log && log[t.uuid] == t && t.uuid !in Uuids(older) && t.uuid != []
    ensures Uuids([t] + older) == {t.uuid} + Uuids(older)
    ensures Superseded([t] + older) == (if t.supersedes != [] then {t.supersedes} else {}) + Superseded(older)
    ensures Ordered(log, [t] + older) <==> (t.supersedes != [] ==> t.supersedes in Uuids(older)) && Ordered(log, older)
    ensures DeletionsNamed([t] + older) <==> (t.deleted ==> t.supersedes != []) && DeletionsNamed(older)
    ensures forall p :: Redundant(log, [t] + older, p) ==
                        Redundant(log, older, p)
                        + if Repeats(log, t, older) then Contribution(Ancestor(log, t).value, p) else 0
  {
    assert ([t] + older)[0] == t && ([t] + older)[1..] == older;
  }
}
