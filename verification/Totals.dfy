/** Balances add up to zero and stay within 64-bit integers. */
module Totals {
  import opened Model
  import opened Store
  import opened Chain
  import opened Balance
  import opened Tracing
  import opened Settlement

  // ---------- Zero sum ----------

  // What the updates add up to over a set of persons.
  function Due(es: seq<Entry>, keys: set<Id>): int
    decreases |es|
  {
    if es == [] then 0 else Due(Front(es), keys) + if Last(es).person in keys then Last(es).delta else 0
  }

  lemma {:induction false} DueConcat(s: seq<Entry>, t: seq<Entry>, keys: set<Id>)
    ensures Due(s + t, keys) == Due(s, keys) + Due(t, keys)
    decreases |t|
  {
    if t == [] {
      assert s + t == s;
    } else {
      ConcatLast(s, t);
      DueConcat(s, Front(t), keys);
    }
  }

  lemma {:induction false} PostAllTotal(b: Balances, es: seq<Entry>)
    ensures PostAll(b, es).Keys == b.Keys
    ensures Total(PostAll(b, es)) == Total(b) + Due(es, b.Keys)
    decreases |es|
  {
    if es != [] {
      PostAllTotal(b, Front(es));
      PostTotal(PostAll(b, Front(es)), Last(es));
    }
  }

  lemma PostTotal(b: Balances, e: Entry)
    ensures Post(b, e).Keys == b.Keys
    ensures Total(Post(b, e)) == Total(b) + if e.person in b then e.delta else 0
  {
    if e.person in b {
      var c := Post(b, e);
      SumRemove(b, b.Keys, e.person);
      SumRemove(c, b.Keys, e.person);
      SumAgree(b, c, b.Keys - {e.person});
    }
  }

  // The part of a list of shares that falls on the persons in keys.
  function Paid(shares: seq<Share>, keys: set<Id>): int
    decreases |shares|
  {
    if shares == [] then 0 else
      Paid(Front(shares), keys) + if Last(shares).person in keys then Last(shares).amount else 0
  }

  // As much has been payed by the persons in keys as has been payed for them.
  predicate Balanced(t: Transaction, keys: set<Id>) { Paid(t.payedBy, keys) == Paid(t.payedFor, keys) }

  lemma {:induction false} SharesDue(shares: seq<Share>, factor: int, keys: set<Id>)
    requires factor == 1 || factor == -1
    ensures Due(Shares(shares, factor), keys) == if factor == 1 then Paid(shares, keys) else -Paid(shares, keys)
    decreases |shares|
  {
    if shares != [] {
      assert Front(Shares(shares, factor)) == Shares(Front(shares), factor);
      SharesDue(Front(shares), factor, keys);
    }
  }

  lemma BalancedDue(t: Transaction, factor: int, keys: set<Id>)
    requires Balanced(t, keys) && (factor == 1 || factor == -1)
    ensures Due(Entries(t, factor), keys) == 0
  {
    DueConcat(Shares(t.payedBy, factor), Shares(t.payedFor, -factor), keys);
    SharesDue(t.payedBy, factor, keys);
    SharesDue(t.payedFor, -factor, keys);
  }

  // What a transaction means for one person: what they payed minus what was payed for them.
  lemma ContributionIs(t: Transaction, p: Id)
    ensures Contribution(t, p) == Paid(t.payedBy, {p}) - Paid(t.payedFor, {p})
  {
    hide Net, Due, Paid;
    NetIsDue(Entries(t, 1), p);
    DueConcat(Shares(t.payedBy, 1), Shares(t.payedFor, -1), {p});
    SharesDue(t.payedBy, 1, {p});
    SharesDue(t.payedFor, -1, {p});
  }

  lemma {:induction false} NetIsDue(es: seq<Entry>, p: Id)
    ensures Net(es, p) == Due(es, {p})
    decreases |es|
  {
    if es != [] { NetIsDue(Front(es), p); }
  }

  ghost predicate AllBalanced(log: Log, keys: set<Id>) { forall x :: x in log ==> Balanced(log[x], keys) }

  lemma {:induction false} AncestorStored(log: Log, t: Transaction, n: nat)
    requires AncestorWithin(log, t, n).Some? && AncestorWithin(log, t, n).value.Ok?
    ensures exists x :: x in log && AncestorWithin(log, t, n).value.value == log[x]
    decreases n
  {
    if log[t.supersedes].deleted { AncestorStored(log, log[t.supersedes], n - 1); }
  }

  lemma TxDue(log: Log, t: Transaction, keys: set<Id>)
    requires AllBalanced(log, keys) && Balanced(t, keys)
    requires (t.IsCorrection() ==> HasAncestry(log, t)) && TxEntries(log, t).Ok?
    ensures Due(TxEntries(log, t).value, keys) == 0
  {
    hide Due, Entries, Paid;
    BalancedDue(t, 1, keys);
    if t.IsCorrection() {
      var n: nat :| AncestorWithin(log, t, n).Some?;
      AncestorIs(log, t, n);
      AncestorStored(log, t, n);
      var original := Ancestor(log, t).value;
      BalancedDue(original, -1, keys);
      DueConcat(if t.deleted then [] else Entries(t, 1), Entries(original, -1), keys);
      DueNothing(keys);
    }
  }

  lemma DueNothing(keys: set<Id>)
    ensures Due([], keys) == 0
  {}

  lemma {:induction false} LedgerDue(log: Log, history: seq<Transaction>, stop: Id, keys: set<Id>)
    requires AllBalanced(log, keys) && Readable(log, history) && Ledger(log, history, stop).Ok?
    requires forall i :: 0 <= i < |history| ==> Balanced(history[i], keys)
    ensures Due(Ledger(log, history, stop).value, keys) == 0
    decreases |history|
  {
    hide Due, TxEntries, Balanced;
    if history == [] {
      DueNothing(keys);
    } else {
      assert forall i :: 0 <= i < |history| - 1 ==> history[1..][i] == history[i + 1];
      TxDue(log, history[0], keys);
      LedgerDue(log, history[1..], stop, keys);
      DueConcat(TxEntries(log, history[0]).value, Ledger(log, history[1..], stop).value, keys);
    }
  }

  /** Whatever is edited, edited again or deleted, and in whatever order, a balance that can be computed adds up to
      zero as soon as every stored transaction is balanced over the members. */
  lemma BalanceAddsUpToZero(r: Replica)
    requires AllBalanced(r.log, Members(r.account)) && BalanceEnds(r) && BalanceOf(r).Ok?
    ensures Total(BalanceOf(r).value) == 0
  {
    hide Segment, Ids, Readable, Ledger, Due, PostAll, Balanced;
    var txs, stop :| Trail(r.log, r.account.latestTransaction, [], txs, stop) && Readable(r.log, Reversed(txs));
    BalanceIs(r, txs, stop);
    var h, keys := Reversed(txs), Members(r.account);
    forall i | 0 <= i < |h|
      ensures Balanced(h[i], keys)
    {
      StoredAt(r.log, stop, txs, r.account.latestTransaction, |txs| - 1 - i);
    }
    assert Zero(r.account.members).Keys == keys;
    LedgerDue(r.log, h, stop, keys);
    PostAllTotal(Zero(r.account.members), Ledger(r.log, h, stop).value);
    SumNonPositive(Zero(r.account.members), keys);
    SumNonNegative(Zero(r.account.members), keys);
  }

  // ---------- 64-bit integers ----------

  const MAX_SHARE: int := 0xffff_ffff
  const I64_MAX: int := 0x7fff_ffff_ffff_ffff

  // The value and its opposite are both 64-bit integers.
  predicate FitsI64(v: int) { -I64_MAX <= v <= I64_MAX }

  predicate SmallEntries(es: seq<Entry>) { forall i :: 0 <= i < |es| ==> -MAX_SHARE <= es[i].delta <= MAX_SHARE }

  lemma SmallShares(shares: seq<Share>, factor: int)
    requires factor == 1 || factor == -1
    ensures SmallEntries(Shares(shares, factor))
  {
    forall i | 0 <= i < |shares|
      ensures -MAX_SHARE <= Shares(shares, factor)[i].delta <= MAX_SHARE
    {
      var m: int := shares[i].amount;
      assert m * factor == if factor == 1 then m else -m;
    }
  }

  lemma SmallEntriesOf(t: Transaction, factor: int)
    requires factor == 1 || factor == -1
    ensures SmallEntries(Entries(t, factor))
  {
    SmallShares(t.payedBy, factor);
    SmallShares(t.payedFor, -factor);
  }

  // The updates made until the history ends or one of its transactions cannot be accounted for.
  ghost function Processed(log: Log, history: seq<Transaction>): seq<Entry>
    requires Readable(log, history)
    decreases |history|
  {
    if history == [] then [] else
      var t := history[0];
      if TxEntries(log, t).Err? then if t.deleted then [] else Entries(t, 1)
      else TxEntries(log, t).value + Processed(log, history[1..])
  }

  lemma {:induction false} ProcessedSmall(log: Log, history: seq<Transaction>)
    requires Readable(log, history)
    ensures SmallEntries(Processed(log, history))
    decreases |history|
  {
    hide Entries;
    if history != [] {
      var t := history[0];
      SmallEntriesOf(t, 1);
      if TxEntries(log, t).Ok? {
        if t.IsCorrection() { SmallEntriesOf(Ancestor(log, t).value, -1); }
        ProcessedSmall(log, history[1..]);
      }
    }
  }

  lemma {:induction false} PostAllBound(b: Balances, es: seq<Entry>, p: Id)
    requires SmallEntries(es) && p in b && b[p] == 0
    ensures p in PostAll(b, es) && -|es| * MAX_SHARE <= PostAll(b, es)[p] <= |es| * MAX_SHARE
    decreases |es|
  {
    if es != [] { PostAllBound(b, Front(es), p); }
  }

  /** With fewer than 2^31 entries processed, every value the balance takes on the way, even on the way to an error,
      is a 64-bit integer. */
  lemma BalanceFitsI64(r: Replica, txs: seq<Transaction>, stop: Id, k: nat, p: Id)
    requires Trail(r.log, r.account.latestTransaction, [], txs, stop) && Readable(r.log, Reversed(txs))
    requires k <= |Processed(r.log, Reversed(txs))| < 0x8000_0000 && p in Members(r.account)
    ensures var es := Processed(r.log, Reversed(txs));
            && p in PostAll(Zero(r.account.members), es[..k])
            && FitsI64(PostAll(Zero(r.account.members), es[..k])[p])
            && (k < |es| ==> FitsI64(es[k].delta))
  {
    hide Segment, Ids, Readable, Processed, PostAll;
    var es := Processed(r.log, Reversed(txs));
    ProcessedSmall(r.log, Reversed(txs));
    PostAllBound(Zero(r.account.members), es[..k], p);
  }

  // Greedy transfers, one after the other, whether or not they end up settling the balance.
  ghost predicate GreedyMoves(b: Settlement.Balance, ts: seq<Transfer>)
    decreases |ts|
  {
    ts != [] ==> IsGreedy(b, ts[0]) && GreedyMoves(Apply(b, ts[0]), ts[1..])
  }

  /** From balances that fit, the search only meets balances, amounts and negated debts that fit. */
  lemma {:induction false} SearchFitsI64(b: Settlement.Balance, ts: seq<Transfer>, p: Id)
    requires GreedyMoves(b, ts) && FitsI64(At(b, p))
    requires forall q :: q in b ==> FitsI64(b[q])
    ensures Between(At(ApplyAll(b, ts), p), At(b, p))
    ensures FitsI64(At(ApplyAll(b, ts), p)) && FitsI64(-At(ApplyAll(b, ts), p))
    ensures forall i :: 0 <= i < |ts| ==> 0 < ts[i].amount && FitsI64(ts[i].amount)
    decreases |ts|
  {
    if ts != [] {
      var c := Apply(b, ts[0]);
      forall q | q in c
        ensures FitsI64(c[q])
      {}
      SearchFitsI64(c, ts[1..], p);
      assert forall i :: 1 <= i < |ts| ==> ts[i] == ts[1..][i - 1];
    }
  }
}
