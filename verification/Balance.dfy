/**
 The balance of an account: a signed running sum over the whole chain, which adds each transaction and subtracts the
 one it supersedes.

 Sequences called history are newest first, as the chain is walked.
 */
module Balance {
  import opened Model
  import opened Store
  import opened Chain

  type Balances = map<Id, int>

  // One update of one member's entry.
  datatype Entry = Entry(person: Id, delta: int)

  function Shares(shares: seq<Share>, factor: int): seq<Entry> {
    seq(|shares|, i requires 0 <= i < |shares| => Entry(shares[i].person, shares[i].amount * factor))
  }

  // The updates a transaction causes, in order: those who payed first, then those who were payed for.
  function Entries(t: Transaction, factor: int): seq<Entry> {
    Shares(t.payedBy, factor) + Shares(t.payedFor, -factor)
  }

  // Persons who are not members of the account are ignored.
  function Post(b: Balances, e: Entry): Balances {
    if e.person in b then b[e.person := b[e.person] + e.delta] else b
  }

  function PostAll(b: Balances, es: seq<Entry>): Balances
    decreases |es|
  {
    if es == [] then b else Post(PostAll(b, Front(es)), Last(es))
  }

  // What the updates add up to for one person.
  function Net(es: seq<Entry>, p: Id): int
    decreases |es|
  {
    if es == [] then 0 else Net(Front(es), p) + if Last(es).person == p then Last(es).delta else 0
  }

  lemma {:induction false} NetConcat(s: seq<Entry>, t: seq<Entry>, p: Id)
    ensures Net(s + t, p) == Net(s, p) + Net(t, p)
    decreases |t|
  {
    if t == [] {
      assert s + t == s;
    } else {
      ConcatLast(s, t);
      NetConcat(s, Front(t), p);
    }
  }

  lemma {:induction false} PostAllConcat(b: Balances, s: seq<Entry>, t: seq<Entry>)
    ensures PostAll(b, s + t) == PostAll(PostAll(b, s), t)
    decreases |t|
  {
    if t == [] {
      assert s + t == s;
    } else {
      ConcatLast(s, t);
      PostAllConcat(b, s, Front(t));
    }
  }

  lemma {:induction false} PostAllNet(b: Balances, es: seq<Entry>)
    ensures PostAll(b, es).Keys == b.Keys
    ensures forall p :: p in b ==> PostAll(b, es)[p] == b[p] + Net(es, p)
    decreases |es|
  {
    if es != [] { PostAllNet(b, Front(es)); }
  }

  lemma {:induction false} SharesNegated(shares: seq<Share>, factor: int, p: Id)
    ensures Net(Shares(shares, -factor), p) == -Net(Shares(shares, factor), p)
    decreases |shares|
  {
    if shares != [] {
      assert Front(Shares(shares, factor)) == Shares(Front(shares), factor);
      assert Front(Shares(shares, -factor)) == Shares(Front(shares), -factor);
      SharesNegated(Front(shares), factor, p);
      assert Last(shares).amount * -factor == -(Last(shares).amount * factor);
    }
  }

  // What a transaction means for one person's balance while nothing supersedes it.
  function Contribution(t: Transaction, p: Id): int { Net(Entries(t, 1), p) }

  lemma EntriesNegated(t: Transaction, p: Id)
    ensures Net(Entries(t, -1), p) == -Contribution(t, p)
  {
    NetConcat(Shares(t.payedBy, -1), Shares(t.payedFor, 1), p);
    NetConcat(Shares(t.payedBy, 1), Shares(t.payedFor, -1), p);
    SharesNegated(t.payedBy, 1, p);
    SharesNegated(t.payedFor, 1, p);
  }

  // ---------- What a transaction supersedes ----------

  // Walks down `supersedes` past deletions, for a given number of steps; None when it has not ended by then.
  ghost function AncestorWithin(log: Log, t: Transaction, steps: nat): Option<Result<Transaction>>
    decreases steps
  {
    if t.supersedes == [] || t.supersedes !in log then Some(Err(NoSuchTransaction(t.supersedes)))
    else if !log[t.supersedes].deleted then Some(Ok(log[t.supersedes]))
    else if steps == 0 then None
    else AncestorWithin(log, log[t.supersedes], steps - 1)
  }

  // The walk ends; it runs forever exactly when deletions supersede each other in a cycle.
  ghost predicate HasAncestry(log: Log, t: Transaction) { exists n: nat :: AncestorWithin(log, t, n).Some? }

  ghost function Ancestor(log: Log, t: Transaction): Result<Transaction>
    requires HasAncestry(log, t)
  {
    var n: nat :| AncestorWithin(log, t, n).Some?;
    AncestorWithin(log, t, n).value
  }

  lemma {:induction false} AncestorUnique(log: Log, t: Transaction, m: nat, n: nat)
    requires AncestorWithin(log, t, m).Some? && AncestorWithin(log, t, n).Some?
    ensures AncestorWithin(log, t, m) == AncestorWithin(log, t, n)
    decreases m
  {
    if m > 0 && n > 0 && t.supersedes != [] && t.supersedes in log && log[t.supersedes].deleted {
      AncestorUnique(log, log[t.supersedes], m - 1, n - 1);
    }
  }

  lemma AncestorIs(log: Log, t: Transaction, n: nat)
    requires AncestorWithin(log, t, n).Some?
    ensures HasAncestry(log, t) && Ancestor(log, t) == AncestorWithin(log, t, n).value
  {
    var m: nat :| AncestorWithin(log, t, m).Some? && Ancestor(log, t) == AncestorWithin(log, t, m).value;
    AncestorUnique(log, t, m, n);
  }

  // Each transaction of the path is the one the transaction before it supersedes; all but the last are deletions.
  ghost predicate SupersededPath(log: Log, t: Transaction, path: seq<Transaction>)
    decreases |path|
  {
    path != [] ==>
      && t.supersedes != [] && t.supersedes in log && path[0] == log[t.supersedes]
      && (|path| > 1 ==> path[0].deleted) && SupersededPath(log, path[0], path[1..])
  }

  /** What is superseded, past deletions: the first transaction on the way that is not a deletion; an error names the id
      that is empty or not stored. */
  lemma AncestorIsFirst(log: Log, t: Transaction) returns (path: seq<Transaction>)
    requires HasAncestry(log, t)
    ensures SupersededPath(log, t, path)
    ensures Ancestor(log, t).Ok? ==> path != [] && !Last(path).deleted && Ancestor(log, t).value == Last(path)
    ensures Ancestor(log, t).Err? ==>
              var stop := if path == [] then t.supersedes else Last(path).supersedes;
              && (path != [] ==> Last(path).deleted) && (stop == [] || stop !in log)
              && Ancestor(log, t) == Err(NoSuchTransaction(stop))
  {
    var n: nat :| AncestorWithin(log, t, n).Some?;
    AncestorIs(log, t, n);
    path := PathWithin(log, t, n);
  }

  lemma {:induction false} PathWithin(log: Log, t: Transaction, n: nat) returns (path: seq<Transaction>)
    requires AncestorWithin(log, t, n).Some?
    ensures SupersededPath(log, t, path)
    ensures var result := AncestorWithin(log, t, n).value;
            if result.Ok? then path != [] && !Last(path).deleted && result.value == Last(path)
            else
              var stop := if path == [] then t.supersedes else Last(path).supersedes;
              && (path != [] ==> Last(path).deleted) && (stop == [] || stop !in log)
              && result == Err(NoSuchTransaction(stop))
    decreases n
  {
    path := [];
    if t.supersedes != [] && t.supersedes in log {
      var next := log[t.supersedes];
      path := [next];
      if next.deleted {
        var rest := PathWithin(log, next, n - 1);
        path := [next] + rest;
        assert path[1..] == rest;
      }
    }
  }

  // One step of the walk.
  lemma AncestorStep(log: Log, t: Transaction)
    requires HasAncestry(log, t)
    ensures t.supersedes == [] || t.supersedes !in log ==> Ancestor(log, t) == Err(NoSuchTransaction(t.supersedes))
    ensures t.supersedes != [] && t.supersedes in log && !log[t.supersedes].deleted ==>
              Ancestor(log, t) == Ok(log[t.supersedes])
    ensures t.supersedes != [] && t.supersedes in log && log[t.supersedes].deleted ==>
              HasAncestry(log, log[t.supersedes]) && Ancestor(log, t) == Ancestor(log, log[t.supersedes])
  {
    var n: nat :| AncestorWithin(log, t, n).Some?;
    AncestorIs(log, t, n);
    if t.supersedes != [] && t.supersedes in log && log[t.supersedes].deleted {
      AncestorIs(log, log[t.supersedes], n - 1);
    }
  }

  method GetFirstNonDeletedAncestor(repo: SledRepository, account: Account, deleted: Transaction)
    returns (r: Result<Transaction>)
    requires repo.Valid() && HasAncestry(LogIn(repo.db, account.uuid), deleted)
    ensures r == Ancestor(LogIn(repo.db, account.uuid), deleted)
  {
    ghost var log := LogIn(repo.db, account.uuid);
    ghost var n: nat :| AncestorWithin(log, deleted, n).Some?;
    var cur := deleted;
    while true
      invariant AncestorWithin(log, cur, n).Some?
      invariant HasAncestry(log, cur) && Ancestor(log, cur) == Ancestor(log, deleted)
      decreases n
    {
      AncestorStep(log, cur);
      if cur.supersedes == [] {
        return Err(NoSuchTransaction(cur.supersedes));
      }
      var next :- repo.GetTransaction(account.uuid, cur.supersedes);
      if !next.deleted {
        return Ok(next);
      }
      AncestorIs(log, next, n - 1);
      cur, n := next, n - 1;
    }
  }

  // ---------- The balance ----------

  // The updates one transaction of the chain causes.
  ghost function TxEntries(log: Log, t: Transaction): Result<seq<Entry>>
    requires t.IsCorrection() ==> HasAncestry(log, t)
  {
    if !t.IsCorrection() then Ok(Entries(t, 1))
    else
      var original :- Ancestor(log, t);
      Ok((if t.deleted then [] else Entries(t, 1)) + Entries(original, -1))
  }

  // Every walk that computing the balance makes ends; after an error nothing more is walked.
  ghost predicate Readable(log: Log, history: seq<Transaction>)
    decreases |history|
  {
    history != [] ==>
      && (history[0].IsCorrection() ==> HasAncestry(log, history[0]))
      && (TxEntries(log, history[0]).Ok? ==> Readable(log, history[1..]))
  }

  function After(es: seq<Entry>, rest: Result<seq<Entry>>): Result<seq<Entry>> {
    if rest.Err? then rest else Ok(es + rest.value)
  }

  lemma AfterNothing(rest: Result<seq<Entry>>)
    ensures After([], rest) == rest
  {
    assert rest.Ok? ==> [] + rest.value == rest.value;
  }

  lemma AfterTwo(s: seq<Entry>, t: seq<Entry>, rest: Result<seq<Entry>>)
    ensures After(s, After(t, rest)) == After(s + t, rest)
  {
    assert rest.Ok? ==> s + (t + rest.value) == s + t + rest.value;
  }

  // All updates for a history that ends at the id stop.
  ghost function Ledger(log: Log, history: seq<Transaction>, stop: Id): Result<seq<Entry>>
    requires Readable(log, history)
    decreases |history|
  {
    if history == [] then if stop == [] then Ok([]) else Err(NoSuchTransaction(stop))
    else
      var es :- TxEntries(log, history[0]);
      After(es, Ledger(log, history[1..], stop))
  }

  function Members(account: Account): set<Id> { set m | m in account.members :: m.uuid }

  /** The error of a balance is that of the newest transaction that cannot be accounted for, or else that of the chain's
      missing end. */
  lemma {:induction false} LedgerError(log: Log, history: seq<Transaction>, stop: Id) returns (k: nat)
    requires Readable(log, history) && Ledger(log, history, stop).Err?
    ensures k <= |history|
    ensures forall i :: 0 <= i < k ==>
              (history[i].IsCorrection() ==> HasAncestry(log, history[i])) && TxEntries(log, history[i]).Ok?
    ensures k < |history| ==>
              && (history[k].IsCorrection() ==> HasAncestry(log, history[k]))
              && TxEntries(log, history[k]) == Ledger(log, history, stop)
    ensures k == |history| ==> stop != [] && Ledger(log, history, stop) == Err(NoSuchTransaction(stop))
    decreases |history|
  {
    k := 0;
    if history != [] && TxEntries(log, history[0]).Ok? {
      k := LedgerError(log, history[1..], stop);
      k := k + 1;
      assert forall i :: 1 <= i < |history| ==> history[i] == history[1..][i - 1];
    }
  }

  // The transaction can be accounted for.
  ghost predicate Accountable(log: Log, t: Transaction) {
    (t.IsCorrection() ==> HasAncestry(log, t)) && TxEntries(log, t).Ok?
  }

  /** There is no error exactly when the chain does not end at a missing transaction and every transaction of it can be
      accounted for. */
  lemma {:induction false} LedgerExactly(log: Log, history: seq<Transaction>, stop: Id)
    requires Readable(log, history)
    ensures Ledger(log, history, stop).Ok? <==>
            stop == [] && forall i :: 0 <= i < |history| ==> Accountable(log, history[i])
    decreases |history|
  {
    hide TxEntries, HasAncestry;
    if history != [] {
      if TxEntries(log, history[0]).Ok? {
        LedgerExactly(log, history[1..], stop);
        assert forall i :: 1 <= i < |history| ==> history[i] == history[1..][i - 1];
        assert forall i :: 0 <= i < |history| - 1 ==> history[1..][i] == history[i + 1];
      }
    }
  }

  function Zero(members: seq<Person>): Balances { map m | m in members :: m.uuid := 0 }

  // The balances the updates lead to.
  function Posted(members: seq<Person>, ledger: Result<seq<Entry>>): Result<Balances> {
    var es :- ledger;
    Ok(PostAll(Zero(members), es))
  }

  // The walks that computing the balance of an account makes all end.
  ghost predicate BalanceEnds(r: Replica) {
    exists txs, stop :: Trail(r.log, r.account.latestTransaction, [], txs, stop) && Readable(r.log, Reversed(txs))
  }

  ghost function BalanceOf(r: Replica): Result<Balances>
    requires BalanceEnds(r)
  {
    var txs, stop :| Trail(r.log, r.account.latestTransaction, [], txs, stop) && Readable(r.log, Reversed(txs));
    Posted(r.account.members, Ledger(r.log, Reversed(txs), stop))
  }

  lemma BalanceIs(r: Replica, txs: seq<Transaction>, stop: Id)
    requires Trail(r.log, r.account.latestTransaction, [], txs, stop) && Readable(r.log, Reversed(txs))
    ensures BalanceEnds(r)
    ensures BalanceOf(r) ==
            Posted(r.account.members, Ledger(r.log, Reversed(txs), stop))
  {
    hide Segment, Ids, Ledger, PostAll, Readable;
    var s, x :| Trail(r.log, r.account.latestTransaction, [], s, x) && Readable(r.log, Reversed(s))
      && BalanceOf(r) ==
         Posted(r.account.members, Ledger(r.log, Reversed(s), x));
    TrailUnique(r.log, r.account.latestTransaction, [], s, x, txs, stop);
  }

  class BalanceSheet {
    var balance: Balances

    constructor (members: seq<Person>)
      ensures balance == Zero(members)
    {
      balance := map m | m in members :: m.uuid := 0;
    }

    method Update(payedBy: seq<Share>, payedFor: seq<Share>, factor: int)
      modifies this
      ensures balance == PostAll(old(balance), Shares(payedBy, factor) + Shares(payedFor, -factor))
    {
      ghost var credits, debits := Shares(payedBy, factor), Shares(payedFor, -factor);
      for i := 0 to |payedBy|
        invariant balance == PostAll(old(balance), credits[..i])
      {
        assert Front(credits[..i + 1]) == credits[..i];
        var p := payedBy[i];
        if p.person in balance {
          balance := balance[p.person := balance[p.person] + p.amount * factor];
        }
      }
      assert credits[..|credits|] == credits;
      ghost var middle := balance;
      for i := 0 to |payedFor|
        invariant balance == PostAll(middle, debits[..i])
      {
        assert Front(debits[..i + 1]) == debits[..i];
        var p := payedFor[i];
        assert p.amount * -factor == -(p.amount * factor);
        if p.person in balance {
          balance := balance[p.person := balance[p.person] - p.amount * factor];
        }
      }
      assert debits[..|debits|] == debits;
      PostAllConcat(old(balance), credits, debits);
    }

    // What the loop does with one transaction of the chain.
    method Account(repo: SledRepository, account: Model.Account, tx: Transaction) returns (r: Result<()>)
      requires repo.Valid()
      requires tx.IsCorrection() ==> HasAncestry(LogIn(repo.db, account.uuid), tx)
      modifies this
      ensures var es := TxEntries(LogIn(repo.db, account.uuid), tx);
              if es.Ok? then r == Ok(()) && balance == PostAll(old(balance), es.value)
              else r == Err(es.error) && balance == PostAll(old(balance), if tx.deleted then [] else Entries(tx, 1))
    {
      if tx.supersedes != [] || tx.deleted {
        ghost var posted: seq<Entry> := [];
        if !tx.deleted {
          Update(tx.payedBy, tx.payedFor, 1);
          posted := Entries(tx, 1);
        }
        var original :- GetFirstNonDeletedAncestor(repo, account, tx);
        Update(original.payedBy, original.payedFor, -1);
        PostAllConcat(old(balance), posted, Entries(original, -1));
      } else {
        Update(tx.payedBy, tx.payedFor, 1);
      }
      return Ok(());
    }
  }

  method GetBalance(repo: SledRepository, account: Account) returns (r: Result<Balances>)
    requires repo.Valid() && BalanceEnds(Replica(account, LogIn(repo.db, account.uuid)))
    ensures r == BalanceOf(Replica(account, LogIn(repo.db, account.uuid)))
    ensures r.Ok? ==> forall p :: p in r.value <==> exists m :: m in account.members && m.uuid == p
  {
    ghost var log := LogIn(repo.db, account.uuid);
    ghost var txs: seq<Transaction>, stop: Id :|
      Trail(log, account.latestTransaction, [], txs, stop) && Readable(log, Reversed(txs));
    hide Segment, Ids, PostAll, TxEntries, LogIn, BalanceOf, BalanceEnds, Zero, After;
    BalanceIs(Replica(account, log), txs, stop);
    AfterNothing(Ledger(log, Reversed(txs), stop));
    var sheet := new BalanceSheet(account.members);
    var chain := new TransactionChain(repo, account);
    ghost var older: seq<Transaction>, posted: seq<Entry> := txs, [];
    PostNothing(Zero(account.members));
    while true
      invariant chain.repo == repo && chain.account == account.uuid
      invariant Trail(log, chain.id, [], older, stop) && Readable(log, Reversed(older))
      invariant sheet.balance == PostAll(Zero(account.members), posted)
      invariant Ledger(log, Reversed(txs), stop) == After(posted, Ledger(log, Reversed(older), stop))
      decreases |older|
    {
      TrailStep(log, chain.id, older, stop, posted);
      var item := chain.Next();
      if item == None {
        MembersPosted(account.members, posted);
        return Ok(sheet.balance);
      }
      var tx :- item.value;
      var accounted := sheet.Account(repo, account, tx);
      if accounted.Err? {
        return Err(accounted.error);
      }
      ghost var es := TxEntries(log, tx).value;
      PostAllConcat(Zero(account.members), posted, es);
      older, posted := Front(older), posted + es;
    }
  }

  lemma MembersPosted(members: seq<Person>, es: seq<Entry>)
    ensures forall p :: p in PostAll(Zero(members), es) <==> exists m :: m in members && m.uuid == p
  {
    PostAllNet(Zero(members), es);
  }

  lemma PostNothing(b: Balances)
    ensures PostAll(b, []) == b
  {}

  // Where the walk stands: at its end, at an error, or at one more transaction.
  lemma TrailStep(log: Log, id: Id, older: seq<Transaction>, stop: Id, posted: seq<Entry>)
    requires Trail(log, id, [], older, stop) && Readable(log, Reversed(older))
    ensures older == [] ==> id == stop && (stop == [] || stop !in log)
    ensures older == [] ==>
              After(posted, Ledger(log, Reversed(older), stop))
              == (if stop == [] then Ok(posted) else Err(NoSuchTransaction(stop)))
    ensures older != [] ==>
              && id != [] && id in log && log[id] == Last(older)
              && (log[id].IsCorrection() ==> HasAncestry(log, log[id]))
              && var es := TxEntries(log, log[id]);
              if es.Err? then After(posted, Ledger(log, Reversed(older), stop)) == Err(es.error)
              else
                && Trail(log, log[id].parent, [], Front(older), stop) && Readable(log, Reversed(Front(older)))
                && After(posted, Ledger(log, Reversed(older), stop)) ==
                   After(posted + es.value, Ledger(log, Reversed(Front(older)), stop))
  {
    if older == [] {
      assert Reversed(older) == [] && posted + [] == posted;
    } else {
      assert Reversed(older)[0] == Last(older) && Reversed(older)[1..] == Reversed(Front(older));
      if TxEntries(log, log[id]).Ok? {
        AfterTwo(posted, TxEntries(log, log[id]).value, Ledger(log, Reversed(Front(older)), stop));
      }
    }
  }
}
