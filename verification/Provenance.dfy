/**
 Where stored transactions come from, and what follows for balances: every run of the protocol can be settled.
 */
module Provenance {
  import opened Model
  import opened Store
  import opened Chain
  import opened Sync
  import opened Convergence
  import opened Crash
  import opened Protocol
  import opened Runs
  import opened Balance
  import opened Tracing
  import opened Rebalance
  import opened Totals
  import Settlement

  // ---------- Everything stored has been entered ----------

  // Some client has entered it.
  ghost predicate Entered(s: State, payload: Transaction) {
    exists c :: c in s.clients && payload in s.clients[c].created
  }

  ghost predicate AllEntered(s: State, log: Log) { forall x :: x in log ==> Entered(s, log[x].Payload()) }

  ghost predicate Faithful(s: State) {
    AllEntered(s, s.server.log) && forall c :: c in s.clients ==> AllEntered(s, s.clients[c].replica.log)
  }

  // Whatever the changed log holds was there, or is one of the transactions added.
  ghost predicate Extended(log: Log, after: Log, added: seq<Transaction>) {
    forall x :: x in after ==> (x in log && after[x] == log[x]) || after[x] in added
  }

  lemma {:induction false} WithAllExtends(log: Log, txs: seq<Transaction>)
    ensures Extended(log, WithAll(log, txs), txs)
  {
    if txs != [] {
      WithAllExtends(log, Front(txs));
      assert txs == Front(txs) + [Last(txs)];
    }
  }

  // A pull, however far it got.
  lemma PullExtends(local: Replica, own: seq<Transaction>, remote: seq<Transaction>, newId: nat -> Id, k: nat)
    requires remote != [] && k <= |Rebased(local.account, remote, own, newId).writes|
    ensures var after := Interrupted(local, own, remote, newId, k);
            && Extended(local.log, after.log, remote + Renamed(own, remote, newId))
            && OnlyPointers(local.account, after.account)
  {
    hide Rebased, Renamed, Interrupted, WithAll;
    var kept := remote + Renamed(own, remote, newId);
    PullSize(local, own, remote, newId);
    RebasedMembers(local.account, remote, own, newId);
    if k <= |remote| + |own| {
      PrefixOfPuts(local, own, remote, newId, k);
      WithAllExtends(local.log, kept[..k]);
      assert forall t: Transaction :: t in kept[..k] ==> t in kept;
    } else {
      PrefixWithRemoves(local, own, remote, newId, k);
      WithAllExtends(local.log, kept);
    }
  }

  lemma AddedEntered(s: State, log: Log, after: Log, added: seq<Transaction>)
    requires AllEntered(s, log) && Extended(log, after, added)
    requires forall t: Transaction :: t in added ==> Entered(s, t.Payload())
    ensures AllEntered(s, after)
  {
    hide Entered;
  }

  lemma EnteredStays(s: State, t: State, log: Log)
    requires AllEntered(s, log) && t.clients.Keys == s.clients.Keys
    requires forall c :: c in s.clients ==> s.clients[c].created <= t.clients[c].created
    ensures AllEntered(t, log)
  {
    forall x | x in log
      ensures Entered(t, log[x].Payload())
    {
      var c :| c in s.clients && log[x].Payload() in s.clients[c].created;
      assert s.clients[c].created <= t.clients[c].created;
      assert log[x].Payload() in t.clients[c].created;
    }
  }

  lemma ChainEntered(s: State, log: Log, base: Id, chain: seq<Transaction>, head: Id)
    requires AllEntered(s, log) && Segment(log, base, chain, head)
    ensures forall t: Transaction :: t in chain ==> Entered(s, t.Payload())
  {
    hide Segment, Entered;
    forall t: Transaction | t in chain
      ensures Entered(s, t.Payload())
    {
      var i :| 0 <= i < |chain| && chain[i] == t;
      StoredAt(log, base, chain, head, i);
    }
  }

  // The client's own transactions, renamed or not, and those it receives have all been entered.
  lemma ReceivedEntered(s: State, c: ClientId, p: Position, newId: nat -> Id)
    requires Inv(s) && Faithful(s) && c in s.clients && ClientOk(s, c, p) && p.n < |s.chain|
    ensures forall t: Transaction :: t in s.chain[p.n..] + Renamed(p.own, s.chain[p.n..], newId) ==>
              Entered(s, t.Payload())
  {
    hide Ids, Segment, Entered, Renumbered, Payloads, SentBy;
    var r, remote := s.clients[c].replica, s.chain[p.n..];
    var renamed := Renamed(p.own, remote, newId);
    PlaceHolds(s.chain, r, p);
    ChainEntered(s, s.server.log, [], s.chain, s.server.account.latestTransaction);
    ChainEntered(s, r.log, [], s.chain[..p.n] + p.own, r.account.latestTransaction);
    RenamedPayloads(p.own, remote, newId);
    AlikePayloads(p.own, renamed);
    forall t: Transaction | t in remote + renamed
      ensures Entered(s, t.Payload())
    {
      if t in renamed {
        var i :| 0 <= i < |renamed| && renamed[i] == t;
        assert p.own[i] in s.chain[..p.n] + p.own;
      } else {
        assert t in s.chain;
      }
    }
  }

  // ---------- The members of the account ----------

  ghost predicate MembersAre(s: State, members: seq<Person>) {
    && s.server.account.members == members
    && forall c :: c in s.clients ==> s.clients[c].replica.account.members == members
  }

  // What a step does to the logs and members of client c and of the server.
  ghost predicate StepsFaithfully(s: State, t: State, c: ClientId) {
    && c in s.clients && t.clients.Keys == s.clients.Keys
    && (forall d :: d in s.clients ==> s.clients[d].created <= t.clients[d].created)
    && (forall d :: d in s.clients && d != c ==> t.clients[d] == s.clients[d])
    && AllEntered(t, t.clients[c].replica.log) && AllEntered(t, t.server.log)
    && OnlyPointers(s.clients[c].replica.account, t.clients[c].replica.account)
    && t.server.account == s.server.account.(latestTransaction := t.server.account.latestTransaction)
  }

  lemma FaithfulStep(s: State, t: State, c: ClientId, members: seq<Person>)
    requires Faithful(s) && StepsFaithfully(s, t, c) && MembersAre(s, members)
    ensures Faithful(t) && MembersAre(t, members)
  {
    hide AllEntered;
    forall d | d in t.clients && d != c
      ensures AllEntered(t, t.clients[d].replica.log)
    {
      EnteredStays(s, t, s.clients[d].replica.log);
    }
  }

  lemma PullFaithful(s: State, c: ClientId, newId: nat -> Id, k: nat, t: State)
    requires Inv(s) && Faithful(s) && Enabled(s, Stop(c, newId, k))
    requires t.server == s.server && t.clients.Keys == s.clients.Keys
    requires forall d :: d in s.clients && d != c ==> t.clients[d] == s.clients[d]
    requires t.clients[c].created == s.clients[c].created
    requires t.clients[c].replica ==
             DoReplicaAll(s.clients[c].replica, Fetched(s.clients[c].replica, s.server, newId).value.writes[..k])
    ensures StepsFaithfully(s, t, c)
  {
    hide Ids, Holds, SentBy, PlaceOk, Fetched, FetchEnds, Complete, AllEntered, Entered, DoReplicaAll, Rebased, Renamed;
    hide Extended, FreshSupply, Inv;
    var p := PullPosition(s, c, newId, k);
    FetchSucceeds(s, c, newId, p);
    var r, remote := s.clients[c].replica, s.chain[p.n..];
    PullExtends(r, p.own, remote, newId, k);
    ReceivedEntered(s, c, p, newId);
    AddedEntered(s, r.log, t.clients[c].replica.log, remote + Renamed(p.own, remote, newId));
    EnteredStays(s, t, t.clients[c].replica.log);
    EnteredStays(s, t, s.server.log);
  }

  lemma PullPosition(s: State, c: ClientId, newId: nat -> Id, k: nat) returns (p: Position)
    requires Inv(s) && Enabled(s, Stop(c, newId, k))
    ensures |s.owners| == |s.chain| && ClientOk(s, c, p) && p.known == 0 && p.n < |s.chain|
  {
    hide Ids, Holds, SentBy, PlaceOk, Fetched, FetchEnds, Complete;
    p :| ClientOk(s, c, p);
    BoundsOk(s.chain, s.clients[c].replica, p);
    if p.known > 0 { FetchRefused(s, c, newId, p); }
  }

  lemma SameFaithful(s: State, t: State, c: ClientId)
    requires Faithful(s) && c in s.clients && t.clients.Keys == s.clients.Keys && t.server == s.server
    requires forall d :: d in s.clients && d != c ==> t.clients[d] == s.clients[d]
    requires t.clients[c].created == s.clients[c].created
    requires t.clients[c].replica.log == s.clients[c].replica.log
    requires OnlyPointers(s.clients[c].replica.account, t.clients[c].replica.account)
    ensures StepsFaithfully(s, t, c)
  {
    hide AllEntered;
    EnteredStays(s, t, s.server.log);
    EnteredStays(s, t, s.clients[c].replica.log);
  }

  lemma CreateFaithful(s: State, c: ClientId, tx: Transaction)
    requires Faithful(s) && Enabled(s, Create(c, tx))
    ensures StepsFaithfully(s, AfterCreate(s, c, tx), c)
  {
    hide AllEntered, Entered;
    var t := AfterCreate(s, c, tx);
    EnteredStays(s, t, s.server.log);
    EnteredStays(s, t, s.clients[c].replica.log);
    assert tx.Payload() in t.clients[c].created;
    EnteredNow(t, c, tx.Payload());
    AppendedEntered(t, s.clients[c].replica.log, tx);
  }

  lemma EnteredNow(s: State, c: ClientId, payload: Transaction)
    requires c in s.clients && payload in s.clients[c].created
    ensures Entered(s, payload)
  {}

  lemma AppendedEntered(s: State, log: Log, tx: Transaction)
    requires AllEntered(s, log) && Entered(s, tx.Payload())
    ensures AllEntered(s, log[tx.uuid := tx])
  {
    hide Entered;
  }

  lemma PushFaithful(s: State, c: ClientId, t: State)
    requires Enabled(s, Push(c)) && t == AfterPush(s, c)
    requires Inv(s) && Faithful(s)
    ensures StepsFaithfully(s, t, c)
  {
    hide Ids, Holds, SentBy, PlaceOk, Complete, AllEntered, Entered, DoReplicaAll, Extended, Receive, LocalWalkable;
    hide Unsynchronized, WithAll;
    var r := s.clients[c].replica;
    if t.server == s.server {
      SameFaithful(s, t, c);
    } else {
      var p :| ClientOk(s, c, p);
      PlaceOwn(s.chain, r, p);
      PlaceHolds(s.chain, r, p);
      EnteredOwn(s, c, s.chain[..p.n], p.own);
      ReceiveView(s.server, p.own);
      WithAllExtends(s.server.log, p.own);
      AddedEntered(s, s.server.log, t.server.log, p.own);
      EnteredStays(s, t, t.server.log);
      EnteredStays(s, t, r.log);
    }
  }

  lemma EnteredOwn(s: State, c: ClientId, prefix: seq<Transaction>, own: seq<Transaction>)
    requires Faithful(s) && c in s.clients && Holds(s.clients[c].replica, prefix, own)
    ensures forall t: Transaction :: t in own ==> Entered(s, t.Payload())
  {
    hide Segment, Ids, Entered;
    ChainEntered(s, s.clients[c].replica.log, [], prefix + own, s.clients[c].replica.account.latestTransaction);
    assert forall t: Transaction :: t in own ==> t in prefix + own;
  }

  lemma StepFaithful(s: State, step: Step, t: State)
    requires Inv(s) && Faithful(s) && Enabled(s, step) && t == Next(s, step)
    ensures StepsFaithfully(s, t, step.c)
  {
    hide Inv, Fetched, FetchEnds, DoReplicaAll, Partial, LocalWalkable, FreshSupply, AllEntered, AfterPush, AfterCreate;
    match step
    case Create(c, tx) => CreateFaithful(s, c, tx);
    case Fetch(c, newId) =>
      if Fetched(s.clients[c].replica, s.server, newId).Ok? {
        var writes := Fetched(s.clients[c].replica, s.server, newId).value.writes;
        assert writes[..|writes|] == writes;
        PullFaithful(s, c, newId, |writes|, t);
      } else {
        SameFaithful(s, t, c);
      }
    case Stop(c, newId, k) => PullFaithful(s, c, newId, k, t);
    case Push(c) => PushFaithful(s, c, t);
    case _ => SameFaithful(s, t, step.c);
  }

  // ---------- Zero sums ----------

  // Everything entered is balanced over the members.
  ghost predicate BalancedEntries(s: State, keys: set<Id>) {
    forall c, i :: c in s.clients && 0 <= i < |s.clients[c].created| ==> Balanced(s.clients[c].created[i], keys)
  }

  ghost predicate BalancedStep(step: Step, keys: set<Id>) { step.Create? ==> Balanced(step.tx, keys) }

  lemma BalancedPayload(t: Transaction, keys: set<Id>)
    ensures Balanced(t.Payload(), keys) <==> Balanced(t, keys)
  {
    hide Paid;
    assert t.Payload().payedBy == t.payedBy && t.Payload().payedFor == t.payedFor;
  }

  lemma BalancedEntriesStep(s: State, step: Step, t: State, keys: set<Id>)
    requires Enabled(s, step) && t == Next(s, step) && BalancedEntries(s, keys) && BalancedStep(step, keys)
    ensures BalancedEntries(t, keys)
  {
    hide Balanced, DoReplicaAll, Fetched, FetchEnds, Partial, LocalWalkable, Unsynchronized, Receive;
    if step.Create? { BalancedPayload(step.tx, keys); }
  }

  ghost predicate Settled(s: State, members: seq<Person>, keys: set<Id>) {
    Inv(s) && Faithful(s) && MembersAre(s, members) && BalancedEntries(s, keys)
  }

  lemma {:induction false} RunSettled(s: State, steps: seq<Step>, t: State, members: seq<Person>, keys: set<Id>)
    requires Settled(s, members, keys) && Run(s, steps, t)
    requires forall i :: 0 <= i < |steps| ==> BalancedStep(steps[i], keys)
    ensures Settled(t, members, keys)
    decreases |steps|
  {
    hide Inv, Faithful, MembersAre, BalancedEntries, Next, Enabled, BalancedStep, StepsFaithfully;
    if steps != [] {
      var next := Next(s, steps[0]);
      StepKeepsInv(s, steps[0]);
      StepFaithful(s, steps[0], next);
      FaithfulStep(s, next, steps[0].c, members);
      BalancedEntriesStep(s, steps[0], next, keys);
      assert forall i :: 0 <= i < |steps| - 1 ==> steps[1..][i] == steps[i + 1];
      RunSettled(next, steps[1..], t, members, keys);
    }
  }

  lemma EnteredBalanced(s: State, log: Log, keys: set<Id>)
    requires AllEntered(s, log) && BalancedEntries(s, keys)
    ensures AllBalanced(log, keys)
  {
    hide Balanced;
    forall x | x in log
      ensures Balanced(log[x], keys)
    {
      var c :| c in s.clients && log[x].Payload() in s.clients[c].created;
      BalancedPayload(log[x], keys);
    }
  }

  // The balance, when it can be computed, adds up to zero, and some plan of the search leaves everybody even.
  ghost predicate CanBeSettled(r: Replica) {
    BalanceEnds(r) && BalanceOf(r).Ok? ==>
      && Settlement.Total(BalanceOf(r).value) == 0
      && exists plan :: Settlement.GreedyPlan(BalanceOf(r).value, plan) && Evens(BalanceOf(r).value, plan)
  }

  ghost predicate Evens(b: Balances, plan: seq<Settlement.Transfer>) {
    forall p :: Settlement.At(Settlement.ApplyAll(b, plan), p) == 0
  }

  lemma BalancedSettles(r: Replica)
    requires AllBalanced(r.log, Members(r.account))
    ensures CanBeSettled(r)
  {
    hide BalanceEnds, BalanceOf, Balanced;
    if BalanceEnds(r) && BalanceOf(r).Ok? {
      BalanceAddsUpToZero(r);
      var plan := Settlement.PlanExists(BalanceOf(r).value);
      forall p
        ensures Settlement.At(Settlement.ApplyAll(BalanceOf(r).value, plan), p) == 0
      {
        Settlement.GreedyZeroes(BalanceOf(r).value, plan, p);
      }
      assert Evens(BalanceOf(r).value, plan);
    }
  }

  /** Over every run in which everything entered is balanced over the members, whatever is corrected, lost or
      interrupted, each balance that can be computed, on the server or a client, adds up to zero and can be settled. */
  lemma EveryRunCanBeSettled(s: State, steps: seq<Step>, t: State, members: seq<Person>, keys: set<Id>)
    requires Init(s) && MembersAre(s, members) && keys == Members(s.server.account) && Run(s, steps, t)
    requires forall i :: 0 <= i < |steps| ==> BalancedStep(steps[i], keys)
    ensures CanBeSettled(t.server)
    ensures forall c :: c in t.clients ==> CanBeSettled(t.clients[c].replica)
  {
    hide Inv, Run, BalancedStep, CanBeSettled, AllEntered, AllBalanced, BalancedEntries;
    SettledStart(s, members, keys);
    RunSettled(s, steps, t, members, keys);
    EnteredBalanced(t, t.server.log, keys);
    BalancedSettles(t.server);
    forall c | c in t.clients
      ensures CanBeSettled(t.clients[c].replica)
    {
      EnteredBalanced(t, t.clients[c].replica.log, keys);
      BalancedSettles(t.clients[c].replica);
    }
  }

  lemma SettledStart(s: State, members: seq<Person>, keys: set<Id>)
    requires Init(s) && MembersAre(s, members)
    ensures Settled(s, members, keys)
  {
    hide Inv;
    InitInv(s);
  }

  /** Nothing is stored anywhere that no client has entered: over every run from the start, each transaction in the
      server's and the clients' stores has a payload that some client entered. */
  lemma NothingInvented(s: State, steps: seq<Step>, t: State)
    requires Init(s) && Run(s, steps, t)
    ensures Faithful(t)
  {
    hide Inv, Run, Faithful;
    InitInv(s);
    FaithfulStart(s);
    RunFaithful(s, steps, t);
  }

  lemma FaithfulStart(s: State)
    requires Init(s)
    ensures Faithful(s)
  {}

  lemma {:induction false} RunFaithful(s: State, steps: seq<Step>, t: State)
    requires Inv(s) && Faithful(s) && Run(s, steps, t)
    ensures Faithful(t)
    decreases |steps|
  {
    hide Inv, Next, Enabled;
    if steps != [] {
      var next := Next(s, steps[0]);
      StepKeepsInv(s, steps[0]);
      StepFaithful(s, steps[0], next);
      FaithfulOnly(s, next, steps[0].c);
      RunFaithful(next, steps[1..], t);
    }
  }

  /** Over every run nothing of an account changes but what it points to, on the server only its latest transaction. */
  lemma AccountsStay(s: State, steps: seq<Step>, t: State)
    requires Init(s) && Run(s, steps, t)
    ensures t.server.account == s.server.account.(latestTransaction := t.server.account.latestTransaction)
    ensures forall c :: c in s.clients ==>
              c in t.clients && OnlyPointers(s.clients[c].replica.account, t.clients[c].replica.account)
  {
    hide Inv, Run, Faithful;
    InitInv(s);
    FaithfulStart(s);
    RunAccounts(s, steps, t);
  }

  lemma {:induction false} RunAccounts(s: State, steps: seq<Step>, t: State)
    requires Inv(s) && Faithful(s) && Run(s, steps, t)
    ensures t.server.account == s.server.account.(latestTransaction := t.server.account.latestTransaction)
    ensures forall c :: c in s.clients ==>
              c in t.clients && OnlyPointers(s.clients[c].replica.account, t.clients[c].replica.account)
    decreases |steps|
  {
    hide Inv, Next, Enabled, Faithful, AllEntered;
    if steps != [] {
      var next := Next(s, steps[0]);
      StepKeepsInv(s, steps[0]);
      StepFaithful(s, steps[0], next);
      FaithfulOnly(s, next, steps[0].c);
      RunAccounts(next, steps[1..], t);
    }
  }

  lemma FaithfulOnly(s: State, t: State, c: ClientId)
    requires Faithful(s) && StepsFaithfully(s, t, c)
    ensures Faithful(t)
  {
    hide AllEntered;
    forall d | d in t.clients && d != c
      ensures AllEntered(t, t.clients[d].replica.log)
    {
      EnteredStays(s, t, s.clients[d].replica.log);
    }
  }
}
