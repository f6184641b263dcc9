/**
 Whole runs of the protocol: what they keep, what interrupts a client for good, and what becomes of everything entered.
 */
module Runs {
  import opened Model
  import opened Store
  import opened Chain
  import opened Sync
  import opened Convergence
  import opened Crash
  import opened Protocol

  ghost predicate Run(s: State, steps: seq<Step>, t: State)
    decreases |steps|
  {
    if steps == [] then t == s else Enabled(s, steps[0]) && Run(Next(s, steps[0]), steps[1..], t)
  }

  lemma {:induction false} RunKeepsInv(s: State, steps: seq<Step>, t: State)
    requires Inv(s) && Run(s, steps, t)
    ensures Inv(t)
    decreases |steps|
  {
    hide Inv, Next, Enabled;
    if steps != [] {
      StepKeepsInv(s, steps[0]);
      RunKeepsInv(Next(s, steps[0]), steps[1..], t);
    }
  }

  // Every step keeps the server's chain as a prefix and the history of every client.
  lemma StepExtends(s: State, step: Step)
    requires Enabled(s, step)
    ensures var t := Next(s, step);
            && s.chain <= t.chain && t.clients.Keys == s.clients.Keys
            && forall c :: c in s.clients ==> s.clients[c].created <= t.clients[c].created
  {
    hide Fetched, Unsynchronized, Receive, DoReplicaAll, FetchEnds, LocalWalkable, Partial;
  }

  lemma {:induction false} RunExtends(s: State, steps: seq<Step>, t: State)
    requires Run(s, steps, t)
    ensures s.chain <= t.chain && t.clients.Keys == s.clients.Keys
    ensures forall c :: c in s.clients ==> s.clients[c].created <= t.clients[c].created
    decreases |steps|
  {
    hide Next, Enabled;
    if steps != [] {
      StepExtends(s, steps[0]);
      RunExtends(Next(s, steps[0]), steps[1..], t);
    }
  }

  /** In every run the chain found on the server later extends the chain found there earlier. */
  lemma ServerOnlyGrows(s: State, steps: seq<Step>, t: State, earlier: seq<Transaction>, later: seq<Transaction>)
    requires Inv(s) && Run(s, steps, t)
    requires Complete(s.server.log, s.server.account.latestTransaction, earlier)
    requires Complete(t.server.log, t.server.account.latestTransaction, later)
    ensures earlier <= later
  {
    hide Segment, Next, Enabled, Run;
    RunKeepsInv(s, steps, t);
    RunExtends(s, steps, t);
    CompleteUnique(s.server.log, s.server.account.latestTransaction, earlier, s.chain);
    CompleteUnique(t.server.log, t.server.account.latestTransaction, later, t.chain);
  }

  /** In every reachable state each client's chain, up to its last synchronized transaction, is a prefix of the
      server's chain. */
  lemma SynchronizedIsPrefix(s: State, c: ClientId, chain: seq<Transaction>)
    returns (n: nat, own: seq<Transaction>)
    requires Inv(s) && c in s.clients && Complete(s.server.log, s.server.account.latestTransaction, chain)
    ensures n <= |chain| && Holds(s.clients[c].replica, chain[..n], own)
  {
    hide Holds, Ids, SentBy, Segment;
    CompleteUnique(s.server.log, s.server.account.latestTransaction, chain, s.chain);
    var p :| ClientOk(s, c, p);
    n, own := p.n, p.own;
  }

  // ---------- Blocked clients ----------

  // The server already holds, right after the client's last synchronized transaction, one the client has stored.
  ghost predicate BlockedAt(s: State, c: ClientId, n: nat)
    requires c in s.clients
  {
    && n < |s.chain|
    && s.clients[c].replica.account.latestSynchronizedTransaction == Head([], s.chain[..n])
    && s.chain[n].uuid in s.clients[c].replica.log
  }

  ghost predicate Blocked(s: State, c: ClientId)
    requires c in s.clients
  {
    exists n: nat :: BlockedAt(s, c, n)
  }

  lemma HeadIndex(chain: seq<Transaction>, n: nat, m: nat)
    requires Fresh({}, chain) && n <= m <= |chain| && Head([], chain[..n]) == Head([], chain[..m])
    ensures n == m
  {
    hide Ids, Fresh;
    if n < m {
      FreshAt({}, chain, m - 1);
      FreshIds({}, chain);
      IdIn(chain, m - 1);
      if n > 0 { IdIn(chain[..m - 1], n - 1); }
    }
  }

  lemma BlockedIff(s: State, c: ClientId, p: Position)
    requires ServerOk(s) && c in s.clients && ClientOk(s, c, p)
    ensures Blocked(s, c) <==> p.known > 0
  {
    hide Ids, SentBy, Segment, Fresh, Holds;
    var r := s.clients[c].replica;
    BoundsOk(s.chain, r, p);
    HoldsPointer(r, s.chain[..p.n], p.own);
    CompleteUnique(s.server.log, s.server.account.latestTransaction, s.chain, s.chain);
    if p.known > 0 {
      NextIsKnown(s.chain, r, p);
      assert BlockedAt(s, c, p.n);
    }
    if n: nat :| p.known == 0 && BlockedAt(s, c, n) {
      if n <= p.n { HeadIndex(s.chain, n, p.n); } else { HeadIndex(s.chain, p.n, n); }
      IdIn(s.chain[p.n + p.known..], 0);
    }
  }

  /** Outside a synchronization a client is blocked exactly when it never learned that a push of its own was accepted,
      or stopped after it had stored something of what it pulled, but not the account. */
  lemma BlockedExactly(s: State, c: ClientId)
    requires Inv(s) && c in s.clients
    ensures Blocked(s, c) <==> s.clients[c].phase == Sent || s.clients[c].lost || s.clients[c].stopped
  {
    hide Holds, Ids, SentBy, PlaceOk, Blocked;
    var p :| ClientOk(s, c, p);
    BoundsOk(s.chain, s.clients[c].replica, p);
    BlockedIff(s, c, p);
  }

  // The step interrupts client c at such a point.
  ghost predicate Breaks(s: State, step: Step, c: ClientId)
    requires Enabled(s, step)
  {
    && step.c == c
    && match step
       case Forget(_) => true
       case Stop(_, newId, k) => Partial(Fetched(s.clients[c].replica, s.server, newId).value, k)
       case _ => false
  }

  ghost predicate EverBroke(s: State, steps: seq<Step>, t: State, c: ClientId)
    requires Run(s, steps, t)
    decreases |steps|
  {
    steps != [] && (Breaks(s, steps[0], c) || EverBroke(Next(s, steps[0]), steps[1..], t, c))
  }

  lemma StepMarks(s: State, step: Step, c: ClientId)
    requires Enabled(s, step) && c in s.clients
    ensures var t := Next(s, step);
            && c in t.clients
            && (t.clients[c].lost || t.clients[c].stopped <==>
                  s.clients[c].lost || s.clients[c].stopped || Breaks(s, step, c))
            && (t.clients[c].lost ==> s.clients[c].lost || step == Forget(c))
  {
    hide Fetched, Unsynchronized, Receive, DoReplicaAll, FetchEnds, LocalWalkable, Partial;
  }

  lemma {:induction false} RunMarks(s: State, steps: seq<Step>, t: State, c: ClientId)
    requires Run(s, steps, t) && c in s.clients
    ensures c in t.clients
    ensures t.clients[c].lost || t.clients[c].stopped <==>
              s.clients[c].lost || s.clients[c].stopped || EverBroke(s, steps, t, c)
    ensures t.clients[c].lost ==> s.clients[c].lost || Forget(c) in steps
    decreases |steps|
  {
    hide Next, Enabled, Breaks;
    if steps != [] {
      StepMarks(s, steps[0], c);
      RunMarks(Next(s, steps[0]), steps[1..], t, c);
    }
  }

  /** Over every run from the start, a client that is not about to record an acceptance is blocked exactly when one of
      the two interruptions has happened to it. */
  lemma BlockedByInterruption(s: State, steps: seq<Step>, t: State, c: ClientId)
    requires Init(s) && Run(s, steps, t) && c in s.clients
    ensures c in t.clients
    ensures t.clients[c].phase != Sent ==> (Blocked(t, c) <==> EverBroke(s, steps, t, c))
  {
    hide Inv, Run, Blocked, EverBroke;
    InitInv(s);
    RunKeepsInv(s, steps, t);
    RunMarks(s, steps, t, c);
    BlockedExactly(t, c);
  }

  /** A synchronization that reaches the point of rebasing fails exactly when the client is blocked, and it then stops
      before writing anything. */
  lemma FetchFailsExactlyWhenBlocked(s: State, c: ClientId, newId: nat -> Id)
    requires Inv(s) && Enabled(s, Fetch(c, newId))
    ensures Fetched(s.clients[c].replica, s.server, newId).Err? <==> Blocked(s, c)
    ensures Blocked(s, c) ==>
              && Fetched(s.clients[c].replica, s.server, newId).error.DuplicateTransactionId?
              && AfterFetch(s, c, newId) == Moved(s, c, s.clients[c].replica, Idle)
  {
    hide Holds, Ids, SentBy, PlaceOk, Fetched, FetchEnds;
    var p :| ClientOk(s, c, p);
    BlockedIff(s, c, p);
    if p.known > 0 {
      FetchRefused(s, c, newId, p);
    } else {
      FetchSucceeds(s, c, newId, p);
    }
  }

  /** A client that never learns that its push was accepted is blocked. */
  lemma LostAnswerBlocks(s: State, c: ClientId)
    requires Inv(s) && Enabled(s, Forget(c))
    ensures Blocked(Next(s, Forget(c)), c) && Stuck(Next(s, Forget(c)), c)
  {
    hide Inv, Blocked;
    StepKeepsInv(s, Forget(c));
    BlockedExactly(Next(s, Forget(c)), c);
  }

  // Blocked for good: the client is not waiting to record an answer.
  ghost predicate Stuck(s: State, c: ClientId) {
    c in s.clients && Blocked(s, c) && (s.clients[c].phase == Idle || s.clients[c].phase == Fetching)
  }

  lemma BlockedIsBehind(s: State, c: ClientId)
    requires Inv(s) && c in s.clients && Blocked(s, c)
    ensures s.clients[c].replica.account.latestSynchronizedTransaction != s.server.account.latestTransaction
  {
    hide Holds, Ids, SentBy, PlaceOk, Blocked;
    var p :| ClientOk(s, c, p);
    BlockedIff(s, c, p);
    BoundsOk(s.chain, s.clients[c].replica, p);
    SynchronizedWithServer(s, c, p);
  }

  lemma StuckStep(s: State, step: Step, c: ClientId)
    requires Inv(s) && Stuck(s, c) && Enabled(s, step)
    ensures var t := Next(s, step);
            && Stuck(t, c)
            && s.clients[c].replica.log.Keys <= t.clients[c].replica.log.Keys
            && (step.c == c ==> t.chain == s.chain && t.server == s.server)
            && (!(step.Create? && step.c == c) ==> t.clients[c].replica == s.clients[c].replica)
  {
    hide Inv, Enabled, Next, Blocked;
    StepExtends(s, step);
    if step.c == c { StuckOwnStep(s, step); } else { StuckOtherStep(s, step, c); }
    StuckStays(s, Next(s, step), c);
  }

  // It stays blocked where it is blocked now.
  lemma StuckStays(s: State, t: State, c: ClientId)
    requires c in s.clients && c in t.clients && Blocked(s, c) && s.chain <= t.chain
    requires s.clients[c].replica.log.Keys <= t.clients[c].replica.log.Keys
    requires t.clients[c].replica.account.latestSynchronizedTransaction ==
             s.clients[c].replica.account.latestSynchronizedTransaction
    ensures Blocked(t, c)
  {
    hide Head;
    var n: nat :| BlockedAt(s, c, n);
    assert t.chain[..n] == s.chain[..n];
    assert BlockedAt(t, c, n);
  }

  lemma StuckOtherStep(s: State, step: Step, c: ClientId)
    requires c in s.clients && Enabled(s, step) && step.c != c
    ensures c in Next(s, step).clients && Next(s, step).clients[c] == s.clients[c]
  {
    hide Receive, DoReplicaAll, Unsynchronized, LocalWalkable, Partial, Fetched, FetchEnds;
  }

  lemma StuckOwnStep(s: State, step: Step)
    requires Inv(s) && Stuck(s, step.c) && Enabled(s, step)
    ensures var t, c := Next(s, step), step.c;
            && c in t.clients && t.chain == s.chain && t.server == s.server
            && (t.clients[c].phase == Idle || t.clients[c].phase == Fetching)
            && s.clients[c].replica.log.Keys <= t.clients[c].replica.log.Keys
            && t.clients[c].replica.account.latestSynchronizedTransaction ==
               s.clients[c].replica.account.latestSynchronizedTransaction
            && (!step.Create? ==> t.clients[c].replica == s.clients[c].replica)
  {
    hide Receive, DoReplicaAll, Unsynchronized, LocalWalkable, Inv, Partial, Blocked, Fetched, FetchEnds, FreshSupply;
    match step
    case Fetch(c, newId) => FetchFailsExactlyWhenBlocked(s, c, newId);
    case Stop(c, newId, k) => FetchFailsExactlyWhenBlocked(s, c, newId);
    case Begin(c) => BlockedIsBehind(s, c);
    case _ =>
  }

  /** From then on, whatever the client and the others do, no synchronization of that client reaches the server again
      or changes its store: the server gains no transaction from it, and its own store only gains what it enters. */
  lemma {:induction false} StuckForever(s: State, steps: seq<Step>, t: State, c: ClientId)
    requires Inv(s) && Stuck(s, c) && Run(s, steps, t)
    ensures Inv(t) && Stuck(t, c)
    ensures |s.owners| == |s.chain| && |t.owners| == |t.chain|
    ensures SentBy(t.chain, t.owners, c) == SentBy(s.chain, s.owners, c)
    ensures (forall i :: 0 <= i < |steps| ==> !(steps[i].Create? && steps[i].c == c)) ==>
              t.clients[c].replica == s.clients[c].replica
    decreases |steps|
  {
    hide Holds, Ids, Next, Enabled, SentBy, ClientOk, Blocked, Partial;
    if steps != [] {
      StuckStep(s, steps[0], c);
      StepKeepsInv(s, steps[0]);
      StuckSendsNothing(s, steps[0], c);
      assert !(steps[0].Create? && steps[0].c == c) ==>
          Next(s, steps[0]).clients[c].replica == s.clients[c].replica;
      StuckForever(Next(s, steps[0]), steps[1..], t, c);
      assert forall i :: 0 <= i < |steps| - 1 ==> steps[1..][i] == steps[i + 1];
    }
  }

  lemma StuckSendsNothing(s: State, step: Step, c: ClientId)
    requires Inv(s) && Stuck(s, c) && Enabled(s, step)
    ensures var t := Next(s, step);
            |s.owners| == |s.chain| && |t.owners| == |t.chain|
            && SentBy(t.chain, t.owners, c) == SentBy(s.chain, s.owners, c)
  {
    hide Holds, Ids, SentBy, ClientOk, Fetched, Receive, DoReplicaAll, LocalWalkable, Unsynchronized, Partial;
    if step.Push? {
      var own := Unsynchronized(s.clients[step.c].replica);
      if own.Ok? { SentByOther(s.chain, s.owners, own.value, step.c, c); }
    }
  }

  lemma RunFrom(s: State, step: Step, rest: seq<Step>, t: State) returns (steps: seq<Step>)
    requires Enabled(s, step) && Run(Next(s, step), rest, t)
    ensures steps == [step] + rest && Run(s, steps, t)
  {
    hide Enabled, Next;
    steps := [step] + rest;
    assert steps[1..] == rest;
  }

  lemma {:induction false} RunConcat(s: State, first: seq<Step>, m: State, second: seq<Step>, t: State)
    requires Run(s, first, m) && Run(m, second, t)
    ensures Run(s, first + second, t)
    decreases |first|
  {
    hide Enabled, Next;
    if first == [] {
      assert first + second == second;
    } else {
      assert (first + second)[1..] == first[1..] + second;
      RunConcat(Next(s, first[0]), first[1..], m, second, t);
    }
  }

  lemma BlankAppended(client: Client, tx: Transaction)
    requires Blank(client) && tx.uuid != [] && tx.parent == []
    ensures LocalWalkable(Appended(client.replica, tx)) && Unsynchronized(Appended(client.replica, tx)) == Ok([tx])
  {
    NothingHeld(client.replica);
    assert [] + [tx] == [tx];
    HoldsAppend(client.replica, [], [], tx);
    HoldsOwn(Appended(client.replica, tx), [], [tx]);
  }

  lemma FirstPush(s: State, c: ClientId, tx: Transaction)
    requires c in s.clients && s.clients[c].phase == Pushing && s.server.account.latestTransaction == [] == tx.parent
    requires tx.uuid != [] && LocalWalkable(s.clients[c].replica) && Unsynchronized(s.clients[c].replica) == Ok([tx])
    ensures AfterPush(s, c).clients == s.clients[c := s.clients[c].(phase := Sent)]
    ensures AfterPush(s, c).chain == s.chain + [tx] && AfterPush(s, c).used == s.used
  {
    hide Unsynchronized, LocalWalkable, DoReplicaAll;
    assert Front([tx]) == [];
    assert Consistent([], []) && Consistent([], [tx]);
    assert Receive(s.server, [tx]).Ok?;
  }

  /** This does happen: one client, one transaction and one lost answer are enough. */
  lemma LostAnswerHappens(s: State, c: ClientId, tx: Transaction) returns (steps: seq<Step>, t: State)
    requires Init(s) && c in s.clients && tx.uuid != [] && tx.parent == []
    ensures Run(s, steps, t) && Stuck(t, c)
  {
    hide Holds, Ids, SentBy, Inv, Run, Blocked, AfterPush, LocalWalkable, Unsynchronized;
    InitInv(s);
    BlankAppended(s.clients[c], tx);
    var s1 := Next(s, Create(c, tx));
    StepKeepsInv(s, Create(c, tx));
    var s2 := Next(s1, Begin(c));
    StepKeepsInv(s1, Begin(c));
    FirstPush(s2, c, tx);
    var s3 := Next(s2, Push(c));
    StepKeepsInv(s2, Push(c));
    t := Next(s3, Forget(c));
    LostAnswerBlocks(s3, c);
    RunNothing(t);
    steps := RunFrom(s3, Forget(c), [], t);
    steps := RunFrom(s2, Push(c), steps, t);
    steps := RunFrom(s1, Begin(c), steps, t);
    steps := RunFrom(s, Create(c, tx), steps, t);
  }

  lemma RunNothing(s: State)
    ensures Run(s, [], s)
  {}

  // A client of an account that is still empty everywhere enters a transaction and sends it.
  lemma FirstSends(s: State, d: ClientId, w: Transaction) returns (steps: seq<Step>, t: State)
    requires Init(s) && d in s.clients && w.uuid != [] && w.parent == []
    ensures Run(s, steps, t) && t.chain == [w] && t.used == {w.uuid} && t.clients.Keys == s.clients.Keys
    ensures forall i :: 0 <= i < |steps| ==> steps[i].c == d
    ensures forall c :: c in s.clients && c != d ==> t.clients[c] == s.clients[c]
  {
    hide Holds, Ids, SentBy, Run, AfterPush, LocalWalkable, Unsynchronized, DoReplicaAll, Segment, Inv;
    InitInv(s);
    BlankAppended(s.clients[d], w);
    var s1 := Next(s, Create(d, w));
    StepKeepsInv(s, Create(d, w));
    var s2 := Next(s1, Begin(d));
    FirstPush(s2, d, w);
    var s3 := Next(s2, Push(d));
    t := Next(s3, Record(d));
    RunNothing(t);
    steps := RunFrom(s3, Record(d), [], t);
    steps := RunFrom(s2, Push(d), steps, t);
    steps := RunFrom(s1, Begin(d), steps, t);
    steps := RunFrom(s, Create(d, w), steps, t);
  }

  lemma HeadOfServer(s: State, w: Transaction)
    requires Inv(s) && s.chain == [w]
    ensures s.server.account.latestTransaction == w.uuid
  {
    hide Segment;
    SegmentHead(s.server.log, [], [w], s.server.account.latestTransaction);
  }

  lemma NotBlockedPosition(s: State, c: ClientId) returns (p: Position)
    requires Inv(s) && c in s.clients && s.clients[c].phase != Sent && !s.clients[c].lost && !s.clients[c].stopped
    ensures ServerOk(s) && ClientOk(s, c, p) && p.known == 0
  {
    hide Holds, Ids, SentBy;
    p :| ClientOk(s, c, p);
  }

  lemma PullStopsEarly(s: State, c: ClientId, newId: nat -> Id)
    requires Inv(s) && c in s.clients && s.clients[c].phase == Fetching && !s.clients[c].lost && !s.clients[c].stopped
    requires FreshSupply(newId, s.used)
    ensures Enabled(s, Stop(c, newId, 1)) && Stuck(Next(s, Stop(c, newId, 1)), c)
  {
    hide Holds, Ids, SentBy, Inv, Segment, FetchEnds, PlaceOk, Fetched, DoReplicaAll, Rebased, Blocked, FreshSupply;
    hide Partial;
    FetchAlwaysEnds(s, c);
    var p := NotBlockedPosition(s, c);
    FetchSucceeds(s, c, newId, p);
    var r := s.clients[c].replica;
    PullSize(r, p.own, s.chain[p.n..], newId);
    PartialIff(r.account, s.chain[p.n..], p.own, newId, 1);
    StepKeepsInv(s, Stop(c, newId, 1));
    BlockedExactly(Next(s, Stop(c, newId, 1)), c);
  }

  /** So does the other interruption: a pull that stops after its first write. */
  lemma PartialPullHappens(s: State, c: ClientId, d: ClientId, w: Transaction, newId: nat -> Id)
    returns (steps: seq<Step>, t: State)
    requires Init(s) && c in s.clients && d in s.clients && c != d && w.uuid != [] && w.parent == []
    requires FreshSupply(newId, {w.uuid})
    ensures Run(s, steps, t) && Stuck(t, c) && Forget(c) !in steps
  {
    hide Run, Inv, FreshSupply, Stuck, FetchEnds, Fetched;
    var first, m := FirstSends(s, d, w);
    InitInv(s);
    RunKeepsInv(s, first, m);
    HeadOfServer(m, w);
    var m1 := Next(m, Begin(c));
    StepKeepsInv(m, Begin(c));
    PullStopsEarly(m1, c, newId);
    t := Next(m1, Stop(c, newId, 1));
    RunNothing(t);
    var second := RunFrom(m1, Stop(c, newId, 1), [], t);
    second := RunFrom(m, Begin(c), second, t);
    RunConcat(s, first, m, second, t);
    steps := first + second;
  }

  // ---------- Nothing is lost, repeated or reordered ----------

  lemma PlaceOwn(chain: seq<Transaction>, r: Replica, p: Position)
    requires PlaceOk(chain, r, p)
    ensures LocalWalkable(r) && Unsynchronized(r) == Ok(p.own)
  {
    hide Ids, Holds;
    HoldsOwn(r, chain[..p.n], p.own);
  }

  // Those of the transactions that are not among ids, in order.
  function Missing(own: seq<Transaction>, ids: set<Id>): seq<Transaction> {
    if own == [] then [] else Missing(Front(own), ids) + if Last(own).uuid in ids then [] else [Last(own)]
  }

  lemma {:induction false} MissingIs(older: seq<Transaction>, newer: seq<Transaction>, ids: set<Id>)
    requires Ids(older) <= ids && Ids(newer) !! ids
    ensures Missing(older + newer, ids) == newer
    decreases |older| + |newer|
  {
    if newer != [] {
      ConcatLast(older, newer);
      MissingIs(older, Front(newer), ids);
    } else {
      assert older + newer == older;
      if older != [] {
        assert Front(older) + [] == Front(older);
        MissingIs(Front(older), [], ids);
      }
    }
  }

  // What the client has entered and the server does not have.
  ghost function Unsent(s: State, c: ClientId): seq<Transaction>
    requires c in s.clients
  {
    var r := s.clients[c].replica;
    if LocalWalkable(r) && Unsynchronized(r).Ok? then Missing(Unsynchronized(r).value, Ids(s.chain)) else []
  }

  lemma UnsentIs(s: State, c: ClientId, p: Position)
    requires ServerOk(s) && c in s.clients && ClientOk(s, c, p)
    ensures LocalWalkable(s.clients[c].replica) && Unsynchronized(s.clients[c].replica) == Ok(p.own)
    ensures p.landed <= |p.own| && Unsent(s, c) == p.Pending()
  {
    hide Ids, Holds, SentBy, LocalWalkable, Unsynchronized;
    PlaceOwn(s.chain, s.clients[c].replica, p);
    LandedIds(s.chain, s.clients[c].replica, p);
    assert p.own == p.own[..p.landed] + p.Pending();
    MissingIs(p.own[..p.landed], p.Pending(), Ids(s.chain));
  }

  lemma LandedIds(chain: seq<Transaction>, r: Replica, p: Position)
    requires PlaceOk(chain, r, p)
    ensures Ids(p.own[..p.landed]) <= Ids(chain)
  {
    hide Ids, Holds;
    var n, m := p.n, p.n + p.landed;
    assert chain == chain[..n] + chain[n..m] + chain[m..];
    IdsConcat(chain[..n] + chain[n..m], chain[m..]);
    IdsConcat(chain[..n], chain[n..m]);
  }

  /** In every reachable state, whatever was lost or interrupted: what a client has entered is exactly what the server
      has from it followed by those of its unsynchronized transactions that the server does not have, in the order of
      entry; the server has some of them only while an acceptance waits to be recorded, or after one was never learned
      of. */
  lemma NothingLostOrRepeated(s: State, c: ClientId)
    requires Inv(s) && c in s.clients
    ensures LocalWalkable(s.clients[c].replica) && Unsynchronized(s.clients[c].replica).Ok?
    ensures |s.owners| == |s.chain|
    ensures s.clients[c].created == SentBy(s.chain, s.owners, c) + Payloads(Unsent(s, c))
    ensures Unsent(s, c) == Unsynchronized(s.clients[c].replica).value
            <==> s.clients[c].phase != Sent && !s.clients[c].lost
    ensures s.clients[c].phase == Sent ==> Unsent(s, c) == []
  {
    hide Ids, Holds, SentBy, Unsent, PlaceOk, LocalWalkable, Unsynchronized;
    var p :| ClientOk(s, c, p);
    UnsentIs(s, c, p);
    BoundsOk(s.chain, s.clients[c].replica, p);
    assert |p.Pending()| == |p.own| - p.landed;
  }

  /** Over every run from the start in which a client learns of every acceptance: what it has entered is exactly what
      the server has from it followed by all its unsynchronized transactions; when it is about to record an acceptance,
      all of it is on the server. */
  lemma EverythingArrives(s: State, steps: seq<Step>, t: State, c: ClientId)
    requires Init(s) && Run(s, steps, t) && c in s.clients && Forget(c) !in steps
    ensures c in t.clients && LocalWalkable(t.clients[c].replica) && Unsynchronized(t.clients[c].replica).Ok?
    ensures |t.owners| == |t.chain|
    ensures t.clients[c].created ==
              SentBy(t.chain, t.owners, c)
              + if t.clients[c].phase == Sent then [] else Payloads(Unsynchronized(t.clients[c].replica).value)
  {
    hide Inv, Run, SentBy, Unsent, EverBroke, LocalWalkable, Unsynchronized;
    InitInv(s);
    RunKeepsInv(s, steps, t);
    RunMarks(s, steps, t, c);
    NothingLostOrRepeated(t, c);
  }

  // ---------- All clients together ----------

  // What all clients have together.
  ghost function Gathered(m: map<ClientId, multiset<Transaction>>): multiset<Transaction>
    decreases |m|
  {
    if m.Keys == {} then multiset{} else
      var c :| c in m;
      assert |(m - {c}).Keys| == |m.Keys| - 1;
      m[c] + Gathered(m - {c})
  }

  lemma {:induction false} GatheredRemove(m: map<ClientId, multiset<Transaction>>, c: ClientId)
    requires c in m
    ensures Gathered(m) == m[c] + Gathered(m - {c})
    decreases |m|
  {
    var d :| d in m && Gathered(m) == m[d] + Gathered(m - {d});
    if c != d {
      assert |(m - {d}).Keys| == |m.Keys| - 1 == |(m - {c}).Keys|;
      GatheredRemove(m - {d}, c);
      GatheredRemove(m - {c}, d);
      assert m - {d} - {c} == m - {c} - {d};
    }
  }

  lemma {:induction false} GatheredAdd(m: map<ClientId, multiset<Transaction>>, n: map<ClientId, multiset<Transaction>>,
                                       all: map<ClientId, multiset<Transaction>>)
    requires all.Keys == m.Keys == n.Keys && forall c :: c in all ==> all[c] == m[c] + n[c]
    ensures Gathered(all) == Gathered(m) + Gathered(n)
    decreases |all|
  {
    if c :| c in all {
      GatheredRemove(all, c);
      GatheredRemove(m, c);
      GatheredRemove(n, c);
      assert |(all - {c}).Keys| == |all.Keys| - 1;
      GatheredAdd(m - {c}, n - {c}, all - {c});
    }
  }

  lemma {:induction false} GatheredOne(m: map<ClientId, multiset<Transaction>>, c: ClientId)
    requires c in m && forall d :: d in m && d != c ==> m[d] == multiset{}
    ensures Gathered(m) == m[c]
  {
    GatheredRemove(m, c);
    GatheredNone(m - {c});
  }

  lemma {:induction false} GatheredNone(m: map<ClientId, multiset<Transaction>>)
    requires forall d :: d in m ==> m[d] == multiset{}
    ensures Gathered(m) == multiset{}
    decreases |m|
  {
    if c :| c in m {
      GatheredRemove(m, c);
      assert |(m - {c}).Keys| == |m.Keys| - 1;
      GatheredNone(m - {c});
    }
  }

  ghost function AllSentBy(chain: seq<Transaction>, owners: seq<ClientId>, clients: set<ClientId>)
    : map<ClientId, multiset<Transaction>>
    requires |chain| == |owners|
  {
    map c | c in clients :: multiset(SentBy(chain, owners, c))
  }

  // One item of client o, and nothing of the others.
  function Single(clients: set<ClientId>, o: ClientId, tx: Transaction): map<ClientId, multiset<Transaction>> {
    map c | c in clients :: if c == o then multiset{tx} else multiset{}
  }

  // Everything on the server was sent by one of its clients.
  lemma {:induction false} AllSent(chain: seq<Transaction>, owners: seq<ClientId>, clients: set<ClientId>)
    requires |chain| == |owners| && forall i :: 0 <= i < |owners| ==> owners[i] in clients
    ensures Gathered(AllSentBy(chain, owners, clients)) == multiset(Payloads(chain))
    decreases |chain|
  {
    hide Gathered, SentBy;
    if chain == [] {
      SentByNone(clients);
      GatheredNone(AllSentBy(chain, owners, clients));
    } else {
      var o, tx := Last(owners), Last(chain).Payload();
      AllSent(Front(chain), Front(owners), clients);
      GatheredOne(Single(clients, o, tx), o);
      forall c | c in clients
        ensures AllSentBy(chain, owners, clients)[c] ==
                AllSentBy(Front(chain), Front(owners), clients)[c] + Single(clients, o, tx)[c]
      {
        SentByLast(chain, owners, c);
      }
      GatheredAdd(AllSentBy(Front(chain), Front(owners), clients), Single(clients, o, tx),
                  AllSentBy(chain, owners, clients));
      PayloadsMore(Front(chain), Last(chain));
      assert chain == Front(chain) + [Last(chain)];
    }
  }

  lemma SentByNone(clients: set<ClientId>)
    ensures forall c :: c in clients ==> SentBy([], [], c) == []
  {}

  lemma SentByLast(chain: seq<Transaction>, owners: seq<ClientId>, c: ClientId)
    requires |chain| == |owners| && chain != []
    ensures multiset(SentBy(chain, owners, c)) ==
            multiset(SentBy(Front(chain), Front(owners), c))
            + if c == Last(owners) then multiset{Last(chain).Payload()} else multiset{}
  {}

  ghost function AllCreated(s: State): map<ClientId, multiset<Transaction>> {
    map c | c in s.clients :: multiset(s.clients[c].created)
  }

  ghost function AllUnsent(s: State): map<ClientId, multiset<Transaction>> {
    map c | c in s.clients :: multiset(Payloads(Unsent(s, c)))
  }

  /** In every reachable state everything entered on all clients is, item by item, what is on the server together with
      what is still to be sent. */
  lemma EverythingIsSomewhere(s: State)
    requires Inv(s)
    ensures Gathered(AllCreated(s)) == multiset(Payloads(s.chain)) + Gathered(AllUnsent(s))
  {
    hide Gathered, SentBy, Unsent, LocalWalkable, Unsynchronized, ClientOk;
    var clients := s.clients.Keys;
    AllSent(s.chain, s.owners, clients);
    var sent := AllSentBy(s.chain, s.owners, clients);
    forall c | c in s.clients
      ensures AllCreated(s)[c] == sent[c] + AllUnsent(s)[c]
    {
      NothingLostOrRepeated(s, c);
    }
    GatheredAdd(sent, AllUnsent(s), AllCreated(s));
  }

  // ---------- The method and the steps ----------

  // A step of a synchronization of client c in which no call fails.
  predicate SyncStep(step: Step, c: ClientId) {
    step.c == c && !step.Create? && !step.Stop? && !step.Forget? && !step.Abandon?
  }

  /** What the sync method does to a client and the server is a run of that client's steps with nothing in between. */
  lemma SyncIsARun(s: State, c: ClientId, newId: nat -> Id) returns (steps: seq<Step>, t: State)
    requires Inv(s) && c in s.clients && s.clients[c].phase == Idle && FreshSupply(newId, s.used)
    ensures Run(s, steps, t) && t.clients.Keys == s.clients.Keys && t.clients[c].phase == Idle
    ensures forall i :: 0 <= i < |steps| ==> SyncStep(steps[i], c)
    ensures SyncEnds(s.clients[c].replica, s.server, newId)
    ensures var outcome := SyncOutcome(s.clients[c].replica, s.server, newId);
            outcome.local == t.clients[c].replica && outcome.server == t.server
  {
    hide Holds, SentBy, Ids, PlaceOk, Receive, DoReplicaAll, Segment, Rebase, Children, Inv;
    var local := s.clients[c].replica;
    var s1 := Next(s, Begin(c));
    StepKeepsInv(s, Begin(c));
    assert s1 == Moved(s, c, local, s1.clients[c].phase);
    FetchAlwaysEnds(s, c);
    if s1.clients[c].phase == Pushing {
      NoWritesView(local);
      steps, t := PushIsARun(s1, c);
    } else {
      var s2 := Next(s1, Fetch(c, newId));
      StepKeepsInv(s1, Fetch(c, newId));
      if s2.clients[c].phase == Idle {
        steps, t := [], s2;
      } else {
        steps, t := PushIsARun(s2, c);
      }
      steps := RunFrom(s1, Fetch(c, newId), steps, t);
    }
    steps := RunFrom(s, Begin(c), steps, t);
  }

  /** From any reachable state a synchronization nobody interrupts succeeds exactly when the client is not blocked.
      Client and server then have the same chain: the server's, followed by what the client had entered. */
  lemma SyncSucceedsExactlyWhenUnblocked(s: State, c: ClientId, newId: nat -> Id) returns (all: seq<Transaction>)
    requires Inv(s) && c in s.clients && FreshSupply(newId, s.used)
    ensures var local := s.clients[c].replica;
            && SyncEnds(local, s.server, newId) && LocalWalkable(local) && Unsynchronized(local).Ok?
            && var after := SyncOutcome(local, s.server, newId);
            && (after.result == Ok(()) <==> !Blocked(s, c))
            && (Blocked(s, c) ==> after.local == local && after.server == s.server)
            && (!Blocked(s, c) ==>
                  && s.chain <= all && Payloads(all[|s.chain|..]) == Payloads(Unsynchronized(local).value)
                  && Holds(after.local, all, [])
                  && Complete(after.server.log, after.server.account.latestTransaction, all))
  {
    hide Holds, Ids, SentBy, Complete, Segment, Blocked, SyncEnds, SyncOutcome, FreshSupply;
    var local := s.clients[c].replica;
    var p :| ClientOk(s, c, p);
    BlockedIff(s, c, p);
    PlaceOwn(s.chain, local, p);
    SupplyWeaken(newId, s.used, local.log.Keys + s.server.log.Keys);
    all := s.chain;
    BoundsOk(s.chain, local, p);
    if p.known == 0 {
      var prefix, remote := s.chain[..p.n], s.chain[p.n..];
      assert prefix + remote == s.chain && p.Pending() == p.own;
      SyncConverges(local, s.server, prefix, p.own, remote, newId);
      var own := OnTop(p.own, remote, newId);
      all := s.chain + own;
      assert all[|s.chain|..] == own;
      if remote != [] { RenumberedPayloads(p.own, Last(remote).uuid, newId); }
    } else {
      BlockedSyncFails(s, c, newId, p);
    }
  }

  lemma BlockedSyncFails(s: State, c: ClientId, newId: nat -> Id, p: Position)
    requires ServerOk(s) && c in s.clients && ClientOk(s, c, p) && p.known > 0
    ensures var local := s.clients[c].replica;
            && SyncEnds(local, s.server, newId)
            && SyncOutcome(local, s.server, newId)
               == Outcome(Err(DuplicateTransactionId(s.chain[p.n].uuid)), local, s.server)
  {
    hide Ids, SentBy, Segment, Fresh, Holds;
    var local, prefix, remote := s.clients[c].replica, s.chain[..p.n], s.chain[p.n..];
    assert s.chain == prefix + remote;
    HoldsPointer(local, prefix, p.own);
    NextIsKnown(s.chain, local, p);
    DuplicateRefused(local, s.server, prefix, remote, newId);
  }

  lemma FetchAlwaysEnds(s: State, c: ClientId)
    requires Inv(s) && c in s.clients
    ensures FetchEnds(s.clients[c].replica, s.server)
  {
    hide Ids, Holds, SentBy, Segment;
    var p :| ClientOk(s, c, p);
    PlaceOwn(s.chain, s.clients[c].replica, p);
    HoldsPointer(s.clients[c].replica, s.chain[..p.n], p.own);
    assert s.chain == s.chain[..p.n] + s.chain[p.n..];
    ServerChildren(s.server, s.chain[..p.n], s.chain[p.n..]);
  }

  lemma PushIsARun(s: State, c: ClientId) returns (steps: seq<Step>, t: State)
    requires Inv(s) && c in s.clients && s.clients[c].phase == Pushing
    ensures Run(s, steps, t) && t.clients.Keys == s.clients.Keys && t.clients[c].phase == Idle
    ensures forall i :: 0 <= i < |steps| ==> SyncStep(steps[i], c)
    ensures LocalWalkable(s.clients[c].replica)
    ensures Sync.Push(s.clients[c].replica, s.server).local == t.clients[c].replica
    ensures Sync.Push(s.clients[c].replica, s.server).server == t.server
  {
    hide Holds, SentBy, Ids, PlaceOk, Receive, DoReplicaAll, Segment, Inv;
    FetchAlwaysEnds(s, c);
    t := Next(s, Push(c));
    steps := [];
    if t.clients[c].phase == Sent {
      var sent := t;
      t := Next(sent, Record(c));
      steps := RunFrom(sent, Record(c), [], t);
    }
    steps := RunFrom(s, Push(c), steps, t);
  }

  lemma OthersStay(s: State, step: Step, t: State)
    requires Enabled(s, step) && t == Next(s, step)
    ensures t.clients.Keys == s.clients.Keys
    ensures forall d :: d in s.clients && d != step.c ==> t.clients[d] == s.clients[d]
    ensures !step.Push? ==> t.chain == s.chain
  {
    hide DoReplicaAll, Fetched, FetchEnds, Partial, LocalWalkable, Unsynchronized, Receive;
  }

  lemma {:induction false} RunOthers(s: State, steps: seq<Step>, t: State, c: ClientId)
    requires Run(s, steps, t) && forall i :: 0 <= i < |steps| ==> steps[i].c == c
    ensures t.clients.Keys == s.clients.Keys
    ensures forall d :: d in s.clients && d != c ==> t.clients[d] == s.clients[d]
    decreases |steps|
  {
    hide Next, Enabled;
    if steps != [] {
      OthersStay(s, steps[0], Next(s, steps[0]));
      assert forall i :: 0 <= i < |steps| - 1 ==> steps[1..][i] == steps[i + 1];
      RunOthers(Next(s, steps[0]), steps[1..], t, c);
    }
  }

  // A client that is not blocked synchronizes, and nobody else does anything.
  lemma SyncAlone(s: State, c: ClientId) returns (steps: seq<Step>, t: State)
    requires Inv(s) && c in s.clients && s.clients[c].phase == Idle && !Blocked(s, c)
    ensures Run(s, steps, t) && Inv(t) && forall i :: 0 <= i < |steps| ==> SyncStep(steps[i], c)
    ensures t.clients.Keys == s.clients.Keys && t.clients[c].phase == Idle && !Blocked(t, c)
    ensures forall d :: d in s.clients && d != c ==> t.clients[d] == s.clients[d]
    ensures LocalWalkable(s.clients[c].replica) && Unsynchronized(s.clients[c].replica).Ok?
    ensures s.chain <= t.chain
    ensures Payloads(t.chain[|s.chain|..]) == Payloads(Unsynchronized(s.clients[c].replica).value)
    ensures Holds(t.clients[c].replica, t.chain, [])
  {
    hide Inv, Run, SyncOutcome, SyncEnds, LocalWalkable, Unsynchronized, Blocked, Segment, Holds, FreshSupply;
    var newId := SupplyExists(s.used);
    steps, t := SyncIsARun(s, c, newId);
    var all := SyncSucceedsExactlyWhenUnblocked(s, c, newId);
    RunKeepsInv(s, steps, t);
    RunOthers(s, steps, t, c);
    SameChain(t, all);
    AtTheEnd(t, c);
  }

  lemma SameChain(s: State, all: seq<Transaction>)
    requires Inv(s) && Complete(s.server.log, s.server.account.latestTransaction, all)
    ensures all == s.chain
  {
    hide Segment, ClientOk;
    CompleteUnique(s.server.log, s.server.account.latestTransaction, all, s.chain);
  }

  lemma AtTheEnd(s: State, c: ClientId)
    requires Inv(s) && c in s.clients && Holds(s.clients[c].replica, s.chain, [])
    ensures !Blocked(s, c)
  {
    hide Holds, Ids, SentBy, Complete;
    var p :| ClientOk(s, c, p);
    PlaceHolds(s.chain, s.clients[c].replica, p);
    HoldsUnique(s.clients[c].replica, s.chain, [], s.chain[..p.n], p.own);
    BoundsOk(s.chain, s.clients[c].replica, p);
    BlockedIff(s, c, p);
  }
}
