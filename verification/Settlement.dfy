/**
 The search for the shortest list of transfers that reimburses every creditor.

 A balance maps each member to what the group owes them.  A person outside the map counts as having balance 0,
 so that plans involving strangers can be compared with the plans the search tries.
 */
module Settlement {
  import opened Model

  type Balance = map<Id, int>

  datatype Transfer = Transfer(debitor: Id, creditor: Id, amount: int)

  function At(b: Balance, p: Id): int { if p in b then b[p] else 0 }

  function Min(x: int, y: int): int { if x < y then x else y }

  // The balance once the debitor has payed the creditor.
  function Apply(b: Balance, t: Transfer): Balance {
    var payed := b[t.creditor := At(b, t.creditor) - t.amount];
    payed[t.debitor := At(payed, t.debitor) + t.amount]
  }

  function ApplyAll(b: Balance, ts: seq<Transfer>): Balance
    decreases |ts|
  {
    if ts == [] then b else ApplyAll(Apply(b, ts[0]), ts[1..])
  }

  ghost predicate NoCreditor(b: Balance) { forall p :: p in b ==> b[p] <= 0 }

  // After these transfers nobody still has to be reimbursed.
  ghost predicate Settles(b: Balance, ts: seq<Transfer>) { NoCreditor(ApplyAll(b, ts)) }

  ghost function Parties(ts: seq<Transfer>): set<Id> {
    if ts == [] then {} else {ts[0].debitor, ts[0].creditor} + Parties(ts[1..])
  }

  // ---------- Sums over sets of persons ----------

  ghost function Sum(b: Balance, s: set<Id>): int {
    if s == {} then 0 else var x :| x in s; At(b, x) + Sum(b, s - {x})
  }

  ghost function Total(b: Balance): int { Sum(b, b.Keys) }

  lemma {:induction false} SumRemove(b: Balance, s: set<Id>, x: Id)
    requires x in s
    ensures Sum(b, s) == At(b, x) + Sum(b, s - {x})
    decreases |s|
  {
    var y :| y in s && Sum(b, s) == At(b, y) + Sum(b, s - {y});
    if x != y {
      SumRemove(b, s - {y}, x);
      SumRemove(b, s - {x}, y);
      assert s - {y} - {x} == s - {x} - {y};
    }
  }

  lemma {:induction false} SumAgree(b: Balance, c: Balance, s: set<Id>)
    requires forall p :: p in s ==> At(b, p) == At(c, p)
    ensures Sum(b, s) == Sum(c, s)
    decreases |s|
  {
    if s != {} {
      var x :| x in s;
      SumRemove(b, s, x);
      SumRemove(c, s, x);
      SumAgree(b, c, s - {x});
    }
  }

  lemma {:induction false} SumUnion(b: Balance, s: set<Id>, t: set<Id>)
    requires s !! t
    ensures Sum(b, s + t) == Sum(b, s) + Sum(b, t)
    decreases |s|
  {
    if s == {} {
      assert s + t == t;
    } else {
      var x :| x in s;
      SumRemove(b, s, x);
      SumRemove(b, s + t, x);
      assert s + t - {x} == (s - {x}) + t;
      SumUnion(b, s - {x}, t);
    }
  }

  // A transfer moves money inside any group that holds both of its parties.
  lemma SumApply(b: Balance, t: Transfer, s: set<Id>)
    requires t.debitor in s <==> t.creditor in s
    ensures Sum(Apply(b, t), s) == Sum(b, s)
  {
    var c := Apply(b, t);
    if t.debitor !in s || t.debitor == t.creditor {
      SumAgree(b, c, s);
    } else {
      var rest := s - {t.debitor} - {t.creditor};
      SumRemove(b, s, t.debitor);
      SumRemove(b, s - {t.debitor}, t.creditor);
      SumRemove(c, s, t.debitor);
      SumRemove(c, s - {t.debitor}, t.creditor);
      SumAgree(b, c, rest);
    }
  }

  lemma {:induction false} SumNonPositive(b: Balance, s: set<Id>)
    requires forall p :: p in s ==> At(b, p) <= 0
    ensures Sum(b, s) <= 0
    ensures Sum(b, s) == 0 ==> forall p :: p in s ==> At(b, p) == 0
    decreases |s|
  {
    if s != {} {
      var x :| x in s;
      SumRemove(b, s, x);
      SumNonPositive(b, s - {x});
    }
  }

  lemma {:induction false} SumNonNegative(b: Balance, s: set<Id>)
    requires forall p :: p in s ==> At(b, p) >= 0
    ensures Sum(b, s) >= 0
    decreases |s|
  {
    if s != {} {
      var x :| x in s;
      SumRemove(b, s, x);
      SumNonNegative(b, s - {x});
    }
  }

  // In a group that owes at least what it is owed, a creditor has a debtor to turn to.
  lemma DebtorExists(b: Balance, s: set<Id>, c: Id)
    requires c in s && At(b, c) > 0 && Sum(b, s) <= 0
    ensures exists d :: d in s && At(b, d) < 0
  {
    if forall d :: d in s ==> At(b, d) >= 0 {
      SumRemove(b, s, c);
      SumNonNegative(b, s - {c});
    }
  }

  // ---------- Groups that can settle among themselves ----------

  // Splits the persons it covers into groups: two persons with the same label are in the same group.
  type Grouping = map<Id, Id>

  ghost function Group(g: Grouping, l: Id): set<Id> { set p | p in g && g[p] == l }

  // Every group owes at least what it is owed.
  ghost predicate SelfSufficient(b: Balance, g: Grouping) {
    forall l :: l in g.Values ==> Sum(b, Group(g, l)) <= 0
  }

  lemma {:induction false} GroupCount(g: Grouping)
    ensures |g.Values| <= |g|
    decreases |g|
  {
    if g.Keys != {} {
      var p :| p in g;
      var rest := g - {p};
      assert g.Values <= rest.Values + {g[p]} by {
        forall l | l in g.Values
          ensures l in rest.Values + {g[p]}
        {
          var q :| q in g && g[q] == l;
          if q != p { assert rest[q] == l; }
        }
      }
      assert |rest| == |g| - 1 by { assert rest.Keys == g.Keys - {p}; }
      GroupCount(rest);
      SubsetSize(g.Values, rest.Values + {g[p]});
    }
  }

  lemma {:induction false} SubsetSize<T>(s: set<T>, t: set<T>)
    requires s <= t
    ensures |s| <= |t|
  {
    assert t == s + (t - s);
  }

  ghost function Longest(s: set<Id>): (n: nat)
    ensures forall l :: l in s ==> |l| <= n
  {
    if s == {} then 0 else
      var l :| l in s;
      var n := Longest(s - {l});
      if |l| < n then n else |l|
  }

  lemma FreshLabel(s: set<Id>) returns (l: Id)
    ensures l !in s
  {
    l := seq(Longest(s) + 1, i => 0);
  }

  lemma Singletons(b: Balance, u: set<Id>) returns (g: Grouping)
    requires forall p :: p in u ==> At(b, p) <= 0
    ensures g.Keys == u && SelfSufficient(b, g) && |g.Values| == |u|
  {
    g := map p | p in u :: p;
    forall p | p in u
      ensures p in g.Values
    {
      assert g[p] == p;
    }
    assert g.Values == u;
    forall l | l in g.Values
      ensures Sum(b, Group(g, l)) <= 0
    {
      SumNonPositive(b, Group(g, l));
    }
  }

  function Merged(g: Grouping, l: Id, m: Id): Grouping {
    map p | p in g :: if g[p] == m then l else g[p]
  }

  lemma Merge(b: Balance, g: Grouping, l: Id, m: Id)
    requires SelfSufficient(b, g) && l in g.Values && m in g.Values && l != m
    ensures SelfSufficient(b, Merged(g, l, m)) && |Merged(g, l, m).Values| == |g.Values| - 1
  {
    var h := Merged(g, l, m);
    assert Group(h, l) == Group(g, l) + Group(g, m);
    SumUnion(b, Group(g, l), Group(g, m));
    forall k | k in g.Values && k != m
      ensures k in h.Values
      ensures k != l ==> Group(h, k) == Group(g, k)
    {
      var p :| p in g && g[p] == k;
      assert h[p] == k;
    }
    assert h.Values == g.Values - {m};
  }

  // The person x, who owes nothing and is owed nothing, leaves their group.
  lemma Split(b: Balance, g: Grouping, x: Id, y: Id) returns (h: Grouping)
    requires SelfSufficient(b, g) && x in g && y in g && x != y && g[x] == g[y] && At(b, x) == 0
    ensures h.Keys == g.Keys && SelfSufficient(b, h) && |h.Values| == |g.Values| + 1
  {
    var l := FreshLabel(g.Values);
    h := g[x := l];
    assert Group(h, l) == {x};
    SumNonPositive(b, {x});
    assert Group(h, g[x]) == Group(g, g[x]) - {x};
    SumRemove(b, Group(g, g[x]), x);
    forall k | k in g.Values
      ensures k in h.Values
      ensures k != g[x] ==> Group(h, k) == Group(g, k)
    {
      var p :| p in g && g[p] == k;
      assert h[if p == x then y else p] == k;
    }
    assert h[x] == l;
    assert h.Values == g.Values + {l};
  }

  // A transfer inside a group changes no group's sum.
  lemma TransferInGroup(b: Balance, g: Grouping, t: Transfer)
    requires t.debitor in g && t.creditor in g && g[t.debitor] == g[t.creditor]
    ensures SelfSufficient(b, g) <==> SelfSufficient(Apply(b, t), g)
  {
    forall l | l in g.Values
      ensures Sum(Apply(b, t), Group(g, l)) == Sum(b, Group(g, l))
    {
      SumApply(b, t, Group(g, l));
    }
  }

  // Lower bound: undoing n transfers joins groups at most n times.
  lemma {:induction false} PlanGivesGroups(b: Balance, ts: seq<Transfer>, u: set<Id>) returns (g: Grouping)
    requires Settles(b, ts) && b.Keys <= u && Parties(ts) <= u
    ensures g.Keys == u && SelfSufficient(b, g) && |g.Values| >= |u| - |ts|
    decreases |ts|
  {
    if ts == [] {
      g := Singletons(b, u);
    } else {
      var t, c := ts[0], Apply(b, ts[0]);
      g := PlanGivesGroups(c, ts[1..], u);
      assert t.debitor in u && t.creditor in u;
      if g[t.debitor] != g[t.creditor] {
        Merge(c, g, g[t.debitor], g[t.creditor]);
        g := Merged(g, g[t.debitor], g[t.creditor]);
      }
      TransferInGroup(b, g, t);
    }
  }

  // ---------- The plans the search tries ----------

  function Greedy(b: Balance, debitor: Id, creditor: Id): Transfer {
    Transfer(debitor, creditor, Min(At(b, creditor), -At(b, debitor)))
  }

  // A transfer between some creditor and some debtor, as large as both allow.
  ghost predicate IsGreedy(b: Balance, t: Transfer) {
    && t.creditor in b && b[t.creditor] > 0
    && t.debitor in b && b[t.debitor] < 0
    && t == Greedy(b, t.debitor, t.creditor)
  }

  ghost predicate GreedyPlan(b: Balance, ts: seq<Transfer>)
    decreases |ts|
  {
    if ts == [] then NoCreditor(b) else IsGreedy(b, ts[0]) && GreedyPlan(Apply(b, ts[0]), ts[1..])
  }

  lemma {:induction false} GreedySettles(b: Balance, ts: seq<Transfer>)
    requires GreedyPlan(b, ts)
    ensures Settles(b, ts)
    ensures ApplyAll(b, ts).Keys == b.Keys && Total(ApplyAll(b, ts)) == Total(b)
    decreases |ts|
  {
    if ts != [] {
      var c := Apply(b, ts[0]);
      assert c.Keys == b.Keys;
      SumApply(b, ts[0], b.Keys);
      GreedySettles(c, ts[1..]);
    }
  }

  // Any creditor can pick a debtor of their group; the party the transfer brings to zero then leaves the group.
  lemma GreedySplit(b: Balance, g: Grouping, c: Id) returns (d: Id, h: Grouping)
    requires SelfSufficient(b, g) && b.Keys <= g.Keys && c in b && b[c] > 0
    ensures d in b && b[d] < 0
    ensures Apply(b, Greedy(b, d, c)).Keys == b.Keys && h.Keys == g.Keys
    ensures SelfSufficient(Apply(b, Greedy(b, d, c)), h) && |h.Values| == |g.Values| + 1
  {
    DebtorExists(b, Group(g, g[c]), c);
    d :| d in Group(g, g[c]) && At(b, d) < 0;
    var next := Apply(b, Greedy(b, d, c));
    TransferInGroup(b, g, Greedy(b, d, c));
    if At(next, c) == 0 {
      h := Split(next, g, c, d);
    } else {
      h := Split(next, g, d, c);
    }
  }

  // Upper bound: k self-sufficient groups among n persons are settled by n - k greedy transfers.
  lemma {:induction false} GroupsGivePlan(b: Balance, g: Grouping) returns (ts: seq<Transfer>)
    requires SelfSufficient(b, g) && b.Keys <= g.Keys
    ensures GreedyPlan(b, ts) && |ts| <= |g| - |g.Values|
    decreases |g| - |g.Values|
  {
    GroupCount(g);
    if NoCreditor(b) {
      ts := [];
    } else {
      var c :| c in b && b[c] > 0;
      var d, h := GreedySplit(b, g, c);
      assert |h| == |g| by { assert |h.Keys| == |g.Keys|; }
      GroupCount(h);
      var rest := GroupsGivePlan(Apply(b, Greedy(b, d, c)), h);
      ts := [Greedy(b, d, c)] + rest;
      assert ts[1..] == rest;
    }
  }

  // ---------- The length of a shortest plan ----------

  ghost predicate IsShortest(b: Balance, n: nat) {
    && (exists ts :: |ts| == n && Settles(b, ts))
    && (forall ts :: Settles(b, ts) ==> n <= |ts|)
  }

  lemma PlanExists(b: Balance) returns (ts: seq<Transfer>)
    requires Total(b) <= 0
    ensures GreedyPlan(b, ts) && Settles(b, ts)
    ensures b.Keys != {} ==> |ts| <= |b.Keys| - 1
  {
    var g: Grouping := map p | p in b :: [];
    if p :| p in b {
      assert g[p] == [];
      assert g.Values == {[]} && Group(g, []) == b.Keys;
    }
    assert |g| == |b.Keys| by { assert g.Keys == b.Keys; }
    ts := GroupsGivePlan(b, g);
    GreedySettles(b, ts);
  }

  lemma {:induction false} PlanKeepsSum(b: Balance, ts: seq<Transfer>, u: set<Id>)
    requires Parties(ts) <= u
    ensures Sum(ApplyAll(b, ts), u) == Sum(b, u)
    decreases |ts|
  {
    if ts != [] {
      assert ts[0].debitor in u && ts[0].creditor in u;
      SumApply(b, ts[0], u);
      PlanKeepsSum(Apply(b, ts[0]), ts[1..], u);
    }
  }

  // Some list of transfers, between whomever and of whatever amounts, settles the balance exactly when the members
  // owe at least what they are owed.
  lemma SettleableIff(b: Balance)
    ensures (exists ts :: Settles(b, ts)) <==> Total(b) <= 0
  {
    if ts :| Settles(b, ts) {
      var strangers := Parties(ts) - b.Keys;
      PlanKeepsSum(b, ts, b.Keys + strangers);
      SumNonPositive(ApplyAll(b, ts), b.Keys + strangers);
      SumUnion(b, b.Keys, strangers);
      SumNonNegative(b, strangers);
    }
    if Total(b) <= 0 {
      var ts := PlanExists(b);
    }
  }

  lemma {:induction false} ShortestExists(b: Balance, ts: seq<Transfer>)
    requires Settles(b, ts)
    ensures exists n: nat :: IsShortest(b, n)
    decreases |ts|
  {
    if shorter :| Settles(b, shorter) && |shorter| < |ts| {
      ShortestExists(b, shorter);
    } else {
      assert IsShortest(b, |ts|);
    }
  }

  ghost function Shortest(b: Balance): (n: nat)
    requires Total(b) <= 0
    ensures IsShortest(b, n)
  {
    assert exists n: nat :: IsShortest(b, n) by { var ts := PlanExists(b); ShortestExists(b, ts); }
    var n: nat :| IsShortest(b, n);
    n
  }

  // Paying any debtor first costs at most one transfer more than what is left to settle.
  lemma ShortestStep(b: Balance, t: Transfer)
    requires Total(b) <= 0 && IsGreedy(b, t)
    ensures Total(Apply(b, t)) == Total(b)
    ensures Shortest(b) <= 1 + Shortest(Apply(b, t))
  {
    var c := Apply(b, t);
    assert c.Keys == b.Keys;
    SumApply(b, t, b.Keys);
    var ts :| |ts| == Shortest(c) && Settles(c, ts);
    assert Settles(c, ts);
    assert ([t] + ts)[1..] == ts;
    assert Settles(b, [t] + ts);
  }

  // Whichever creditor is served first, the right debtor makes a greedy transfer as good as any first move.
  lemma SomeDebtorIsBest(b: Balance, c: Id) returns (d: Id)
    requires Total(b) <= 0 && c in b && b[c] > 0
    ensures d in b && b[d] < 0
    ensures var next := Apply(b, Greedy(b, d, c)); Total(next) <= 0 && 1 + Shortest(next) == Shortest(b)
  {
    var ts :| |ts| == Shortest(b) && Settles(b, ts);
    var u := b.Keys + Parties(ts);
    var g := PlanGivesGroups(b, ts, u);
    assert |g| == |u| by { assert |g.Keys| == |u|; }
    var h;
    d, h := GreedySplit(b, g, c);
    assert |h| == |u| by { assert |h.Keys| == |u|; }
    ShortestStep(b, Greedy(b, d, c));
    var rest := GroupsGivePlan(Apply(b, Greedy(b, d, c)), h);
    GreedySettles(Apply(b, Greedy(b, d, c)), rest);
  }

  lemma ShortestIsZero(b: Balance)
    requires NoCreditor(b)
    ensures Total(b) <= 0 && Shortest(b) == 0
  {
    SumNonPositive(b, b.Keys);
    assert Settles(b, []);
  }

  // ---------- What every plan of the search guarantees ----------

  ghost predicate Between(x: int, y: int) { 0 <= x <= y || y <= x <= 0 }

  // After any number of its transfers nobody's balance has changed sign or grown.
  lemma {:induction false} GreedyNeverOverpays(b: Balance, ts: seq<Transfer>, k: nat, p: Id)
    requires GreedyPlan(b, ts) && k <= |ts|
    ensures Between(At(ApplyAll(b, ts[..k]), p), At(b, p))
    decreases k
  {
    if k > 0 {
      assert ts[..k][1..] == ts[1..][..k - 1];
      GreedyNeverOverpays(Apply(b, ts[0]), ts[1..], k - 1, p);
    }
  }

  lemma {:induction false} GreedyAmountsArePositive(b: Balance, ts: seq<Transfer>, k: nat)
    requires GreedyPlan(b, ts) && k < |ts|
    ensures ts[k].amount > 0 && At(b, ts[k].debitor) < 0 < At(b, ts[k].creditor)
    decreases k
  {
    if k > 0 {
      GreedyAmountsArePositive(Apply(b, ts[0]), ts[1..], k - 1);
      GreedyNeverOverpays(b, ts, 1, ts[k].debitor);
      GreedyNeverOverpays(b, ts, 1, ts[k].creditor);
      assert ts[..1][1..] == [];
    }
  }

  // When nobody is owed more than the others owe, everyone ends up even.
  lemma GreedyZeroes(b: Balance, ts: seq<Transfer>, p: Id)
    requires GreedyPlan(b, ts) && Total(b) == 0
    ensures At(ApplyAll(b, ts), p) == 0
  {
    GreedySettles(b, ts);
    var end := ApplyAll(b, ts);
    SumNonPositive(end, end.Keys);
  }

  // Members whose balance is not zero.
  ghost function Active(b: Balance): set<Id> { set p | p in b && b[p] != 0 }

  lemma ActiveSum(b: Balance)
    requires Total(b) == 0
    ensures Sum(b, Active(b)) <= 0
  {
    var idle := b.Keys - Active(b);
    assert b.Keys == Active(b) + idle;
    SumUnion(b, Active(b), idle);
    SumNonNegative(b, idle);
  }

  // Everyone in a set forms one group with the label x, every other person is alone.
  function OneGroup(u: set<Id>, s: set<Id>, x: Id): Grouping {
    map p | p in u :: if p in s then x else p
  }

  lemma OneGroupCount(u: set<Id>, s: set<Id>, x: Id)
    requires s <= u && x in s
    ensures OneGroup(u, s, x).Values == {x} + (u - s)
    ensures |OneGroup(u, s, x)| - |OneGroup(u, s, x).Values| == |s| - 1
  {
    var g := OneGroup(u, s, x);
    assert g[x] == x;
    forall p | p in u - s
      ensures p in g.Values
    {
      assert g[p] == p;
    }
    assert g.Keys == s + (u - s);
  }

  // All active members in one group, every other person alone.
  lemma ActiveGroup(b: Balance) returns (g: Grouping)
    requires Total(b) == 0 && Active(b) != {}
    ensures g.Keys == b.Keys && SelfSufficient(b, g) && |g| - |g.Values| == |Active(b)| - 1
  {
    var x :| x in Active(b);
    g := OneGroup(b.Keys, Active(b), x);
    OneGroupCount(b.Keys, Active(b), x);
    forall l | l in g.Values
      ensures Sum(b, Group(g, l)) <= 0
    {
      if l == x {
        assert Group(g, l) == Active(b);
        ActiveSum(b);
      } else {
        SumNonPositive(b, Group(g, l));
      }
    }
  }

  // A balance that adds up to zero and is not settled yet needs fewer transfers than it has active members.
  lemma ShortestBound(b: Balance)
    requires Total(b) == 0 && Active(b) != {}
    ensures Shortest(b) <= |Active(b)| - 1
  {
    var g := ActiveGroup(b);
    var ts := GroupsGivePlan(b, g);
    GreedySettles(b, ts);
  }

  // A greedy transfer settles at least one more member and involves nobody new.
  lemma GreedyProgress(b: Balance, t: Transfer)
    requires IsGreedy(b, t)
    ensures Apply(b, t).Keys == b.Keys && Total(Apply(b, t)) == Total(b)
    ensures |Active(Apply(b, t))| < |Active(b)|
  {
    var c := Apply(b, t);
    var settled := if c[t.debitor] == 0 then t.debitor else t.creditor;
    assert c[settled] == 0;
    assert Active(c) <= Active(b) - {settled};
    SubsetSize(Active(c), Active(b) - {settled});
    SumApply(b, t, b.Keys);
  }

  // ---------- The search ----------

  // The best plan known is unchanged, or is now a shorter one that completes the transfers already made.
  ghost predicate Improves(b: Balance, made: seq<Transfer>, before: Option<seq<Transfer>>,
                           after: Option<seq<Transfer>>)
  {
    || after == before
    || (&& after.Some? && made <= after.value && GreedyPlan(b, after.value[|made|..])
        && (before.Some? ==> |after.value| < |before.value|))
  }

  lemma ImprovesNot(b: Balance, made: seq<Transfer>, solution: Option<seq<Transfer>>)
    ensures Improves(b, made, solution, solution)
  {}

  lemma ImprovesDone(b: Balance, made: seq<Transfer>, before: Option<seq<Transfer>>)
    requires NoCreditor(b) && (before.Some? ==> |made| < |before.value|)
    ensures Improves(b, made, before, Some(made))
  {}

  // The two updates of the search are the transfer between a creditor and a debtor.
  lemma GreedyUpdate(b: Balance, c: Id, d: Id)
    requires c in b && b[c] > 0 && d in b && b[d] < 0
    ensures var t := Transfer(d, c, Min(b[c], -b[d]));
            && t == Greedy(b, d, c) && IsGreedy(b, t)
            && var payed := b[c := b[c] - t.amount]; Apply(b, t) == payed[d := payed[d] + t.amount]
  {}

  lemma ImprovesStep(b: Balance, t: Transfer, made: seq<Transfer>, first: Option<seq<Transfer>>,
                     before: Option<seq<Transfer>>, after: Option<seq<Transfer>>)
    requires IsGreedy(b, t) && Improves(b, made, first, before)
    requires Improves(Apply(b, t), made + [t], before, after)
    ensures Improves(b, made, first, after)
  {
    if after != before {
      var rest := after.value[|made|..];
      assert rest[0] == t && rest[1..] == after.value[|made + [t]|..];
    }
  }

  // An improvement is a real plan, so it cannot beat the shortest one.
  lemma ImprovesBound(b: Balance, made: seq<Transfer>, before: Option<seq<Transfer>>, after: Option<seq<Transfer>>)
    requires Improves(b, made, before, after) && after != before
    ensures after.Some? && Total(b) <= 0 && |after.value| >= |made| + Shortest(b)
    ensures before.Some? ==> |after.value| < |before.value|
  {
    var rest := after.value[|made|..];
    GreedySettles(b, rest);
    SumNonPositive(ApplyAll(b, rest), b.Keys);
  }

  class TransferSearch {
    var solution: Option<seq<Transfer>>
    var transfers: seq<Transfer>

    constructor ()
      ensures solution == None && transfers == []
    {
      solution, transfers := None, [];
    }

    /** Whatever creditor is picked and in whatever order the debtors are tried, the best length becomes the minimum
        of the old one and of the transfers made so far plus a shortest way to settle the balance. */
    method Helper(balance: Balance)
      modifies this
      ensures transfers == old(transfers)
      ensures Improves(balance, transfers, old(solution), solution)
      ensures Total(balance) > 0 ==> solution == old(solution)
      ensures Total(balance) <= 0 ==>
                solution.Some? && |solution.value| ==
                  if old(solution).Some? then Min(|old(solution).value|, |transfers| + Shortest(balance))
                  else |transfers| + Shortest(balance)
      decreases |Active(balance)|
    {
      hide Sum, ApplyAll, GreedyPlan, IsShortest, Shortest, Active, Total, Apply, At, Greedy, IsGreedy, Improves;
      ImprovesNot(balance, transfers, solution);
      ghost var made, first := transfers, solution;
      if forall p :: p in balance ==> balance[p] <= 0 {
        ShortestIsZero(balance);
        if solution == None || |transfers| < |solution.value| {
          solution := Some(transfers);
          ImprovesDone(balance, made, first);
        }
        return;
      }
      var creditor :| creditor in balance && balance[creditor] > 0;

      // A plan that cannot get shorter than the best one is not pursued.
      if solution.Some? && |transfers| >= |solution.value| {
        return;
      }

      ghost var best := creditor;
      if Total(balance) <= 0 {
        best := SomeDebtorIsBest(balance, creditor);
      }
      var debtors := set p | p in balance && balance[p] < 0;
      while debtors != {}
        invariant debtors <= set p | p in balance && balance[p] < 0
        invariant transfers == made
        invariant Improves(balance, made, first, solution)
        invariant Total(balance) <= 0 ==>
                    best in debtors || (solution.Some? && |solution.value| <= |made| + Shortest(balance))
        decreases debtors
      {
        var debitor :| debitor in debtors;
        debtors := debtors - {debitor};
        var transfer := Transfer(debitor, creditor, Min(balance[creditor], -balance[debitor]));
        var newBalance := balance[creditor := balance[creditor] - transfer.amount];
        newBalance := newBalance[debitor := newBalance[debitor] + transfer.amount];
        GreedyUpdate(balance, creditor, debitor);
        GreedyProgress(balance, transfer);
        ghost var before := solution;
        transfers := transfers + [transfer];
        Helper(newBalance);
        ImprovesStep(balance, transfer, made, first, before, solution);
        transfers := transfers[..|transfers| - 1];
      }
      if solution != first {
        ImprovesBound(balance, made, first, solution);
      }
    }
  }

  /** The settlement plan.  The original panics when there is none, which None stands for. */
  method GetTransfers(balance: Balance) returns (plan: Option<seq<Transfer>>)
    ensures plan.Some? <==> Total(balance) <= 0
    ensures plan.Some? ==> GreedyPlan(balance, plan.value) && Settles(balance, plan.value)
    ensures plan.Some? ==> forall ts :: Settles(balance, ts) ==> |plan.value| <= |ts|
  {
    var search := new TransferSearch();
    search.Helper(balance);
    plan := search.solution;
    assert plan.Some? ==> plan.value[0..] == plan.value;
    if plan.Some? { GreedySettles(balance, plan.value); }
  }
}
