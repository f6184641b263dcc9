/** Adding and settling transactions from the command line. */
module Cli {
  import opened Model
  import opened Store
  import opened Chain
  import opened Balance
  import opened Tracing
  import opened Totals
  import Protocol
  import Settlement

  function Added(amounts: seq<int>): int {
    if amounts == [] then 0 else Added(Front(amounts)) + Last(amounts)
  }

  lemma {:induction false} AddedUpdate(s: seq<U32>, i: nat, v: U32)
    requires i < |s|
    ensures Added(s[i := v]) == Added(s) - s[i] + v
  {
    var t := s[i := v];
    if i == |s| - 1 {
      assert Front(t) == Front(s);
    } else {
      assert Front(t) == Front(s)[i := v];
      AddedUpdate(Front(s), i, v);
    }
  }

  lemma {:induction false} AddedEqual(s: seq<U32>, v: nat)
    requires forall i :: 0 <= i < |s| ==> s[i] == v
    ensures Added(s) == Repeated(v, |s|)
  {
    if s != [] { AddedEqual(Front(s), v); }
  }

  // Multiplication as repeated addition.
  function Repeated(v: nat, n: nat): nat { if n == 0 then 0 else Repeated(v, n - 1) + v }

  lemma {:induction false} RepeatedIs(v: nat, n: nat)
    ensures Repeated(v, n) == v * n
  {
    if n > 0 { RepeatedIs(v, n - 1); }
  }

  lemma QuotientRest(x: nat, n: nat)
    requires n > 0
    ensures x == x / n * n + x % n && 0 <= x % n < n
  {}

  lemma AtMostProduct(x: nat, n: nat)
    requires n > 0
    ensures x <= x * n
  {
    assert 0 <= x * (n - 1);
  }

  ghost predicate Fair(parts: seq<U32>) {
    forall i, j :: 0 <= i < j < |parts| ==> 0 <= Gap(parts[i], parts[j]) <= 1
  }

  function Gap(x: int, y: int): int { x - y }

  lemma SmallRemainder(i: nat, n: nat)
    requires i < n
    ensures i % n == i
  {}

  lemma Divided(amount: nat, n: nat, slice: nat, missing: nat)
    requires n > 0 && slice == amount / n && missing == amount - slice * n
    ensures missing < n && Repeated(slice, n) == amount - missing && (missing > 0 ==> slice < amount)
  {
    QuotientRest(amount, n);
    AtMostProduct(slice, n);
    RepeatedIs(slice, n);
  }

  /** The parts add up to the amount, differ by at most one, and the larger ones come first. */
  method SplitAmount(amount: U32, n: nat) returns (res: seq<U32>)
    requires n > 0
    ensures |res| == n && Added(res) == amount && Fair(res)
  {
    QuotientRest(amount, n);
    AtMostProduct(amount / n, n);
    var slice: U32 := amount / n;
    var missing := amount - slice * n;
    Divided(amount, n, slice, missing);
    res := seq(n, i => slice);
    AddedEqual(res, slice);
    for i := 0 to missing
      invariant |res| == n && Added(res) == amount - missing + i
      invariant forall k :: 0 <= k < n ==> res[k] as int == if k < i then slice + 1 else slice
    {
      SmallRemainder(i, n);
      AddedUpdate(res, i % n, res[i % n] + 1);
      res := res[i % n := res[i % n] + 1];
    }
  }

  function Swapped<T>(s: seq<T>, i: nat, j: nat): seq<T>
    requires i < |s| && j < |s|
  {
    s[i := s[j]][j := s[i]]
  }

  // The random choices: the place of item i is drawn from 0 to i.
  ghost predicate InRange(pick: nat -> nat) { forall i: nat :: pick(i) <= i }

  // The first n items shuffled, from the last of them down.
  ghost function Shuffled<T>(s: seq<T>, n: nat, pick: nat -> nat): (r: seq<T>)
    requires n <= |s| && InRange(pick)
    ensures multiset(r) == multiset(s)
    decreases n
  {
    if n <= 1 then s else Shuffled(Swapped(s, n - 1, pick(n - 1)), n - 1, pick)
  }

  /** Swaps every item, from the last one down, with one that is not after it. */
  method SeqShuffle<T>(items: array<T>, pick: nat -> nat)
    requires InRange(pick)
    modifies items
    ensures items[..] == Shuffled(old(items[..]), items.Length, pick)
  {
    var i := items.Length;
    while i > 1
      invariant 0 <= i <= items.Length
      invariant Shuffled(items[..], i, pick) == Shuffled(old(items[..]), items.Length, pick)
    {
      i := i - 1;
      ghost var before := items[..];
      assert pick(i) <= i;
      items[i], items[pick(i)] := items[pick(i)], items[i];
      assert items[..] == Swapped(before, i, pick(i));
    }
  }

  lemma {:induction false} ShuffledAlike<T>(s: seq<T>, n: nat, pick: nat -> nat, other: nat -> nat)
    requires n <= |s| && InRange(pick) && InRange(other) && forall i: nat :: i < n ==> pick(i) == other(i)
    ensures Shuffled(s, n, pick) == Shuffled(s, n, other)
    decreases n
  {
    if n > 1 { ShuffledAlike(Swapped(s, n - 1, pick(n - 1)), n - 1, pick, other); }
  }

  lemma SameRest<T>(s: seq<T>, t: seq<T>, n: nat)
    requires n <= |s| == |t| && multiset(s) == multiset(t) && s[n..] == t[n..]
    ensures multiset(s[..n]) == multiset(t[..n])
  {
    assert s == s[..n] + s[n..] && t == t[..n] + t[n..];
    assert multiset(s[..n]) == multiset(s) - multiset(s[n..]);
    assert multiset(t[..n]) == multiset(t) - multiset(t[n..]);
  }

  lemma OneLeft<T>(s: seq<T>, t: seq<T>, n: nat)
    requires n <= 1 && n <= |s| == |t| && multiset(s) == multiset(t) && s[n..] == t[n..]
    ensures s == t
  {
    SameRest(s, t, n);
    if n == 1 {
      assert s[..1] == [s[0]] && t[..1] == [t[0]];
      assert s[0] in multiset(t[..1]);
    }
    assert s == s[..n] + s[n..] && t == t[..n] + t[n..];
  }

  // One of the first n items belongs at the end of them.
  lemma LastPick<T>(s: seq<T>, t: seq<T>, n: nat) returns (j: nat)
    requires 1 < n <= |s| == |t| && multiset(s) == multiset(t) && s[n..] == t[n..]
    ensures j < n && Swapped(s, n - 1, j)[n - 1..] == t[n - 1..]
    ensures multiset(Swapped(s, n - 1, j)) == multiset(s)
  {
    SameRest(s, t, n);
    assert t[n - 1] == t[..n][n - 1];
    assert t[n - 1] in multiset(s[..n]);
    j :| 0 <= j < n && s[..n][j] == t[n - 1];
    assert Swapped(s, n - 1, j)[n - 1..] == [t[n - 1]] + s[n..];
    assert t[n - 1..] == [t[n - 1]] + t[n..];
  }

  ghost function Always(j: nat): (pick: nat -> nat)
    ensures forall i: nat :: pick(i) == j
  {
    i => j
  }

  ghost function But(pick: nat -> nat, k: nat, j: nat): (r: nat -> nat)
    ensures forall i: nat :: r(i) == if i == k then j else pick(i)
  {
    i => if i == k then j else pick(i)
  }

  // Every arrangement of the items can be drawn.
  lemma {:induction false} EveryOrderIsPossible<T>(s: seq<T>, t: seq<T>, n: nat) returns (pick: nat -> nat)
    requires n <= |s| == |t| && multiset(s) == multiset(t) && s[n..] == t[n..]
    ensures InRange(pick) && Shuffled(s, n, pick) == t
    decreases n
  {
    hide Swapped, Always, But, Shuffled;
    if n <= 1 {
      pick := Always(0);
      OneLeft(s, t, n);
    } else {
      var j := LastPick(s, t, n);
      var next := Swapped(s, n - 1, j);
      SwappedLength(s, n - 1, j);
      var rest := EveryOrderIsPossible(next, t, n - 1);
      pick := But(rest, n - 1, j);
      ShuffledAlike(next, n - 1, pick, rest);
    }
    ShuffledStep(s, n, pick);
  }

  lemma ShuffledStep<T>(s: seq<T>, n: nat, pick: nat -> nat)
    requires n <= |s| && InRange(pick)
    ensures n <= 1 ==> Shuffled(s, n, pick) == s
    ensures n > 1 ==> pick(n - 1) <= n - 1 && |Swapped(s, n - 1, pick(n - 1))| == |s|
                      && Shuffled(s, n, pick) == Shuffled(Swapped(s, n - 1, pick(n - 1)), n - 1, pick)
  {}

  lemma SwappedLength<T>(s: seq<T>, i: nat, j: nat)
    requires i < |s| && j < |s|
    ensures |Swapped(s, i, j)| == |s|
  {}

  function Without(t: seq<U32>, i: nat): seq<U32>
    requires i < |t|
  {
    t[..i] + t[i + 1..]
  }

  lemma MultisetWithout(t: seq<U32>, i: nat)
    requires i < |t|
    ensures multiset(t) == multiset(Without(t, i)) + multiset{t[i]}
  {
    assert t == t[..i] + [t[i]] + t[i + 1..];
  }

  lemma {:induction false} AddedWithout(t: seq<U32>, i: nat)
    requires i < |t|
    ensures Added(t) == Added(Without(t, i)) + t[i]
    decreases |t|
  {
    if i == |t| - 1 {
      assert Without(t, i) == Front(t);
    } else {
      AddedWithout(Front(t), i);
      assert Front(Without(t, i)) == Without(Front(t), i);
    }
  }

  lemma {:induction false} AddedMultiset(s: seq<U32>, t: seq<U32>)
    requires multiset(s) == multiset(t)
    ensures Added(s) == Added(t)
    decreases |s|
  {
    hide Added, Without;
    assert |multiset(s)| == |s| && |multiset(t)| == |t|;
    if s == [] {
      assert t == [];
    } else {
      assert s[0] in multiset(s);
      var i :| 0 <= i < |t| && t[i] == s[0];
      MultisetWithout(s, 0);
      MultisetWithout(t, i);
      assert multiset(Without(s, 0)) == multiset(s) - multiset{s[0]} == multiset(Without(t, i));
      AddedWithout(s, 0);
      AddedWithout(t, i);
      WithoutLength(s, 0);
      AddedMultiset(Without(s, 0), Without(t, i));
    }
  }

  lemma WithoutLength(t: seq<U32>, i: nat)
    requires i < |t|
    ensures |Without(t, i)| == |t| - 1
  {}

  function FindMember(members: seq<Person>, name: string): Option<Id> {
    if members == [] then None
    else if members[0].name == name then Some(members[0].uuid)
    else FindMember(members[1..], name)
  }

  // The first member with the name; None exactly when nobody has it.
  lemma {:induction false} FoundMember(members: seq<Person>, name: string)
    ensures FindMember(members, name).None? <==> forall m :: m in members ==> m.name != name
    ensures FindMember(members, name).Some? ==>
              exists i :: && 0 <= i < |members| && members[i].name == name
                          && members[i].uuid == FindMember(members, name).value
                          && forall j :: 0 <= j < i ==> members[j].name != name
    decreases |members|
  {
    if members != [] {
      assert members == [members[0]] + members[1..];
      if members[0].name != name {
        FoundMember(members[1..], name);
        if i :| && 0 <= i < |members| - 1 && members[1..][i].name == name
                && members[1..][i].uuid == FindMember(members, name).value
                && forall j :: 0 <= j < i ==> members[1..][j].name != name {
          assert forall j :: 1 <= j < i + 1 ==> members[j] == members[1..][j - 1];
          assert members[i + 1].name == name;
        }
      }
    }
  }

  // Each member with the amount at the same position.
  function PayedFor(amounts: seq<U32>, members: seq<Person>): seq<Share>
    requires |amounts| == |members|
  {
    seq(|members|, i requires 0 <= i < |members| => Share(members[i].uuid, amounts[i]))
  }

  lemma {:induction false} PayedForPaid(amounts: seq<U32>, members: seq<Person>, keys: set<Id>)
    requires |amounts| == |members| && forall m :: m in members ==> m.uuid in keys
    ensures Paid(PayedFor(amounts, members), keys) == Added(amounts)
    decreases |members|
  {
    if members != [] {
      assert Front(PayedFor(amounts, members)) == PayedFor(Front(amounts), Front(members));
      PayedForPaid(Front(amounts), Front(members), keys);
    }
  }

  // Parts that add up to the amount and differ by at most one.
  ghost predicate IsSplit(amounts: seq<U32>, amount: U32, n: nat) {
    && |amounts| == n && Added(amounts) == amount
    && forall i, j :: 0 <= i < n && 0 <= j < n ==> Gap(amounts[i], amounts[j]) <= 1
  }

  // Each member in turn is charged one of the amounts.
  ghost predicate Charges(payedFor: seq<Share>, members: seq<Person>, amounts: seq<U32>) {
    && |payedFor| == |members| == |amounts|
    && forall i :: 0 <= i < |members| ==>
         payedFor[i].person == members[i].uuid && payedFor[i].amount == amounts[i]
  }

  // A plain transaction on top of the stored latest one: one member payed, everybody gets a part.
  ghost predicate IsEntry(r: Replica, tx: Transaction) {
    var members := r.account.members;
    && !tx.IsCorrection() && tx.parent == r.account.latestTransaction
    && (exists m :: m in members && tx.payedBy == [Share(m.uuid, tx.amount)])
    && exists amounts: seq<U32> ::
         Charges(tx.payedFor, members, amounts) && IsSplit(amounts, tx.amount, |members|)
  }

  lemma PayedForCharges(amounts: seq<U32>, members: seq<Person>)
    requires |amounts| == |members|
    ensures Charges(PayedFor(amounts, members), members, amounts)
  {}

  lemma ChargesAre(payedFor: seq<Share>, members: seq<Person>, amounts: seq<U32>)
    requires Charges(payedFor, members, amounts)
    ensures payedFor == PayedFor(amounts, members)
  {}

  lemma EntryBalanced(r: Replica, tx: Transaction)
    requires IsEntry(r, tx)
    ensures Balanced(tx, Members(r.account))
  {
    hide IsSplit, Added, Paid;
    var members := r.account.members;
    var amounts: seq<U32> :| Charges(tx.payedFor, members, amounts) && IsSplit(amounts, tx.amount, |members|);
    SplitAdds(amounts, tx.amount, |members|);
    ChargesAre(tx.payedFor, members, amounts);
    PayedForPaid(amounts, members, Members(r.account));
    var m :| m in members && tx.payedBy == [Share(m.uuid, tx.amount)];
    OnePayer(m.uuid, tx.amount, Members(r.account));
  }

  lemma SplitAdds(amounts: seq<U32>, amount: U32, n: nat)
    requires IsSplit(amounts, amount, n)
    ensures |amounts| == n && Added(amounts) == amount
  {}

  // Each part is the n-th of the amount, rounded down or up.
  lemma SplitParts(amounts: seq<U32>, amount: U32, n: nat, k: nat)
    requires IsSplit(amounts, amount, n) && k < n
    ensures amount / n <= amounts[k] <= amount / n + 1
  {
    hide Added;
    var part: nat := amounts[k];
    forall i | 0 <= i < |amounts|
      ensures part - 1 <= amounts[i] <= part + 1
    {
      assert Gap(amounts[i], amounts[k]) <= 1 && Gap(amounts[k], amounts[i]) <= 1;
    }
    AddedBelow(amounts, part + 1, k);
    RepeatedIs(part + 1, n);
    QuotientAtMost(amount, n, part);
    if part > 0 {
      AddedAbove(amounts, part - 1);
      RepeatedIs(part - 1, n);
      QuotientAtLeast(amount, n, part - 1);
    }
  }

  lemma QuotientAtMost(x: nat, n: nat, q: nat)
    requires n > 0 && x < (q + 1) * n
    ensures x / n <= q
  {
    QuotientRest(x, n);
    if x / n > q { Monotone(q + 1, x / n, n); }
  }

  lemma QuotientAtLeast(x: nat, n: nat, q: nat)
    requires n > 0 && q * n <= x
    ensures q <= x / n
  {
    QuotientRest(x, n);
    if x / n < q {
      Monotone(x / n + 1, q, n);
      Distribute(x / n, n);
    }
  }

  lemma Distribute(q: nat, n: nat)
    ensures (q + 1) * n == q * n + n
  {}

  lemma Monotone(x: nat, y: nat, n: nat)
    requires x <= y
    ensures x * n <= y * n
  {
    assert 0 <= (y - x) * n;
  }

  lemma {:induction false} AddedAbove(s: seq<U32>, low: nat)
    requires forall i :: 0 <= i < |s| ==> low <= s[i]
    ensures Repeated(low, |s|) <= Added(s)
    decreases |s|
  {
    if s != [] { AddedAbove(Front(s), low); }
  }

  lemma {:induction false} AddedBelow(s: seq<U32>, high: nat, k: nat)
    requires k < |s| && forall i :: 0 <= i < |s| ==> s[i] <= high
    ensures Added(s) + (high - s[k]) <= Repeated(high, |s|)
    decreases |s|
  {
    if k < |s| - 1 {
      AddedBelow(Front(s), high, k);
    } else if k > 0 {
      AddedBelow(Front(s), high, 0);
    }
  }

  ghost predicate DistinctMembers(members: seq<Person>) {
    forall i, j :: 0 <= i < j < |members| ==> members[i].uuid != members[j].uuid
  }

  lemma {:induction false} PaidAt(payedFor: seq<Share>, members: seq<Person>, amounts: seq<U32>, k: nat)
    requires Charges(payedFor, members, amounts) && DistinctMembers(members) && k < |members|
    ensures Paid(payedFor, {members[k].uuid}) == amounts[k]
    decreases |members|
  {
    var last := |members| - 1;
    assert Charges(Front(payedFor), Front(members), Front(amounts));
    if k < last {
      assert members[k].uuid != members[last].uuid;
      PaidAt(Front(payedFor), Front(members), Front(amounts), k);
    } else {
      PaidNone(Front(payedFor), members[k].uuid);
    }
  }

  lemma {:induction false} PaidNone(shares: seq<Share>, p: Id)
    requires forall i :: 0 <= i < |shares| ==> shares[i].person != p
    ensures Paid(shares, {p}) == 0
    decreases |shares|
  {
    if shares != [] { PaidNone(Front(shares), p); }
  }

  /** When no two members share an id, an entry changes the balance of each by what they payed, all of it or nothing,
      minus the n-th part of the amount, rounded down or up. */
  lemma EntryCharges(r: Replica, tx: Transaction, k: nat)
    requires IsEntry(r, tx) && k < |r.account.members| && DistinctMembers(r.account.members)
    ensures var n, p := |r.account.members|, r.account.members[k].uuid;
            && (Paid(tx.payedBy, {p}) == 0 || Paid(tx.payedBy, {p}) == tx.amount)
            && tx.amount / n <= Paid(tx.payedBy, {p}) - Contribution(tx, p) <= tx.amount / n + 1
  {
    hide IsSplit, Added, Paid, Contribution, DistinctMembers, Charges;
    var members := r.account.members;
    var p := members[k].uuid;
    var amounts: seq<U32> :| Charges(tx.payedFor, members, amounts) && IsSplit(amounts, tx.amount, |members|);
    var m :| m in members && tx.payedBy == [Share(m.uuid, tx.amount)];
    SplitAdds(amounts, tx.amount, |members|);
    SplitParts(amounts, tx.amount, |members|, k);
    PaidAt(tx.payedFor, members, amounts, k);
    ContributionIs(tx, p);
    if m.uuid == p {
      OnePayer(p, tx.amount, {p});
    } else {
      PaidNone(tx.payedBy, p);
    }
  }

  ghost function EntryWrites(r: Replica, tx: Transaction): seq<Write> {
    [PutTransaction(r.account.uuid, tx), PutAccount(r.account.(latestTransaction := tx.uuid))]
  }

  ghost predicate Named(db: Db, name: string, a: Account) { AccountIn(db, a.uuid) == Some(a) && a.caption == name }

  // The first account with the label, in the order of ids.
  ghost predicate FirstNamed(db: Db, name: string, a: Account) {
    Named(db, name, a) && forall b :: Named(db, name, b) && b != a ==> Precedes(a.uuid, b.uuid)
  }

  method FindAccountByLabel(repo: SledRepository, name: string) returns (r: Option<Account>)
    requires repo.Valid()
    ensures r.None? <==> forall a :: !Named(repo.db, name, a)
    ensures r.Some? ==> FirstNamed(repo.db, name, r.value)
  {
    hide WellKeyed, AccountIn, Precedes;
    var accounts := repo.ListAccounts();
    for i := 0 to |accounts|
      invariant forall k :: 0 <= k < i ==> accounts[k].caption != name
    {
      if accounts[i].caption == name {
        assert accounts[i] in accounts;
        assert Named(repo.db, name, accounts[i]);
        forall b | Named(repo.db, name, b) && b != accounts[i]
          ensures Precedes(accounts[i].uuid, b.uuid)
        {
          var k :| 0 <= k < |accounts| && accounts[k] == b;
        }
        return Some(accounts[i]);
      }
    }
    return None;
  }

  datatype EntryResult = NoAccount | NoMember | Entered(account: Account, tx: Transaction)

  method AddTransaction(repo: SledRepository, accountName: string, caption: string, amount: U32, payedBy: string,
                        newId: Id, now: U64, pick: nat -> nat)
    returns (r: EntryResult)
    requires repo.Valid() && InRange(pick)
    modifies repo
    ensures repo.Valid()
    ensures r.NoAccount? <==> forall a :: !Named(old(repo.db), accountName, a)
    ensures r.NoMember? ==>
              exists a :: FirstNamed(old(repo.db), accountName, a) && FindMember(a.members, payedBy).None?
    ensures !r.Entered? ==> repo.db == old(repo.db)
    ensures r.Entered? ==>
              && FirstNamed(old(repo.db), accountName, r.account) && FindMember(r.account.members, payedBy).Some?
              && var before := View(old(repo.db), r.account.uuid);
              && IsEntry(before, r.tx)
              && r.tx.uuid == newId && r.tx.amount == amount && r.tx.caption == caption && r.tx.timestamp == now
              && r.tx.payedBy == [Share(FindMember(r.account.members, payedBy).value, amount)]
              && |r.tx.payedFor| == |r.account.members|
              && (forall i :: 0 <= i < |r.tx.payedFor| ==> r.tx.payedFor[i].person == r.account.members[i].uuid)
              && repo.db == DoAll(old(repo.db), EntryWrites(before, r.tx))
  {
    hide IsEntry, IsSplit, Shuffled, Balanced, Precedes, LogIn, WellKeyed;
    ghost var db := repo.db;
    var found := FindAccountByLabel(repo, accountName);
    if found == None {
      return NoAccount;
    }
    var account := found.value;
    var member := FindMember(account.members, payedBy);
    if member == None {
      return NoMember;
    }
    FoundMember(account.members, payedBy);
    var parts := SplitAmount(amount, |account.members|);
    var amounts := new U32[|parts|](i requires 0 <= i < |parts| => parts[i]);
    assert amounts[..] == parts;
    SeqShuffle(amounts, pick);
    var payedFor := PayedFor(amounts[..], account.members);
    var payer := [Share(member.value, amount)];
    var entry := Transaction(newId, account.latestTransaction, amount, payer, payedFor, caption, now, false, []);
    EntryIs(View(db, account.uuid), entry, member.value, parts, amounts[..], payedBy);
    repo.AddTransaction(account.uuid, entry);
    AccountView(db, PutTransaction(account.uuid, entry), account.uuid);
    var updated := repo.SetLatestTransaction(account.uuid, entry.uuid);
    TwoWrites(db, PutTransaction(account.uuid, entry), PutAccount(account.(latestTransaction := entry.uuid)));
    return Entered(account, entry);
  }

  lemma EntryIs(r: Replica, tx: Transaction, member: Id, parts: seq<U32>, amounts: seq<U32>, name: string)
    requires FindMember(r.account.members, name) == Some(member) && !tx.IsCorrection()
    requires tx.parent == r.account.latestTransaction && tx.payedBy == [Share(member, tx.amount)]
    requires |parts| == |amounts| == |r.account.members| && tx.payedFor == PayedFor(amounts, r.account.members)
    requires Added(parts) == tx.amount && Fair(parts) && multiset(amounts) == multiset(parts)
    ensures IsEntry(r, tx) && Charges(tx.payedFor, r.account.members, amounts)
  {
    hide Added, Paid;
    FoundMember(r.account.members, name);
    PayedForCharges(amounts, r.account.members);
    AddedMultiset(amounts, parts);
    forall i, j | 0 <= i < |amounts| && 0 <= j < |amounts|
      ensures Gap(amounts[i], amounts[j]) <= 1
    {
      assert amounts[i] in multiset(parts) && amounts[j] in multiset(parts);
      var k :| 0 <= k < |parts| && parts[k] == amounts[i];
      var l :| 0 <= l < |parts| && parts[l] == amounts[j];
      if k < l { assert Gap(parts[k], parts[l]) <= 1; }
      if l < k { assert Gap(parts[l], parts[k]) >= 0; }
    }
    assert IsSplit(amounts, tx.amount, |r.account.members|);
  }

  lemma OnePayer(person: Id, amount: U32, keys: set<Id>)
    requires person in keys
    ensures Paid([Share(person, amount)], keys) == amount
  {
    assert Front([Share(person, amount)]) == [];
  }

  lemma TwoWrites(db: Db, v: Write, w: Write)
    ensures DoAll(db, [v, w]) == Do(Do(db, v), w)
  {
    var ws, after := [v, w], Do(Do(db, v), w);
    assert ws[1..] == [w] && [w][1..] == [];
    assert DoAll(after, []) == after;
    assert DoAll(Do(db, v), [w]) == DoAll(Do(Do(db, v), w), [w][1..]);
  }

  // What the two writes of an entry do to the account.
  lemma EntryView(r: Replica, tx: Transaction)
    ensures DoReplicaAll(r, EntryWrites(r, tx)) == Protocol.Appended(r, tx)
  {
    var ws := EntryWrites(r, tx);
    assert ws[1..] == [ws[1]];
    DoReplicaOne(DoReplica(r, ws[0]), ws[1]);
  }

  // ---------- Whole runs ----------

  // Entries made one after the other, each under a new id.
  ghost predicate EntryRun(r: Replica, txs: seq<Transaction>, end: Replica)
    decreases |txs|
  {
    if txs == [] then end == r
    else
      && IsEntry(r, txs[0]) && txs[0].uuid !in r.log && txs[0].uuid != []
      && EntryRun(Protocol.Appended(r, txs[0]), txs[1..], end)
  }

  // A replica whose chain is complete and only holds balanced plain transactions.
  ghost predicate Plain(r: Replica, chain: seq<Transaction>) {
    && Complete(r.log, r.account.latestTransaction, chain)
    && AllBalanced(r.log, Members(r.account))
    && forall x :: x in r.log ==> !r.log[x].IsCorrection()
  }

  lemma {:induction false} EntriesStayPlain(r: Replica, chain: seq<Transaction>, txs: seq<Transaction>, end: Replica)
    requires Plain(r, chain) && EntryRun(r, txs, end)
    ensures Plain(end, chain + txs)
    decreases |txs|
  {
    hide Plain, IsEntry;
    if txs == [] {
      assert chain + txs == chain;
    } else {
      var next := Protocol.Appended(r, txs[0]);
      EntryStaysPlain(r, chain, txs[0]);
      EntriesStayPlain(next, chain + [txs[0]], txs[1..], end);
      assert chain + [txs[0]] + txs[1..] == chain + txs;
    }
  }

  lemma EntryStaysPlain(r: Replica, chain: seq<Transaction>, tx: Transaction)
    requires Plain(r, chain) && IsEntry(r, tx) && tx.uuid !in r.log && tx.uuid != []
    ensures Plain(Protocol.Appended(r, tx), chain + [tx])
  {
    hide Balanced, Segment, Consistent, Fresh, WithAll, Ids;
    EntryBalanced(r, tx);
    Protocol.OneTransaction(r.log, r.account.latestTransaction, tx);
    Extend(r.log, [], chain, r.account.latestTransaction, [tx]);
  }

  lemma {:induction false} PlainReadable(log: Log, history: seq<Transaction>)
    requires forall i :: 0 <= i < |history| ==> !history[i].IsCorrection()
    ensures Readable(log, history) && Ledger(log, history, []).Ok?
    decreases |history|
  {
    if history != [] {
      assert forall i :: 0 <= i < |history| - 1 ==> history[1..][i] == history[i + 1];
      PlainReadable(log, history[1..]);
    }
  }

  /** After any number of transactions entered from the command line into a new account, the balance can be computed
      and adds up to zero; there is a plan to settle it, and every plan of the search leaves everybody even. */
  lemma RunsCanBeSettled(r: Replica, txs: seq<Transaction>, end: Replica) returns (plan: seq<Settlement.Transfer>)
    requires r.log == map[] && r.account.latestTransaction == [] && EntryRun(r, txs, end)
    ensures BalanceEnds(end) && BalanceOf(end).Ok? && Settlement.Total(BalanceOf(end).value) == 0
    ensures Settlement.GreedyPlan(BalanceOf(end).value, plan)
    ensures forall other, p :: Settlement.GreedyPlan(BalanceOf(end).value, other) ==>
              Settlement.At(Settlement.ApplyAll(BalanceOf(end).value, other), p) == 0
  {
    hide Ledger, Readable, Balanced, PostAll;
    EntriesStayPlain(r, [], txs, end);
    assert [] + txs == txs;
    PlainChain(end, txs);
    BalanceAddsUpToZero(end);
    plan := Settlement.PlanExists(BalanceOf(end).value);
    forall other, p | Settlement.GreedyPlan(BalanceOf(end).value, other)
      ensures Settlement.At(Settlement.ApplyAll(BalanceOf(end).value, other), p) == 0
    {
      Settlement.GreedyZeroes(BalanceOf(end).value, other, p);
    }
  }

  ghost predicate AllPlain(txs: seq<Transaction>) { forall i :: 0 <= i < |txs| ==> !txs[i].IsCorrection() }

  lemma PlainChain(r: Replica, txs: seq<Transaction>)
    requires Complete(r.log, r.account.latestTransaction, txs)
    requires AllPlain(txs) || forall x :: x in r.log ==> !r.log[x].IsCorrection()
    ensures Trail(r.log, r.account.latestTransaction, [], txs, []) && AllPlain(txs)
    ensures Readable(r.log, Reversed(txs)) && Ledger(r.log, Reversed(txs), []).Ok?
    ensures BalanceEnds(r)
    ensures BalanceOf(r) == Ok(PostAll(Zero(r.account.members), Ledger(r.log, Reversed(txs), []).value))
  {
    hide Ledger, Readable, PostAll;
    forall i | 0 <= i < |txs|
      ensures !txs[i].IsCorrection()
    {
      StoredAt(r.log, [], txs, r.account.latestTransaction, i);
    }
    PlainReadable(r.log, Reversed(txs));
    SegmentHead(r.log, [], txs, r.account.latestTransaction);
    BalanceIs(r, txs, []);
  }

  // ---------- Unbalanced transactions ----------

  // What was payed by members beyond what was payed for members.
  function Surplus(txs: seq<Transaction>, keys: set<Id>): int {
    if txs == [] then 0 else
      Surplus(Front(txs), keys) + Paid(Last(txs).payedBy, keys) - Paid(Last(txs).payedFor, keys)
  }

  lemma {:induction false} PlainDue(log: Log, txs: seq<Transaction>, keys: set<Id>)
    requires AllPlain(txs)
    ensures Readable(log, Reversed(txs)) && Ledger(log, Reversed(txs), []).Ok?
    ensures Due(Ledger(log, Reversed(txs), []).value, keys) == Surplus(txs, keys)
  {
    hide Due, Paid, Entries;
    PlainReadable(log, Reversed(txs));
    if txs == [] {
      DueNothing(keys);
    } else {
      var t, older := Last(txs), Reversed(Front(txs));
      assert Reversed(txs)[0] == t && Reversed(txs)[1..] == older;
      assert forall i :: 0 <= i < |txs| - 1 ==> Front(txs)[i] == txs[i];
      PlainDue(log, Front(txs), keys);
      DueConcat(Entries(t, 1), Ledger(log, older, []).value, keys);
      EntriesDue(t, keys);
    }
  }

  lemma EntriesDue(t: Transaction, keys: set<Id>)
    ensures Due(Entries(t, 1), keys) == Paid(t.payedBy, keys) - Paid(t.payedFor, keys)
  {
    hide Due, Paid;
    DueConcat(Shares(t.payedBy, 1), Shares(t.payedFor, -1), keys);
    SharesDue(t.payedBy, 1, keys);
    SharesDue(t.payedFor, -1, keys);
  }

  /** Without corrections, settling has a plan exactly when members have not payed more than was payed for members. */
  lemma PlanExactlyWithoutSurplus(r: Replica, txs: seq<Transaction>)
    requires Complete(r.log, r.account.latestTransaction, txs) && AllPlain(txs)
    ensures BalanceEnds(r) && BalanceOf(r).Ok?
    ensures Settlement.Total(BalanceOf(r).value) == Surplus(txs, Members(r.account))
    ensures (exists plan :: Settlement.Settles(BalanceOf(r).value, plan)) <==> Surplus(txs, Members(r.account)) <= 0
  {
    hide Segment, Ids, Readable, Ledger, PostAll, Due, Surplus;
    PlainChain(r, txs);
    PlainDue(r.log, txs, Members(r.account));
    var zero := Zero(r.account.members);
    assert zero.Keys == Members(r.account);
    PostAllTotal(zero, Ledger(r.log, Reversed(txs), []).value);
    Settlement.SumNonPositive(zero, zero.Keys);
    Settlement.SumNonNegative(zero, zero.Keys);
    Settlement.SettleableIff(BalanceOf(r).value);
  }

  /** One stored transaction that names a payer and nobody it was payed for is enough to leave no plan. */
  lemma NoPlanHappens(account: Account, id: Id) returns (r: Replica)
    requires account.members != [] && id != []
    ensures r.account == account.(latestTransaction := id) && r.log.Keys == {id}
    ensures BalanceEnds(r) && BalanceOf(r).Ok? && Settlement.Total(BalanceOf(r).value) > 0
    ensures !exists plan :: Settlement.Settles(BalanceOf(r).value, plan)
  {
    var payer := account.members[0].uuid;
    var tx := Transaction(id, [], 1, [Share(payer, 1)], [], "", 0, false, []);
    r := Replica(account.(latestTransaction := id), map[id := tx]);
    assert Front([tx]) == [] && AllPlain([tx]);
    assert Complete(r.log, [], []) && Complete(r.log, id, [tx]);
    OnePayer(payer, 1, Members(r.account));
    assert account.members[0] in r.account.members;
    assert Surplus([tx], Members(r.account)) == Surplus([], Members(r.account)) + 1;
    PlanExactlyWithoutSurplus(r, [tx]);
  }

  /** The settle command: when all stored transactions are balanced it always has a plan, the shortest there is, and
      following it leaves everybody even. */
  method Settle(repo: SledRepository, account: Account) returns (r: Result<Option<seq<Settlement.Transfer>>>)
    requires repo.Valid() && BalanceEnds(Replica(account, LogIn(repo.db, account.uuid)))
    ensures var balance := BalanceOf(Replica(account, LogIn(repo.db, account.uuid)));
            if balance.Err? then r == Err(balance.error)
            else
              && r.Ok? && (r.value.Some? <==> Settlement.Total(balance.value) <= 0)
              && (r.value.Some? ==> Settlement.Settles(balance.value, r.value.value))
              && (r.value.Some? ==>
                    forall ts :: Settlement.Settles(balance.value, ts) ==> |r.value.value| <= |ts|)
              && (AllBalanced(LogIn(repo.db, account.uuid), Members(account)) ==>
                    && r.value.Some?
                    && forall p :: Settlement.At(Settlement.ApplyAll(balance.value, r.value.value), p) == 0)
  {
    var balance := GetBalance(repo, account);
    if balance.Err? {
      return Err(balance.error);
    }
    var plan := Settlement.GetTransfers(balance.value);
    if AllBalanced(LogIn(repo.db, account.uuid), Members(account)) {
      BalanceAddsUpToZero(Replica(account, LogIn(repo.db, account.uuid)));
      forall p
        ensures Settlement.At(Settlement.ApplyAll(balance.value, plan.value), p) == 0
      {
        Settlement.GreedyZeroes(balance.value, plan.value, p);
      }
    }
    return Ok(plan);
  }
}
