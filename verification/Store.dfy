/**
 The key-value repository: one flat store whose keys are byte strings.

 Encoding and decoding a record is the identity here, and one insertion or removal is one atomic write.
 */
module Store {
  import opened Model

  datatype Record = AccountRecord(account: Account) | TransactionRecord(tx: Transaction)

  type Db = map<seq<Byte>, Record>

  const ACCOUNT_KEY_PREFIX: seq<Byte> := [0x61, 0x63, 0x63, 0x6f, 0x75, 0x6e, 0x74, 0x3a]
  const TX_KEY_PREFIX: seq<Byte> := [0x74, 0x78, 0x3a]
  const COLON: Byte := 0x3a

  function AccountKey(id: Id): seq<Byte> { ACCOUNT_KEY_PREFIX + id }

  // What the keys of all transactions of an account start with.
  function LogPrefix(account: Id): seq<Byte> { TX_KEY_PREFIX + account + [COLON] }

  function TxKey(account: Id, id: Id): seq<Byte> { LogPrefix(account) + id }

  // ---------- Keys ----------

  // The keys spelled out.
  lemma KeyBytes(account: Id, id: Id)
    ensures Spells("account:", AccountKey(account)) && AccountKey(account)[|"account:"|..] == account
    ensures Spells("tx:", TxKey(account, id)) && TxKey(account, id)[|"tx:"|..] == account + [':' as int as Byte] + id
  {}

  predicate Spells(name: string, bytes: seq<Byte>) {
    |name| <= |bytes| && forall i :: 0 <= i < |name| ==> name[i] as int == bytes[i] as int
  }

  lemma AccountKeyInjective(x: Id, y: Id)
    ensures AccountKey(x) == AccountKey(y) <==> x == y
  {
    assert AccountKey(x)[8..] == x && AccountKey(y)[8..] == y;
  }

  lemma KeysDisjoint(x: Id, account: Id, id: Id)
    ensures AccountKey(x) != TxKey(account, id)
  {
    assert AccountKey(x)[0] == 0x61 && TxKey(account, id)[0] == 0x74;
  }

  lemma TxKeySuffix(account: Id, id: Id)
    ensures LogPrefix(account) <= TxKey(account, id)
    ensures TxKey(account, id)[|LogPrefix(account)|..] == id
  {}

  // Account ids of the same length never share a transaction key, even when ids contain the separator.
  lemma TxKeyInjective(a: Id, x: Id, b: Id, y: Id)
    requires |a| == |b|
    ensures TxKey(a, x) == TxKey(b, y) <==> a == b && x == y
  {
    assert TxKey(a, x)[3..3 + |a|] == a && TxKey(b, y)[3..3 + |b|] == b;
    TxKeySuffix(a, x);
    TxKeySuffix(b, y);
  }

  // Two different accounts can collide exactly when the id of one, followed by the separator, starts the other's.
  lemma TxKeyCollision(a: Id, b: Id)
    requires a != b
    ensures (exists x, y :: TxKey(a, x) == TxKey(b, y)) <==> a + [COLON] <= b || b + [COLON] <= a
  {
    if x, y :| TxKey(a, x) == TxKey(b, y) {
      assert TxKey(a, x)[3..] == a + [COLON] + x && TxKey(b, y)[3..] == b + [COLON] + y;
      var tail := a + [COLON] + x;
      assert tail[..|a|] == a && tail[|a|] == COLON;
      assert tail[..|b|] == b && tail[|b|] == COLON;
      assert |a| < |b| ==> a + [COLON] == b[..|a| + 1];
      assert |b| < |a| ==> b + [COLON] == a[..|b| + 1];
    }
    if a + [COLON] <= b {
      CollisionWitness(a, b);
    }
    if b + [COLON] <= a {
      CollisionWitness(b, a);
    }
  }

  lemma CollisionWitness(a: Id, b: Id)
    requires a + [COLON] <= b
    ensures TxKey(a, b[|a| + 1..] + [COLON]) == TxKey(b, [])
  {
    assert b == a + [COLON] + b[|a| + 1..];
  }

  // ---------- What one account sees of the store ----------

  function AccountIn(db: Db, id: Id): Option<Account> {
    if AccountKey(id) in db && db[AccountKey(id)].AccountRecord? then Some(db[AccountKey(id)].account) else None
  }

  ghost function LogIds(db: Db, account: Id): (ids: set<Id>)
    ensures forall x :: x in ids <==> TxKey(account, x) in db && db[TxKey(account, x)].TransactionRecord?
  {
    var ids := set k | k in db && LogPrefix(account) <= k && db[k].TransactionRecord? :: k[|LogPrefix(account)|..];
    assert forall k :: LogPrefix(account) <= k ==> TxKey(account, k[|LogPrefix(account)|..]) == k;
    assert forall x :: TxKey(account, x)[|LogPrefix(account)|..] == x;
    ids
  }

  // The transactions stored for an account, by id.
  ghost function LogIn(db: Db, account: Id): map<Id, Transaction> {
    map x | x in LogIds(db, account) :: db[TxKey(account, x)].tx
  }

  // Every record sits under a key of its own kind, and an account under its own id.
  ghost predicate WellKeyed(db: Db) {
    && (forall id :: AccountKey(id) in db ==>
          db[AccountKey(id)].AccountRecord? && db[AccountKey(id)].account.uuid == id)
    && (forall a, x :: TxKey(a, x) in db ==> db[TxKey(a, x)].TransactionRecord?)
  }

  // ---------- Atomic writes ----------

  datatype Write =
    | PutAccount(account: Account)
    | RemoveAccount(id: Id)
    | PutTransaction(owner: Id, tx: Transaction)
    | RemoveTransaction(owner: Id, id: Id)

  function Do(db: Db, w: Write): Db {
    match w
    case PutAccount(account) => db[AccountKey(account.uuid) := AccountRecord(account)]
    case RemoveAccount(id) => db - {AccountKey(id)}
    case PutTransaction(owner, tx) => db[TxKey(owner, tx.uuid) := TransactionRecord(tx)]
    case RemoveTransaction(owner, id) => db - {TxKey(owner, id)}
  }

  function DoAll(db: Db, ws: seq<Write>): Db
    decreases |ws|
  {
    if ws == [] then db else DoAll(Do(db, ws[0]), ws[1..])
  }

  lemma {:induction false} DoAllConcat(db: Db, v: seq<Write>, w: seq<Write>)
    ensures DoAll(db, v + w) == DoAll(DoAll(db, v), w)
    decreases |v|
  {
    if v == [] {
      assert v + w == w;
    } else {
      assert (v + w)[1..] == v[1..] + w;
      DoAllConcat(Do(db, v[0]), v[1..], w);
    }
  }

  // ---------- The tables the flat store stands for ----------

  datatype Tables = Tables(accounts: map<Id, Account>, txs: map<(Id, Id), Transaction>)

  function DoTable(t: Tables, w: Write): Tables {
    match w
    case PutAccount(account) => t.(accounts := t.accounts[account.uuid := account])
    case RemoveAccount(id) => t.(accounts := t.accounts - {id})
    case PutTransaction(owner, tx) => t.(txs := t.txs[(owner, tx.uuid) := tx])
    case RemoveTransaction(owner, id) => t.(txs := t.txs - {(owner, id)})
  }

  function DoTables(t: Tables, ws: seq<Write>): Tables
    decreases |ws|
  {
    if ws == [] then t else DoTables(DoTable(t, ws[0]), ws[1..])
  }

  // The write only names transactions of accounts with ids of the standard length.
  predicate Standard(w: Write) {
    (w.PutTransaction? || w.RemoveTransaction?) ==> |w.owner| == ID_LENGTH
  }

  function LookUp(t: Tables, id: Id): Option<Account> {
    if id in t.accounts then Some(t.accounts[id]) else None
  }

  // Read through its keys, the flat store answers like the tables.
  ghost predicate Shows(db: Db, t: Tables) {
    && (forall id :: AccountIn(db, id) == LookUp(t, id))
    && (forall a, x :: |a| == ID_LENGTH ==> SameTx(db, t, a, x))
  }

  lemma WriteKeepsWellKeyed(db: Db, w: Write)
    requires WellKeyed(db)
    ensures WellKeyed(Do(db, w))
  {
    forall x, y
      ensures AccountKey(x) == AccountKey(y) <==> x == y
    {
      AccountKeyInjective(x, y);
    }
    forall x, b, y
      ensures AccountKey(x) != TxKey(b, y)
    {
      KeysDisjoint(x, b, y);
    }
  }

  lemma AccountView(db: Db, w: Write, id: Id)
    ensures AccountIn(Do(db, w), id) ==
              if w.PutAccount? && w.account.uuid == id then Some(w.account)
              else if w.RemoveAccount? && w.id == id then None
              else AccountIn(db, id)
  {
    match w
    case PutAccount(account) => AccountKeyInjective(id, account.uuid);
    case RemoveAccount(x) => AccountKeyInjective(id, x);
    case PutTransaction(owner, tx) => KeysDisjoint(id, owner, tx.uuid);
    case RemoveTransaction(owner, x) => KeysDisjoint(id, owner, x);
  }

  // What a write means for the log of account a.
  ghost function DoLog(log: map<Id, Transaction>, a: Id, w: Write): map<Id, Transaction> {
    match w
    case PutTransaction(owner, tx) => if owner == a then log[tx.uuid := tx] else log
    case RemoveTransaction(owner, id) => if owner == a then log - {id} else log
    case _ => log
  }

  // A write reaches the log of the account it names and no other account with an id of the same length.
  lemma LogView(db: Db, w: Write, a: Id)
    requires (w.PutTransaction? || w.RemoveTransaction?) ==> |w.owner| == |a|
    ensures LogIn(Do(db, w), a) == DoLog(LogIn(db, a), a, w)
  {
    hide LogIn;
    var log, after := LogIn(db, a), LogIn(Do(db, w), a);
    forall x
      ensures x in after <==> x in DoLog(log, a, w)
      ensures x in after ==> after[x] == DoLog(log, a, w)[x]
    {
      LogAt(db, a, x);
      LogAt(Do(db, w), a, x);
      RecordView(db, w, a, x);
    }
  }

  lemma LogAt(db: Db, a: Id, x: Id)
    ensures x in LogIn(db, a) <==> TxKey(a, x) in db && db[TxKey(a, x)].TransactionRecord?
    ensures x in LogIn(db, a) ==> LogIn(db, a)[x] == db[TxKey(a, x)].tx
  {}

  // What a write means for the record under the key of one transaction of account a.
  lemma RecordView(db: Db, w: Write, a: Id, x: Id)
    requires (w.PutTransaction? || w.RemoveTransaction?) ==> |w.owner| == |a|
    ensures var key, after := TxKey(a, x), Do(db, w);
            if w.PutTransaction? && w.owner == a && w.tx.uuid == x
            then key in after && after[key] == TransactionRecord(w.tx)
            else if w == RemoveTransaction(a, x) then key !in after
            else (key in after <==> key in db) && (key in db ==> after[key] == db[key])
  {
    hide TxKey, AccountKey;
    match w
    case PutAccount(account) => KeysDisjoint(account.uuid, a, x);
    case RemoveAccount(id) => KeysDisjoint(id, a, x);
    case PutTransaction(owner, tx) => TxKeyInjective(a, x, owner, tx.uuid);
    case RemoveTransaction(owner, id) => TxKeyInjective(a, x, owner, id);
  }

  // Both views of one account's log agree on the transaction with one id.
  ghost predicate SameTx(db: Db, t: Tables, a: Id, x: Id) {
    && (x in LogIn(db, a) <==> (a, x) in t.txs)
    && ((a, x) in t.txs ==> LogIn(db, a)[x] == t.txs[(a, x)])
  }

  lemma WriteRefinesLog(db: Db, t: Tables, w: Write, a: Id, x: Id)
    requires SameTx(db, t, a, x)
    requires (w.PutTransaction? || w.RemoveTransaction?) ==> |w.owner| == |a|
    ensures SameTx(Do(db, w), DoTable(t, w), a, x)
  {
    LogView(db, w, a);
  }

  lemma WriteRefines(db: Db, t: Tables, w: Write)
    requires WellKeyed(db) && Shows(db, t) && Standard(w)
    ensures WellKeyed(Do(db, w)) && Shows(Do(db, w), DoTable(t, w))
  {
    WriteKeepsWellKeyed(db, w);
    forall id
      ensures AccountIn(Do(db, w), id) == LookUp(DoTable(t, w), id)
    {
      AccountView(db, w, id);
      assert AccountIn(db, id) == LookUp(t, id);
    }
    forall a, x | |a| == ID_LENGTH
      ensures SameTx(Do(db, w), DoTable(t, w), a, x)
    {
      WriteRefinesLog(db, t, w, a, x);
    }
  }

  // With 16-byte account ids, any sequence of writes on the flat store is one on independent tables.
  lemma {:induction false} RunRefines(db: Db, t: Tables, ws: seq<Write>)
    requires WellKeyed(db) && Shows(db, t) && forall i :: 0 <= i < |ws| ==> Standard(ws[i])
    ensures WellKeyed(DoAll(db, ws)) && Shows(DoAll(db, ws), DoTables(t, ws))
    decreases |ws|
  {
    if ws != [] {
      WriteRefines(db, t, ws[0]);
      RunRefines(Do(db, ws[0]), DoTable(t, ws[0]), ws[1..]);
    }
  }

  // ---------- Operations and their answers ----------

  datatype Operation =
    | StoreAccount(account: Account)
    | FindAccount(id: Id)
    | DropAccount(id: Id)
    | AllAccounts
    | MoveLatest(id: Id, latest: Id)
    | MoveSynchronized(id: Id, latest: Id)
    | StoreTransaction(owner: Id, tx: Transaction)
    | FindTransaction(owner: Id, id: Id)
    | DropTransaction(owner: Id, id: Id)

  datatype Answer =
    | Done(done: Result<()>)
    | AccountFound(account: Result<Account>)
    | TransactionFound(transaction: Result<Transaction>)
    | Accounts(all: set<Account>)

  ghost function Listed(db: Db): set<Account> {
    set k | k in db && ACCOUNT_KEY_PREFIX <= k && db[k].AccountRecord? :: db[k].account
  }

  lemma ListedIs(db: Db, x: Account)
    requires WellKeyed(db)
    ensures x in Listed(db) <==> AccountIn(db, x.uuid) == Some(x)
  {
    forall k | k in db && ACCOUNT_KEY_PREFIX <= k
      ensures k == AccountKey(k[8..])
    {}
    if AccountIn(db, x.uuid) == Some(x) {
      assert ACCOUNT_KEY_PREFIX <= AccountKey(x.uuid);
    }
  }

  // What the repository answers, and the store afterwards.
  ghost function Perform(db: Db, op: Operation): (Answer, Db) {
    match op
    case StoreAccount(account) => (Done(Ok(())), Do(db, PutAccount(account)))
    case FindAccount(id) =>
      (AccountFound(if AccountIn(db, id).Some? then Ok(AccountIn(db, id).value) else Err(NoSuchAccount(id))), db)
    case DropAccount(id) =>
      if AccountIn(db, id).Some? then (Done(Ok(())), Do(db, RemoveAccount(id)))
      else (Done(Err(NoSuchAccount(id))), db)
    case AllAccounts => (Accounts(Listed(db)), db)
    case MoveLatest(id, latest) =>
      if AccountIn(db, id).Some?
      then (Done(Ok(())), Do(db, PutAccount(AccountIn(db, id).value.(latestTransaction := latest))))
      else (Done(Err(NoSuchAccount(id))), db)
    case MoveSynchronized(id, latest) =>
      if AccountIn(db, id).Some?
      then (Done(Ok(())), Do(db, PutAccount(AccountIn(db, id).value.(latestSynchronizedTransaction := latest))))
      else (Done(Err(NoSuchAccount(id))), db)
    case StoreTransaction(owner, tx) => (Done(Ok(())), Do(db, PutTransaction(owner, tx)))
    case FindTransaction(owner, id) =>
      (TransactionFound(if id in LogIn(db, owner) then Ok(LogIn(db, owner)[id]) else Err(NoSuchTransaction(id))), db)
    case DropTransaction(owner, id) =>
      if id in LogIn(db, owner) then (Done(Ok(())), Do(db, RemoveTransaction(owner, id)))
      else (Done(Err(NoSuchTransaction(id))), db)
  }

  // The same operations on the tables.
  function PerformTable(t: Tables, op: Operation): (Answer, Tables) {
    match op
    case StoreAccount(account) => (Done(Ok(())), t.(accounts := t.accounts[account.uuid := account]))
    case FindAccount(id) => (AccountFound(if id in t.accounts then Ok(t.accounts[id]) else Err(NoSuchAccount(id))), t)
    case DropAccount(id) =>
      if id in t.accounts then (Done(Ok(())), t.(accounts := t.accounts - {id})) else (Done(Err(NoSuchAccount(id))), t)
    case AllAccounts => (Accounts(t.accounts.Values), t)
    case MoveLatest(id, latest) =>
      if id in t.accounts
      then (Done(Ok(())), t.(accounts := t.accounts[id := t.accounts[id].(latestTransaction := latest)]))
      else (Done(Err(NoSuchAccount(id))), t)
    case MoveSynchronized(id, latest) =>
      if id in t.accounts
      then (Done(Ok(())), t.(accounts := t.accounts[id := t.accounts[id].(latestSynchronizedTransaction := latest)]))
      else (Done(Err(NoSuchAccount(id))), t)
    case StoreTransaction(owner, tx) => (Done(Ok(())), t.(txs := t.txs[(owner, tx.uuid) := tx]))
    case FindTransaction(owner, id) =>
      (TransactionFound(if (owner, id) in t.txs then Ok(t.txs[(owner, id)]) else Err(NoSuchTransaction(id))), t)
    case DropTransaction(owner, id) =>
      if (owner, id) in t.txs then (Done(Ok(())), t.(txs := t.txs - {(owner, id)}))
      else (Done(Err(NoSuchTransaction(id))), t)
  }

  predicate StandardOperation(op: Operation) {
    (op.StoreTransaction? || op.FindTransaction? || op.DropTransaction?) ==> |op.owner| == ID_LENGTH
  }

  lemma AccountsAgree(db: Db, t: Tables)
    requires WellKeyed(db) && Shows(db, t)
    ensures Listed(db) == t.accounts.Values
  {
    forall x
      ensures x in Listed(db) <==> x in t.accounts.Values
    {
      ListedIs(db, x);
      if x in Listed(db) { assert LookUp(t, x.uuid) == Some(x); }
      if id :| id in t.accounts && t.accounts[id] == x {
        assert AccountIn(db, id) == LookUp(t, id);
      }
    }
  }

  lemma OperationRefines(db: Db, t: Tables, op: Operation)
    requires WellKeyed(db) && Shows(db, t) && StandardOperation(op)
    ensures var (answer, after) := Perform(db, op);
            && answer == PerformTable(t, op).0
            && WellKeyed(after) && Shows(after, PerformTable(t, op).1)
  {
    hide WellKeyed, Do, Listed, LogIn, SameTx;
    match op
    case StoreAccount(account) => WriteRefines(db, t, PutAccount(account));
    case FindAccount(id) => assert AccountIn(db, id) == LookUp(t, id);
    case DropAccount(id) =>
      assert AccountIn(db, id) == LookUp(t, id);
      WriteRefines(db, t, RemoveAccount(id));
    case AllAccounts => AccountsAgree(db, t);
    case MoveLatest(id, latest) => MoveRefines(db, t, id, (account: Account) => account.(latestTransaction := latest));
    case MoveSynchronized(id, latest) =>
      MoveRefines(db, t, id, (account: Account) => account.(latestSynchronizedTransaction := latest));
    case StoreTransaction(owner, tx) => WriteRefines(db, t, PutTransaction(owner, tx));
    case FindTransaction(owner, id) => SameTxThere(db, t, owner, id);
    case DropTransaction(owner, id) =>
      SameTxThere(db, t, owner, id);
      WriteRefines(db, t, RemoveTransaction(owner, id));
  }

  lemma SameTxThere(db: Db, t: Tables, a: Id, x: Id)
    requires Shows(db, t) && |a| == ID_LENGTH
    ensures x in LogIn(db, a) <==> (a, x) in t.txs
    ensures (a, x) in t.txs ==> LogIn(db, a)[x] == t.txs[(a, x)]
  {
    hide LogIn;
    assert SameTx(db, t, a, x);
  }

  lemma MoveRefines(db: Db, t: Tables, id: Id, change: Account -> Account)
    requires WellKeyed(db) && Shows(db, t) && forall account: Account :: change(account).uuid == account.uuid
    ensures AccountIn(db, id) == LookUp(t, id)
    ensures AccountIn(db, id).Some? ==>
              && t.accounts[id].uuid == id
              && WellKeyed(Do(db, PutAccount(change(AccountIn(db, id).value))))
              && Shows(Do(db, PutAccount(change(AccountIn(db, id).value))),
                       t.(accounts := t.accounts[id := change(t.accounts[id])]))
  {
    hide LogIn, SameTx;
    if AccountIn(db, id).Some? {
      assert AccountIn(db, id) == LookUp(t, id);
      WriteRefines(db, t, PutAccount(change(AccountIn(db, id).value)));
    }
  }

  ghost function PerformAll(db: Db, ops: seq<Operation>): (seq<Answer>, Db)
    decreases |ops|
  {
    if ops == [] then ([], db) else
      var (answer, next) := Perform(db, ops[0]);
      var (answers, end) := PerformAll(next, ops[1..]);
      ([answer] + answers, end)
  }

  function PerformTableAll(t: Tables, ops: seq<Operation>): (seq<Answer>, Tables)
    decreases |ops|
  {
    if ops == [] then ([], t) else
      var (answer, next) := PerformTable(t, ops[0]);
      var (answers, end) := PerformTableAll(next, ops[1..]);
      ([answer] + answers, end)
  }

  /** With 16-byte account ids, every sequence of repository operations on the flat store gives the answers of
      independent tables, one for accounts and one for the transactions of each account. */
  lemma {:induction false} OperationsRefine(db: Db, t: Tables, ops: seq<Operation>)
    requires WellKeyed(db) && Shows(db, t) && forall i :: 0 <= i < |ops| ==> StandardOperation(ops[i])
    ensures PerformAll(db, ops).0 == PerformTableAll(t, ops).0
    ensures WellKeyed(PerformAll(db, ops).1) && Shows(PerformAll(db, ops).1, PerformTableAll(t, ops).1)
    decreases |ops|
  {
    hide WellKeyed, Shows, Perform, PerformTable;
    if ops != [] {
      OperationRefines(db, t, ops[0]);
      assert forall i :: 0 <= i < |ops| - 1 ==> ops[1..][i] == ops[i + 1];
      OperationsRefine(Perform(db, ops[0]).1, PerformTable(t, ops[0]).1, ops[1..]);
    }
  }

  // ---------- The order of keys ----------

  // Byte by byte.
  predicate Precedes(x: seq<Byte>, y: seq<Byte>)
    decreases |x|
  {
    y != [] && (x == [] || x[0] < y[0] || (x[0] == y[0] && Precedes(x[1..], y[1..])))
  }

  lemma {:induction false} PrecedesTotal(x: seq<Byte>, y: seq<Byte>)
    ensures x == y || Precedes(x, y) || Precedes(y, x)
    decreases |x|
  {
    if x != [] && y != [] && x[0] == y[0] {
      PrecedesTotal(x[1..], y[1..]);
      assert x == [x[0]] + x[1..] && y == [y[0]] + y[1..];
    }
  }

  lemma {:induction false} PrecedesTransitive(x: seq<Byte>, y: seq<Byte>, z: seq<Byte>)
    requires Precedes(x, y) && Precedes(y, z)
    ensures Precedes(x, z)
    decreases |x|
  {
    if x != [] && x[0] == y[0] == z[0] { PrecedesTransitive(x[1..], y[1..], z[1..]); }
  }

  lemma {:induction false} PrecedesPrefix(p: seq<Byte>, x: seq<Byte>, y: seq<Byte>)
    ensures Precedes(p + x, p + y) <==> Precedes(x, y)
    decreases |p|
  {
    if p == [] {
      assert p + x == x && p + y == y;
    } else {
      assert (p + x)[1..] == p[1..] + x && (p + y)[1..] == p[1..] + y;
      PrecedesPrefix(p[1..], x, y);
    }
  }

  predicate Least(keys: set<seq<Byte>>, k: seq<Byte>) {
    k in keys && forall other :: other in keys && other != k ==> Precedes(k, other)
  }

  lemma {:induction false} LeastExists(keys: set<seq<Byte>>)
    requires keys != {}
    ensures exists k :: Least(keys, k)
    decreases |keys|
  {
    var x :| x in keys;
    if keys == {x} {
      assert Least(keys, x);
    } else {
      LeastExists(keys - {x});
      var k :| Least(keys - {x}, k);
      PrecedesTotal(x, k);
      if Precedes(k, x) {
        assert Least(keys, k);
      } else {
        forall other | other in keys && other != x && other != k
          ensures Precedes(x, other)
        {
          PrecedesTransitive(x, k, other);
        }
        assert Least(keys, x);
      }
    }
  }

  // ---------- One account of the store ----------

  // An account together with the transactions stored for it.
  datatype Replica = Replica(account: Account, log: map<Id, Transaction>)

  ghost predicate Has(db: Db, a: Id) { AccountIn(db, a).Some? }

  ghost function View(db: Db, a: Id): Replica
    requires Has(db, a)
  {
    Replica(AccountIn(db, a).value, LogIn(db, a))
  }

  // The write updates account a or its log, without removing the account.
  predicate Concerns(w: Write, a: Id) {
    match w
    case PutAccount(account) => account.uuid == a
    case RemoveAccount(id) => false
    case PutTransaction(owner, tx) => owner == a
    case RemoveTransaction(owner, id) => owner == a
  }

  function DoReplica(r: Replica, w: Write): Replica {
    match w
    case PutAccount(account) => r.(account := account)
    case RemoveAccount(id) => r
    case PutTransaction(owner, tx) => r.(log := r.log[tx.uuid := tx])
    case RemoveTransaction(owner, id) => r.(log := r.log - {id})
  }

  function DoReplicaAll(r: Replica, ws: seq<Write>): Replica
    decreases |ws|
  {
    if ws == [] then r else DoReplicaAll(DoReplica(r, ws[0]), ws[1..])
  }

  ghost predicate ConcernAll(ws: seq<Write>, a: Id) { forall i :: 0 <= i < |ws| ==> Concerns(ws[i], a) }

  // Writes for one account act on its replica, and other accounts see none of them.
  lemma {:induction false} WritesView(db: Db, ws: seq<Write>, a: Id, other: Id)
    requires WellKeyed(db) && Has(db, a) && ConcernAll(ws, a)
    ensures WellKeyed(DoAll(db, ws)) && Has(DoAll(db, ws), a)
    ensures View(DoAll(db, ws), a) == DoReplicaAll(View(db, a), ws)
    ensures other != a ==> AccountIn(DoAll(db, ws), other) == AccountIn(db, other)
    ensures other != a && |other| == |a| ==> LogIn(DoAll(db, ws), other) == LogIn(db, other)
    decreases |ws|
  {
    if ws != [] {
      var w := ws[0];
      WriteKeepsWellKeyed(db, w);
      AccountView(db, w, a);
      AccountView(db, w, other);
      LogView(db, w, a);
      if |other| == |a| { LogView(db, w, other); }
      assert Concerns(w, a);
      forall i | 0 <= i < |ws| - 1
        ensures Concerns(ws[1..][i], a)
      {
        assert Concerns(ws[i + 1], a);
      }
      WritesView(Do(db, w), ws[1..], a, other);
    }
  }

  // Deleting an account leaves its transactions behind: a new account with the same id finds them again.
  lemma DeletedAccountKeepsTransactions(db: Db, account: Account)
    requires WellKeyed(db)
    ensures var gone := Do(db, RemoveAccount(account.uuid));
            AccountIn(gone, account.uuid) == None
            && View(Do(gone, PutAccount(account)), account.uuid) == Replica(account, LogIn(db, account.uuid))
  {
    var gone := Do(db, RemoveAccount(account.uuid));
    AccountView(db, RemoveAccount(account.uuid), account.uuid);
    AccountView(gone, PutAccount(account), account.uuid);
    LogView(db, RemoveAccount(account.uuid), account.uuid);
    LogView(gone, PutAccount(account), account.uuid);
  }

  class SledRepository {
    var db: Db

    ghost predicate Valid()
      reads this
    {
      WellKeyed(db)
    }

    constructor Temporary()
      ensures Valid() && db == map[]
    {
      db := map[];
    }

    method AddAccount(account: Account)
      requires Valid()
      modifies this
      ensures Valid() && db == Do(old(db), PutAccount(account))
      ensures Perform(old(db), StoreAccount(account)) == (Done(Ok(())), db)
    {
      WriteKeepsWellKeyed(db, PutAccount(account));
      db := db[AccountKey(account.uuid) := AccountRecord(account)];
    }

    method GetAccount(id: Id) returns (r: Result<Account>)
      requires Valid()
      ensures r == if AccountIn(db, id).Some? then Ok(AccountIn(db, id).value) else Err(NoSuchAccount(id))
      ensures r.Ok? ==> r.value.uuid == id
      ensures Perform(db, FindAccount(id)) == (AccountFound(r), db)
    {
      if AccountKey(id) in db {
        r := Ok(db[AccountKey(id)].account);
      } else {
        r := Err(NoSuchAccount(id));
      }
    }

    method DeleteAccount(id: Id) returns (r: Result<()>)
      requires Valid()
      modifies this
      ensures Valid()
      ensures r == if AccountIn(old(db), id).Some? then Ok(()) else Err(NoSuchAccount(id))
      ensures db == if r.Ok? then Do(old(db), RemoveAccount(id)) else old(db)
      ensures Perform(old(db), DropAccount(id)) == (Done(r), db)
    {
      WriteKeepsWellKeyed(db, RemoveAccount(id));
      if AccountKey(id) in db {
        db := db - {AccountKey(id)};
        r := Ok(());
      } else {
        r := Err(NoSuchAccount(id));
      }
    }

    /** Every stored account exactly once, found by the prefix of its key, in the order of ids. */
    method ListAccounts() returns (accounts: seq<Account>)
      requires Valid()
      ensures forall x :: x in accounts <==> AccountIn(db, x.uuid) == Some(x)
      ensures forall i, j :: 0 <= i < j < |accounts| ==> Precedes(accounts[i].uuid, accounts[j].uuid)
      ensures Perform(db, AllAccounts) == (Accounts(set x | x in accounts), db)
    {
      accounts := [];
      var keys := set k | k in db && ACCOUNT_KEY_PREFIX <= k;
      ghost var seen: set<seq<Byte>> := {};
      assert forall k :: k in keys ==> k == AccountKey(k[8..]);
      while keys != {}
        invariant keys !! seen && keys + seen == set k | k in db && ACCOUNT_KEY_PREFIX <= k
        invariant forall x, y :: x in seen && y in keys ==> Precedes(x, y)
        invariant forall x :: x in accounts <==> AccountKey(x.uuid) in seen && db[AccountKey(x.uuid)].account == x
        invariant forall i, j :: 0 <= i < j < |accounts| ==>
                    Precedes(AccountKey(accounts[i].uuid), AccountKey(accounts[j].uuid))
        decreases keys
      {
        LeastExists(keys);
        var k :| k in keys && Least(keys, k);
        assert k == AccountKey(k[8..]);
        keys, seen := keys - {k}, seen + {k};
        accounts := accounts + [db[k].account];
      }
      forall i, j | 0 <= i < j < |accounts|
        ensures Precedes(accounts[i].uuid, accounts[j].uuid)
      {
        PrecedesPrefix(ACCOUNT_KEY_PREFIX, accounts[i].uuid, accounts[j].uuid);
      }
      forall x
        ensures x in Listed(db) <==> x in accounts
      {
        ListedIs(db, x);
      }
      assert Listed(db) == set x | x in accounts;
    }

    method SetLatestTransaction(id: Id, tx: Id) returns (r: Result<()>)
      requires Valid()
      modifies this
      ensures Valid()
      ensures r == if Has(old(db), id) then Ok(()) else Err(NoSuchAccount(id))
      ensures db == if r.Err? then old(db)
                    else Do(old(db), PutAccount(View(old(db), id).account.(latestTransaction := tx)))
      ensures Perform(old(db), MoveLatest(id, tx)) == (Done(r), db)
    {
      var account :- GetAccount(id);
      AddAccount(account.(latestTransaction := tx));
      r := Ok(());
    }

    method SetLatestSynchronizedTransaction(id: Id, tx: Id) returns (r: Result<()>)
      requires Valid()
      modifies this
      ensures Valid()
      ensures r == if Has(old(db), id) then Ok(()) else Err(NoSuchAccount(id))
      ensures db == if r.Err? then old(db)
                    else Do(old(db), PutAccount(View(old(db), id).account.(latestSynchronizedTransaction := tx)))
      ensures Perform(old(db), MoveSynchronized(id, tx)) == (Done(r), db)
    {
      var account :- GetAccount(id);
      AddAccount(account.(latestSynchronizedTransaction := tx));
      r := Ok(());
    }

    method AddTransaction(account: Id, tx: Transaction)
      requires Valid()
      modifies this
      ensures Valid() && db == Do(old(db), PutTransaction(account, tx))
      ensures Perform(old(db), StoreTransaction(account, tx)) == (Done(Ok(())), db)
    {
      WriteKeepsWellKeyed(db, PutTransaction(account, tx));
      db := db[TxKey(account, tx.uuid) := TransactionRecord(tx)];
    }

    method GetTransaction(account: Id, id: Id) returns (r: Result<Transaction>)
      requires Valid()
      ensures r == if id in LogIn(db, account) then Ok(LogIn(db, account)[id]) else Err(NoSuchTransaction(id))
      ensures Perform(db, FindTransaction(account, id)) == (TransactionFound(r), db)
    {
      if TxKey(account, id) in db {
        r := Ok(db[TxKey(account, id)].tx);
      } else {
        r := Err(NoSuchTransaction(id));
      }
    }

    method DeleteTransaction(account: Id, id: Id) returns (r: Result<()>)
      requires Valid()
      modifies this
      ensures Valid()
      ensures r == if id in LogIn(old(db), account) then Ok(()) else Err(NoSuchTransaction(id))
      ensures db == if r.Ok? then Do(old(db), RemoveTransaction(account, id)) else old(db)
      ensures Perform(old(db), DropTransaction(account, id)) == (Done(r), db)
    {
      WriteKeepsWellKeyed(db, RemoveTransaction(account, id));
      if TxKey(account, id) in db {
        db := db - {TxKey(account, id)};
        r := Ok(());
      } else {
        r := Err(NoSuchTransaction(id));
      }
    }
  }
}
