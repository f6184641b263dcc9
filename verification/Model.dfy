/** The records exchanged and stored by the library, and the errors it returns. */
module Model {

  datatype Option<+T> = None | Some(value: T)

  newtype Byte = x: int | 0 <= x < 0x100
  type U32 = x: nat | x < 0x1_0000_0000
  type U64 = x: nat | x < 0x1_0000_0000_0000_0000

  // Account, transaction and person ids are byte strings; the empty one means "none".
  type Id = seq<Byte>

  const ID_LENGTH: nat := 16

  // One entry of a transaction's payed_by or payed_for list.
  datatype Share = Share(person: Id, amount: U32)

  datatype Transaction = Transaction(
    uuid: Id,
    parent: Id,
    amount: U32,
    payedBy: seq<Share>,
    payedFor: seq<Share>,
    caption: string,
    timestamp: U64,
    deleted: bool,
    supersedes: Id)
  {
    // A transaction that edits or deletes an earlier one.
    predicate IsCorrection() { supersedes != [] || deleted }

    // What the user entered: everything but the position in the chain.
    function Payload(): Transaction { this.(uuid := [], parent := []) }
  }

  datatype Person = Person(uuid: Id, name: string)

  datatype Account = Account(
    uuid: Id,
    caption: string,
    latestTransaction: Id,
    latestSynchronizedTransaction: Id,
    members: seq<Person>)

  datatype Error =
    | NoSuchAccount(id: Id)
    | NoSuchTransaction(id: Id)
    | DuplicateTransactionId(id: Id)
    | MustRebase
    | InconsistentChain
    | InconsistentServerResponse

  datatype Result<+T> = Ok(value: T) | Err(error: Error) {
    predicate IsFailure() { Err? }

    function PropagateFailure<U>(): Result<U>
      requires Err?
    {
      Err(error)
    }

    function Extract(): T
      requires Ok?
    {
      value
    }
  }

  function IdsOf(txs: seq<Transaction>): seq<Id> {
    seq(|txs|, i requires 0 <= i < |txs| => txs[i].uuid)
  }

  function Payloads(txs: seq<Transaction>): seq<Transaction> {
    seq(|txs|, i requires 0 <= i < |txs| => txs[i].Payload())
  }

  function Reversed<T>(s: seq<T>): (r: seq<T>)
    ensures |r| == |s|
    ensures forall i :: 0 <= i < |s| ==> r[i] == s[|s| - 1 - i]
  {
    seq(|s|, i requires 0 <= i < |s| => s[|s| - 1 - i])
  }

  // Two transactions have the same payload exactly when they differ in their position only.
  lemma PayloadIs(t: Transaction, u: Transaction)
    ensures t.Payload() == u.Payload() <==>
            && t.amount == u.amount && t.payedBy == u.payedBy && t.payedFor == u.payedFor && t.caption == u.caption
            && t.timestamp == u.timestamp && t.deleted == u.deleted && t.supersedes == u.supersedes
  {
    var p, q := t.Payload(), u.Payload();
    assert p.amount == t.amount && q.amount == u.amount && p.payedBy == t.payedBy && q.payedBy == u.payedBy;
    assert p.payedFor == t.payedFor && q.payedFor == u.payedFor && p.caption == t.caption && q.caption == u.caption;
    assert p.timestamp == t.timestamp && q.timestamp == u.timestamp;
  }

  lemma ReversedTwice<T>(s: seq<T>)
    ensures Reversed(Reversed(s)) == s
  {}
}
