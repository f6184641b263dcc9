# Flouze: settlement, synchronization and balances

Flouze keeps track of expenses among friends. Every device stores an account and a log of transactions in which each
transaction names its parent; devices exchange transactions through a server; a balance is computed from the log and
turned into a short list of transfers. This project models that logic in Dafny and proves what it guarantees, and where
it stops guaranteeing it.

| file | models |
|---|---|
| `Model.dfy` | accounts, transactions, errors |
| `Store.dfy` | the key-value repository on one flat store, and the tables it stands for |
| `Chain.dfy` | walking parent links, receiving a suffix of a chain and returning one |
| `Settlement.dfy` | the branch-and-bound search for the fewest transfers |
| `Sync.dfy` | pull, rebase, garbage collection and push, write by write |
| `Convergence.dfy`, `Crash.dfy` | what one synchronization or clone achieves, and what an interrupted one leaves behind |
| `Protocol.dfy` | any number of clients and one server as a state machine, and its invariant |
| `Runs.dfy` | whole runs over all interleavings: what is kept, what blocks a client, what becomes of everything entered |
| `Balance.dfy`, `History.dfy` | the balance, and its relation to the visible transactions |
| `Tracing.dfy` | which transactions of a chain the balance can account for |
| `Rebalance.dfy` | the balance across rebases and pushes |
| `Computable.dfy`, `Corrections.dfy` | the balance over whole runs, by what clients correct, and runs that break it |
| `Totals.dfy`, `Provenance.dfy` | zero sums and 64-bit bounds, and settling over whole runs |
| `Cli.dfy` | entering and settling from the command line |

Main results:

- The settlement search returns, for every choice of creditor and every order of debtors, a plan no longer than any list
  of transfers between any persons and of any amounts, and it has a plan exactly when such a list exists. The lower
  bound divides the persons into groups that can settle among themselves and merges two groups for each transfer undone;
  the upper bound splits off one group for each transfer the search makes.
- In every interleaving of any number of clients, with calls that fail, answers that get lost and pulls that stop between
  any two writes, the server's chain only grows at its end and each client's synchronized part is a prefix of it.
  Everything entered on all clients is, item by item, what the server has together with what is still to be sent, and
  each client's order is kept. From every reachable state a synchronization succeeds exactly when two things have not
  happened to the client: the server accepted a push and the client never learned of it, or a pull stopped after it had
  stored something but not the account. After either, every later synchronization of that client is refused, for good.
- A pull stopped between any two of its writes leaves a complete chain, the old or the new one. The next pull fails
  exactly when something was stored but the account was not yet.
- The balance equals the sum over the visible transactions minus an exact term for transactions superseded more than
  once. For somebody every transaction credits, the two agree exactly when each correction names a transaction that was
  visible when it was made; two devices that edit the same transaction break that.
- The balance of a chain can be computed exactly when every correction on it supersedes an id that leads, past
  deletions, to a stored transaction. When nothing superseded is stored outside the older part of the chain, that is so
  exactly when everything superseded is in that older part and every deletion says what it deletes. A balance that
  cannot be computed never can be again, as long as nothing missing turns up in the store.
- After a pull, complete or stopped while the client's old transactions are being removed, the balance can be computed
  exactly when it could be before, what was received can be accounted for, and none of the client's own transactions
  supersedes one of those removed: rebasing renames transactions but not what they supersede. It is then the server's
  balance plus what the client's transactions had contributed. After a push the server's balance can be computed exactly
  when everything superseded is on the chain and older. A run from the start shows a balance that stops being
  computable, and another one a server that cannot compute the balance that the client who pushed can.
- When clients only correct what they have synchronized, every balance can be computed in every reachable state, and is
  what the visible transactions contribute minus the exact term for transactions corrected by several clients; a run
  shows two of them. When clients correct transactions of their own chain, each pull and each state of the server meets
  the exact condition above, and a server whose balance cannot be computed stays so.
- Every transaction stored anywhere was entered by some client. When everything entered is balanced over the members,
  each balance that can be computed, on the server or on a client, adds up to zero and can be settled.
- Every sequence of repository operations on the flat store gives the answers of independent tables when account ids
  have 16 bytes; accounts with ids of different lengths can collide, exactly in the stated case.

## Reading the model

Methods are proved against functions of the state before the call, and the lemmas are about these functions. Following
parents or superseded ids runs forever on a cycle, in the original too; predicates such as `Walkable`, `HasAncestry` and
`BalanceEnds` say that a walk ends, and methods that walk require them. The walks along parents end in every reachable
state of the protocol (`FetchAlwaysEnds`), and those along superseded ids on every client and on the server when clients
correct transactions of their own chain (`CorrectingClient`, `CorrectingServer`).

Ids generated during a synchronization are given as a function `newId`, and random choices of the shuffle as a function
`pick`. Fresh ids (`FreshSupply`) are assumed pairwise different and unused, as version 4 UUIDs (section 4.4 of RFC 4122)
are in practice: the server itself does not check it. `None` as the result of `GetTransfers` stands for the panic of
`unwrap` in the original.

The design document leaves open how a client applies edits, and suggests hiding the transactions that replace others;
the code hides the replaced ones instead, and the model follows the code.

## Model

| member | source | states |
|---|---|---|
| `Settlement.GetTransfers` | lib/src/repository.rs:235-241 | a plan exists exactly when the total is at most 0 (else the original panics); it is made of the search's own transfers and is no longer than any list of transfers that leaves no creditor |
| `Settlement.TransferSearch.Helper` | lib/src/repository.rs:187-233 | for any creditor picked and any order of debtors, the best length becomes the minimum of the old one and of the transfers made plus a shortest completion; the transfers made are restored; each recursive call has fewer non-zero entries |
| `Settlement.PlanGivesGroups` | lib/src/repository.rs:655-663 | lower bound: any n transfers that leave no creditor, whatever their parties and amounts, come with a division of the persons into at least (persons − n) groups none of which is owed more than it owes |
| `Settlement.GroupsGivePlan` | lib/src/repository.rs:213-232 | upper bound: k such groups among n persons are settled by at most n − k transfers of the kind the search tries |
| `Settlement.GreedySplit` | lib/src/repository.rs:192-227 | whichever creditor is served, some debtor exists for whom the transfer leaves one more self-sufficient group |
| `Settlement.SomeDebtorIsBest` | lib/src/repository.rs:213-232 | for every creditor, some debtor starts a shortest plan, so picking any creditor loses nothing |
| `Settlement.ShortestStep` | lib/src/repository.rs:213-232 | no transfer of the search saves more than one transfer: pruning against the best length is safe |
| `Settlement.SettleableIff` | lib/src/repository.rs:235-241 | some list of transfers whatsoever settles a balance exactly when its total is at most 0, so the panic only happens where nothing could be done |
| `Settlement.ShortestBound` | lib/src/repository.rs:192-241 | a non-zero balance that adds up to 0 needs at most (non-zero entries − 1) transfers |
| `Settlement.GreedySettles` | lib/src/repository.rs:192-232 | every plan of the search leaves nobody to reimburse, involves nobody new and keeps the total |
| `Settlement.GreedyNeverOverpays` | lib/src/repository.rs:213-227 | after any number of transfers of a plan nobody's balance has changed sign or grown in size |
| `Settlement.GreedyAmountsArePositive` | lib/src/repository.rs:213-227 | every transfer of a plan moves a positive amount from somebody who owed at the start to somebody who was owed |
| `Settlement.GreedyZeroes` | lib/src/repository.rs:192-241 | when the total is 0 a plan brings everybody to exactly 0 |
| `Settlement.GreedyProgress` | lib/src/repository.rs:213-232 | a transfer of the search zeroes at least one non-zero entry and creates none, which is why the recursion ends |
| `Store.AccountKeyInjective` | lib/src/sledrepository.rs:154-160 | two accounts share a key only when they are the same account |
| `Store.KeysDisjoint` | lib/src/sledrepository.rs:11-14 | no account key is a transaction key, whatever bytes ids contain |
| `Store.KeyBytes` | lib/src/sledrepository.rs:11-14 | an account's key is "account:" and its id; a transaction's key is "tx:", the account's id, ":" and its own id |
| `Store.TxKeyInjective` | lib/src/sledrepository.rs:162-170 | for account ids of the same length a transaction key determines account and transaction, even when ids contain the separator |
| `Store.TxKeyCollision` | lib/src/sledrepository.rs:162-170 | two different accounts can share a transaction key exactly when the id of one followed by ':' starts the other's |
| `Store.RunRefines` | lib/src/sledrepository.rs:43-146 | with 16-byte account ids any sequence of writes leaves the flat store showing what independent account and transaction tables hold |
| `Store.OperationsRefine` | lib/src/sledrepository.rs:42-152 | every sequence of repository operations gives, answer by answer and error by error, what independent account and per-account transaction tables give, for 16-byte account ids |
| `Store.OperationRefines` | lib/src/sledrepository.rs:42-152 | each of the nine operations gives the answer of the tables and leaves both sides in agreement |
| `Store.AccountsAgree` | lib/src/sledrepository.rs:69-88 | scanning the keys with the account prefix finds exactly the accounts of the table |
| `Store.LeastExists` | lib/src/sledrepository.rs:69-88 | keys compared byte by byte have a least one, so the scan in key order is determined |
| `Store.WriteRefines` | lib/src/sledrepository.rs:43-146 | each single write keeps the flat store and the tables in agreement, and every record under a key of its kind |
| `Store.LogView` | lib/src/sledrepository.rs:110-146 | a write changes the log of the account it names and that of no other account with an id of the same length |
| `Store.AccountView` | lib/src/sledrepository.rs:43-67 | only writing or removing an account changes what is found under its id |
| `Store.WritesView` | lib/src/sledrepository.rs:43-146 | any writes for one account act on its account and log alone; every other account sees none of them |
| `Store.DeletedAccountKeepsTransactions` | lib/src/sledrepository.rs:62-67 | deleting an account keeps its transactions: a new account with that id finds them all again |
| `Store.SledRepository.AddAccount` | lib/src/sledrepository.rs:43-51 | stores the account under its own id and changes nothing else |
| `Store.SledRepository.GetAccount` | lib/src/sledrepository.rs:53-60 | the account stored under the id, which it carries, or NoSuchAccount |
| `Store.SledRepository.DeleteAccount` | lib/src/sledrepository.rs:62-67 | removes just the account, or NoSuchAccount and no change |
| `Store.SledRepository.ListAccounts` | lib/src/sledrepository.rs:69-88 | every stored account exactly once and nothing that is not an account, in increasing order of ids |
| `Store.SledRepository.SetLatestTransaction` | lib/src/sledrepository.rs:90-98 | changes that pointer only, or NoSuchAccount and no change |
| `Store.SledRepository.SetLatestSynchronizedTransaction` | lib/src/sledrepository.rs:100-108 | changes that pointer only, or NoSuchAccount and no change |
| `Store.SledRepository.AddTransaction` | lib/src/sledrepository.rs:110-122 | one write under the transaction's own id |
| `Store.SledRepository.GetTransaction` | lib/src/sledrepository.rs:124-135 | the transaction in the account's log, or NoSuchTransaction with the id asked for |
| `Store.SledRepository.DeleteTransaction` | lib/src/sledrepository.rs:137-146 | removes just that transaction, or NoSuchTransaction and no change |
| `Chain.TransactionChain.Next` | lib/src/repository.rs:67-86 | ends at the empty id, steps to the parent, and repeats the same error on a missing transaction |
| `Chain.TrailFresh` | lib/src/repository.rs:67-86 | a walk that ends visits no transaction twice: parent links are acyclic along it |
| `Chain.CompleteUnique` | lib/src/repository.rs:67-93 | a head determines its complete chain, which repeats no id |
| `Chain.CollectSince` | lib/src/repository.rs:285-293 | newest first, exactly what lies above the base, everything when the base is not on the chain, or the id found missing |
| `Chain.SinceComplete` | lib/src/repository.rs:285-298 | on a complete chain, asking from any position returns exactly what follows it |
| `Chain.SinceElsewhere` | lib/src/repository.rs:285-298 | a base that is not on the chain does not end the walk: everything is returned |
| `Chain.SinceMissing` | lib/src/repository.rs:285-298 | a walk that comes to a missing transaction first fails with NoSuchTransaction of it |
| `Chain.CheckChainConsistency` | lib/src/repository.rs:95-111 | true exactly when each transaction but the first has the one before it as its parent |
| `Chain.WriteKeepsKeyed` | lib/src/sledrepository.rs:110-146 | every transaction stays stored under its own id |
| `Chain.Extend` | lib/src/repository.rs:262-266 | storing new consistent transactions on top of a complete chain gives a complete longer chain |
| `Chain.ReceiveAnswers` | lib/src/repository.rs:243-269 | the four answers to a push: nothing to do for an empty list, MustRebase for another first parent than the latest id, InconsistentChain for a broken link after the right first parent, otherwise acceptance, after which the account points to the last transaction, the list is stored and the rest of the log is as it was |
| `Chain.ReceiveTransactions` | lib/src/repository.rs:243-269 | NoSuchAccount, Ok for an empty list, MustRebase, InconsistentChain or Ok, in this order of precedence; every refusal leaves the store as it was |
| `Chain.GetChildTransactions` | lib/src/repository.rs:271-299 | what follows the base, oldest first; NoSuchTransaction with the base when it is not stored, even for an unknown account, and then NoSuchAccount |
| `Chain.ReceiveThenChildren` | lib/src/remote.rs:98-144 | after an accepted push on a complete chain, asking from any earlier id returns exactly the suffix after it, the push included |
| `Sync.CheckTransactionIdUniqueness` | lib/src/sync.rs:102-124 | fails exactly when some id is already stored, with the first such id |
| `Sync.RebaseTransactions` | lib/src/sync.rs:184-233 | the unsynchronized transactions renumbered on the new base, with their old ids in the same order |
| `Sync.Renumber` | lib/src/sync.rs:213-232 | new ids and parents for the whole list, oldest first, with the old ids in the same order |
| `Sync.CollectGarbage` | lib/src/sync.rs:94-97 | removes each old transaction once; none of the removals can fail |
| `Sync.InstallRebase` | lib/src/sync.rs:52-99 | stores everything received and renumbered, then the account, then removes the old transactions; an error in the local chain comes before any write |
| `Sync.RebaseLocalTransactions` | lib/src/sync.rs:6-100 | the account afterwards and the exact sequence of writes, or an error and no write at all |
| `Convergence.PullAnswers` | lib/src/sync.rs:6-45 | no request when the latest synchronized transaction is the server's latest; otherwise the server's error, such as NoSuchTransaction, is passed on; nothing of the account but its two pointers ever changes |
| `Convergence.RebaseAnswers` | lib/src/sync.rs:25-53 | to what it receives a client answers, in this order: InconsistentServerResponse for nothing, DuplicateTransactionId with the first id it knows, InconsistentChain for a broken link, the error of reading its own transactions, and otherwise Ok |
| `Sync.RebasedView` | lib/src/sync.rs:64-97 | net effect of those writes: everything received and renumbered is stored, the old transactions are gone, no other account is concerned |
| `Sync.PushLocalTransactions` | lib/src/sync.rs:136-169 | sends exactly the unsynchronized transactions and moves the synchronized pointer only when the server took them; other accounts on both sides stay untouched |
| `Convergence.PushAnswers` | lib/src/sync.rs:136-169 | a client without transactions of its own sends nothing; otherwise it gets MustRebase, and nothing changes, exactly when the server has moved on, and else both sides record the transactions |
| `Convergence.PushRefused` | lib/src/repository.rs:254-256 | when somebody else has pushed in between the push fails with MustRebase and nothing changes; it succeeds exactly when there is nothing to send or the server stands where the client synchronized |
| `Convergence.PushUnreadable` | lib/src/sync.rs:138-139 | a client that cannot read its own transactions sends nothing and reports the error |
| `Sync.Acknowledge` | lib/src/sync.rs:164-167 | the two account writes change nothing but the synchronized pointer |
| `Sync.Sync` | lib/src/sync.rs:126-170 | result and both replicas are those of a pull followed by a push; nothing of the two accounts but their pointers changes, and other accounts on both sides stay untouched |
| `Sync.SyncKeepsAccounts` | lib/src/sync.rs:90-92 | a synchronization changes nothing of the client's account but its two pointers, of the server's nothing but its latest transaction; a failing pull changes nothing at all |
| `Sync.CloneRemote` | lib/src/sync.rs:172-182 | one synchronization of a copy whose two pointers are empty, over whatever log the store already has for that id; the copy has the original's id, label and members whatever the outcome; other accounts on both sides stay untouched |
| `Convergence.RenumberedPayloads` | lib/src/sync.rs:213-230 | rebasing changes neither what was entered nor its order |
| `Model.PayloadIs` | lib/proto/flouze.proto:18-28 | the payload is everything of a transaction but its id and parent |
| `Convergence.RebaseConverges` | lib/src/sync.rs:22-99 | a client with prefix + own that receives unknown transactions ends with prefix + remote + renumbered own, complete, with the pointer at the end of remote |
| `Convergence.PullConverges` | lib/src/sync.rs:6-100 | pulling transactions the client does not know always succeeds |
| `Convergence.DuplicateRefused` | lib/src/sync.rs:29-36 | a client that knows the first transaction to receive refuses with DuplicateTransactionId, before any write |
| `Convergence.PushConverges` | lib/src/sync.rs:136-169 | pushing on top of the server's own chain leaves both sides with the same complete chain and pointers |
| `Convergence.SyncConverges` | lib/src/sync.rs:126-170 | with no interleaved push, from prefix + own and prefix + remote both sides end with prefix + remote + own, renumbered only if remote is not empty, and equal pointers |
| `Convergence.CloneConverges` | lib/src/sync.rs:172-182 | cloning succeeds, with the server's whole chain and an account equal to the server's but for a synchronized pointer at its latest transaction, exactly when the store holds none of its transactions; otherwise DuplicateTransactionId: the copy with empty pointers stays, and no transaction on either side changes |
| `Convergence.CloneAgainRefused` | lib/src/sledrepository.rs:62-67 | cloning an account, deleting it and cloning it again fails with DuplicateTransactionId |
| `Crash.InterruptedPullKeepsAChain` | lib/src/sync.rs:64-97 | after any prefix of the writes the stored account heads the whole old chain or the whole new one |
| `Crash.RetryFailsExactlyAfterPartialPuts` | lib/src/sync.rs:29-36 | the next pull, even if the server has moved on, fails exactly when some transaction but not yet the account was written, with DuplicateTransactionId of the first one |
| `Protocol.InitInv` | lib/src/sync.rs:172-180 | an empty server and blank clients satisfy the invariant |
| `Protocol.StepKeepsInv` | lib/src/sync.rs:6-170 | every step of every client, a pull stopped after any number of writes included, keeps it: the server chain is complete, each client holds a prefix of it plus its own transactions, and pending transactions are known to nobody else |
| `Runs.RunKeepsInv` | lib/src/sync.rs:6-170 | so does every run of any number of clients, in any interleaving |
| `Runs.ServerOnlyGrows` | lib/src/repository.rs:254-266 | over every run the server's chain only grows at its end |
| `Runs.SynchronizedIsPrefix` | lib/src/sync.rs:82-92 | in every reachable state each client's synchronized part is a prefix of the server's chain |
| `Protocol.PushAccepted` | lib/src/repository.rs:254-260 | a push is refused with MustRebase exactly when someone else pushed in between |
| `Protocol.PlaceStopped` | lib/src/sync.rs:64-79 | a pull stopped before the account is written leaves the client where it stood, knowing exactly the first of the server's new transactions |
| `Protocol.PlacePulled` | lib/src/sync.rs:64-97 | once the account is written, wherever the removals stop, the client stands at the end of the server's chain |
| `Runs.NothingLostOrRepeated` | lib/src/sync.rs:64-97 | in every reachable state, even with lost answers and stopped pulls, what a client entered is what the server has from it followed by those of its unsynchronized transactions the server does not have, in order |
| `Runs.EverythingIsSomewhere` | lib/src/sync.rs:64-97 | in every reachable state everything entered on all clients together is, as a multiset, what is on the server plus what is still to be sent |
| `Runs.AllSent` | lib/src/sync.rs:157-162 | everything on the server was sent by one of its clients |
| `Runs.EverythingArrives` | lib/src/sync.rs:162-167 | over every run in which the client learns of every acceptance, what it entered is what the server has from it followed by all its unsynchronized transactions, in order |
| `Runs.FetchFailsExactlyWhenBlocked` | lib/src/sync.rs:22-36 | a rebase fails exactly when the server's next transaction is one the client has stored, and then writes nothing |
| `Runs.LostAnswerBlocks` | lib/src/sync.rs:162-167 | an accepted push whose answer is lost leaves the client in that state |
| `Runs.LostAnswerHappens` | lib/src/sync.rs:162-167 | that state is reached from the start with one client, one transaction and one lost answer |
| `Runs.PartialPullHappens` | lib/src/sync.rs:64-71 | so is the same state by a pull that stops after its first write |
| `Runs.StuckForever` | lib/src/sync.rs:29-36 | from then on, whatever anybody does, nothing of that client reaches the server again and no synchronization changes its store |
| `Runs.BlockedExactly` | lib/src/sync.rs:29-36 | in every reachable state a client that is not about to record an acceptance is blocked exactly when it never learned of one or stopped a pull before the account |
| `Runs.BlockedByInterruption` | lib/src/sync.rs:64-97 | over every run from the start those two interruptions, and nothing else, block a client |
| `Runs.SyncSucceedsExactlyWhenUnblocked` | lib/src/sync.rs:126-170 | from any reachable state an uninterrupted synchronization succeeds exactly when the client is not blocked; both chains are then the server's old one followed by what the client had entered |
| `Runs.SyncIsARun` | lib/src/sync.rs:126-170 | what the sync method computes is a run of that client's steps with nobody in between |
| `Balance.BalanceSheet.Update` | lib/src/repository.rs:113-130 | posts every share, credits then debits, in order, and ignores persons who are not members |
| `Balance.PostAllNet` | lib/src/repository.rs:113-130 | posting changes each member's entry by the net of the updates and adds no entry |
| `Balance.GetFirstNonDeletedAncestor` | lib/src/repository.rs:132-152 | the first transaction down the superseded ids that is not a deletion, or NoSuchTransaction with the id that stopped the walk |
| `Balance.AncestorIsFirst` | lib/src/repository.rs:132-152 | a path along superseded ids whose transactions but the last are deletions leads to the result, which is not one, or to the id, empty or not stored, that the error names |
| `Balance.BalanceSheet.Account` | lib/src/repository.rs:165-178 | the updates one transaction of the chain causes, also when its original cannot be found |
| `Balance.GetBalance` | lib/src/repository.rs:154-181 | posts the updates of the whole chain to the zeros of all members and nobody else, or returns the first error on the way |
| `Balance.LedgerExactly` | lib/src/repository.rs:154-181 | there is no error exactly when the chain does not end at a missing transaction and every transaction can be accounted for |
| `Balance.LedgerError` | lib/src/repository.rs:154-181 | the error is that of the newest transaction that cannot be accounted for, or else NoSuchTransaction of the chain's missing end |
| `Totals.ContributionIs` | lib/src/repository.rs:113-130 | a transaction contributes to a person what they payed minus what was payed for them |
| `History.FlattenHistory` | mobile/lib/utils/transactions.dart:27-35 | the loop over one growing set computes the recursive filter |
| `History.FlattenKeeps` | mobile/lib/utils/transactions.dart:30-36 | visible are exactly the transactions that are neither deletions nor superseded by any transaction |
| `History.FlattenInOrder` | mobile/lib/utils/transactions.dart:30-36 | the filter picks transactions of the history and keeps their order |
| `History.OrderedAncestry` | lib/src/repository.rs:132-152 | when corrections name older transactions the ancestor walk ends, and it finds one whenever deletions say what they delete |
| `History.LedgerOk` | lib/src/repository.rs:154-181 | such a balance can be computed exactly when every deletion says what it deletes |
| `History.BalanceIsVisibleSum` | lib/src/repository.rs:154-181 | for any pattern of edits and deletions the balance is the sum over the visible transactions minus an exact term for what is subtracted more than once |
| `History.OneDeviceBalance` | mobile/lib/blocs/transaction.dart:283-320 | when a device only corrects visible transactions that term is 0 |
| `History.NoRepeatsIsOneDevice` | mobile/lib/blocs/transaction.dart:283-320 | nothing is subtracted twice exactly when each correction names a transaction visible when it was made |
| `History.BalanceAgreesExactlyOnOneDevice` | lib/src/repository.rs:154-181 | for somebody every transaction credits, balance and display agree exactly under that condition |
| `History.TwoDevicesDisagree` | lib/src/repository.rs:169-175 | two edits of the same transaction make the balance differ from the display by that transaction |
| `History.FlattenTwice` | mobile/lib/utils/transactions.dart:27-37 | filtering what was already filtered hides exactly what filtering the whole history with more ids seen would |
| `History.DisplayKeepsUp` | mobile/lib/blocs/transactions.dart:42 | a new transaction on top of what is shown, in any order, shows the same transactions as reading the whole history again |
| `Tracing.DeviceBalance` | lib/src/repository.rs:154-181 | get_balance on the complete chain of such a device gives each member the sum over the visible transactions |
| `Tracing.ChainBalance` | lib/src/repository.rs:154-181 | on a complete chain the balance can be computed exactly when every correction finds an original, and is then, member by member, the sum of what the transactions are worth one by one |
| `Tracing.AllTracedCovered` | lib/src/sync.rs:64-79 | transactions, renamed or not, that are accounted for in one log are so in any log that has what they supersede, and are worth the same there |
| `Rebalance.HistoryMoved` | lib/src/sync.rs:213-230 | for a history moved to a log from which ids have gone, every walk still ends, and the first one that fails names one of those ids |
| `Rebalance.RebasedBalanceOk` | lib/src/sync.rs:64-97 | after a pull that removed the first j old transactions (all of them when it completed) the balance can be computed exactly when it could be before, the chain received can be accounted for with what the client stores, and no own transaction supersedes one of those j; if only that is missing, NoSuchTransaction with one of their ids |
| `Rebalance.RebasedBalance` | lib/src/sync.rs:184-233 | each balance is then the server's plus what the client's transactions had contributed before |
| `Rebalance.ServerSuffices` | lib/src/sync.rs:64-71 | whatever the server can account for, a client that stores as much can, with the same balance |
| `Rebalance.RebaseIsRebasing` | lib/src/sync.rs:64-97 | a pull of unknown transactions, complete or stopped at any of the removals, is an instance of these results |
| `Tracing.SoundExactly` | lib/src/repository.rs:132-181 | when nothing superseded is stored outside the older part of the chain, that is so exactly when everything superseded is in it and every deletion says what it deletes |
| `Tracing.ComputableExactly` | lib/src/repository.rs:132-181 | in any store that can be arranged so that each transaction comes after what it supersedes, left-overs outside the chain included, the balance can be computed exactly when every correction of the chain supersedes an id that leads, past deletions, to a stored transaction |
| `Tracing.BrokenForGood` | lib/src/repository.rs:132-181 | a balance that cannot be computed never can be again, whatever the chain grows by, as long as no id that was superseded but missing turns up in the store |
| `Rebalance.PushedBalance` | lib/src/sync.rs:136-169 | after a push to a server that stores just its chain, nothing superseding a newer transaction, the server's balance can be computed exactly when everything superseded is on the chain and older and every deletion says what it deletes, and is then the client's |
| `Computable.CarefulBalances` | lib/src/sync.rs:6-170 | over every run in which clients only correct what they have synchronized, the balance can be computed on the server and on every client |
| `Computable.CarefulStep` | lib/src/sync.rs:6-170 | each step, stopped pulls and lost answers included, keeps every chain superseding only its own older transactions |
| `Computable.RebaseBreaksBalance` | lib/src/sync.rs:224-229 | a run from the start after which a rebase succeeds and the balance, computable on both sides until then, is not any more |
| `Computable.StoppedPullHidesIt` | lib/src/sync.rs:82-97 | a run from the start in which a pull stops while removing, the client can compute its balance, its next synchronization pushes, and the server then cannot |
| `Computable.CarefulShows` | lib/src/repository.rs:154-181 | over every run in which clients only correct what they have synchronized, each balance on the server is what the visible transactions contribute minus the exact term for repeated corrections |
| `Computable.TwoEditors` | lib/src/repository.rs:169-175 | a run from the start in which two clients edit the same transaction and that term is what it had contributed |
| `Corrections.KnownStart` | lib/src/sync.rs:172-180 | the start satisfies the invariant of the runs below |
| `Corrections.CorrectingStep` | lib/src/sync.rs:6-170 | when clients only correct transactions of their own chain, each step keeps: what is superseded on a chain is older there or can never get there again, and every store can be arranged so that each transaction comes after what it supersedes |
| `Corrections.CorrectingServer` | lib/src/repository.rs:132-181 | in every state of such runs the server's balance can be computed exactly when everything superseded is on its chain and older and every deletion says what it deletes |
| `Corrections.CorrectingClient` | lib/src/repository.rs:132-181 | in every state of such runs, on every client, also after interrupted pulls, computing the balance ends, and the exact condition for its success applies |
| `Corrections.CorrectingPull` | lib/src/sync.rs:64-97 | the exact condition for the balance after a pull, complete or stopped during the removals, applies to every pull of such runs |
| `Corrections.ServerStaysBroken` | lib/src/repository.rs:132-181 | once the server's balance cannot be computed, no continuation of such a run repairs it |
| `Totals.BalanceAddsUpToZero` | lib/src/repository.rs:113-181 | when stored transactions are balanced over the members every computable balance adds up to 0, for any edits, deletions and order |
| `Totals.BalanceFitsI64` | lib/src/repository.rs:113-181 | with fewer than 2^31 entries processed every intermediate value fits 64 bits, also on the way to an error |
| `Totals.SearchFitsI64` | lib/src/repository.rs:213-227 | no balance, amount or negated debt of the search leaves 64 bits if the initial balances fit |
| `Totals.PostAllTotal` | lib/src/repository.rs:113-130 | the total changes by the sum of the updates that fall on members |
| `Provenance.StepFaithful` | lib/src/sync.rs:64-97 | each step stores only what was stored before, received, renamed or just entered, and keeps the members |
| `Provenance.NothingInvented` | lib/src/sync.rs:6-170 | over every run every transaction stored on the server or on a client was entered by some client |
| `Provenance.AccountsStay` | lib/src/sync.rs:90-92 | over every run nothing of an account changes but what it points to |
| `Provenance.EveryRunCanBeSettled` | lib/src/repository.rs:113-241 | over every run in which everything entered is balanced over the members, each balance that can be computed adds up to 0 and has a plan that leaves everybody even |
| `Cli.SplitAmount` | cli/src/main.rs:191-203 | the parts add up to the amount, differ by at most one, and larger ones come first |
| `Cli.SeqShuffle` | cli/src/main.rs:205-212 | the swaps for the drawn places, from the last item down, which keep the items |
| `Cli.EveryOrderIsPossible` | cli/src/main.rs:205-212 | every arrangement of the items is reached by some draw |
| `Cli.FoundMember` | cli/src/main.rs:184-189 | the first member with the name is found, and none exactly when nobody has it |
| `Cli.FindAccountByLabel` | cli/src/main.rs:177-182 | the first account with the label in the order of ids, and none exactly when there is no such account |
| `Cli.AddTransaction` | cli/src/main.rs:291-351 | for the first account with the label: one share of the whole amount for the named payer, one share for each member in turn with parts that add up to the amount and differ by at most one, the given time, on top of the stored latest id, stored and then pointed to; without such an account or payer, no change |
| `Cli.EntryBalanced` | cli/src/main.rs:315-346 | such an entry is balanced over the members |
| `Cli.EntryCharges` | cli/src/main.rs:191-203 | with distinct member ids an entry changes each balance by what they payed, all or nothing, minus the n-th part of the amount rounded down or up |
| `Cli.EntryView` | cli/src/main.rs:348-351 | those two writes are the append step of the protocol |
| `Cli.EntriesStayPlain` | cli/src/main.rs:291-351 | any number of entries keeps the chain complete, balanced and free of corrections |
| `Cli.RunsCanBeSettled` | cli/src/main.rs:469-495 | after any run of entries into a new account the balance can be computed, adds up to 0, there is a plan, and every plan leaves everybody even |
| `Cli.PlanExactlyWithoutSurplus` | lib/src/repository.rs:235-241 | without corrections a plan exists exactly when members have not payed more than was payed for members |
| `Cli.NoPlanHappens` | lib/src/repository.rs:240 | one stored transaction payed for nobody leaves a balance without a plan, so that the unwrap panics |
| `Cli.Settle` | cli/src/main.rs:469-495 | the balance's error, or a plan that leaves nobody to reimburse and is the shortest there is; when stored transactions are balanced there always is one and everybody ends at 0 |

## Left out

- JSON-RPC client and server, logging, the FFI layers and the Flutter pages: plumbing and user interface. Each call to
  the server is one atomic step, as the lock around the repository makes it.
- Protobuf encoding and the internals of sled: encoding is the identity, one insertion or removal is atomic, and a storage
  error is only a stop between two writes; `flush` does nothing.
- Walks that never end: cycles of parents or of superseding deletions are excluded by preconditions, see above.
- That generated ids are unused: assumed by the convergence and protocol results, not by the methods.
- `PayedBy` and `PayedFor` messages have the same fields and share one record type.
- A client of the protocol enters nothing between the calls of its own synchronization.
- Cli.AddTransaction: takes the clock, the new id and the random draws as parameters.
- History.FlattenHistory: leaves out the final sort by timestamp; `DisplayKeepsUp` holds for any order.
- The parent the mobile app gives a new transaction is its cached latest id, which can be out of date after a
  synchronization; the model appends to the stored latest id as the command line does.
- Parsing and formatting amounts as floating-point numbers, and validation of accounts and persons.
- The quality of randomness: every fresh id and every draw is allowed.
