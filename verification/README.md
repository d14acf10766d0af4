# A model of the word store, the coin ledger and three small protocols

The back end serves an editorial word list, a platform currency and the accounts around them.
This project models the parts of it where state changes in ways that are hard to see from one
function, and states what they guarantee.

- **Word entries.** An entry is a tree spread over ten child tables. `SaveTree` turns a body into
  row statements: lock and compare the token, split ids into kept, new and gone, delete with
  cascades, upsert parents first, then resolve relations in a second pass. `WordTables`,
  `WordStore`, `WordSave` and `WordRepository` follow those statements; `WordReplace` says what they
  amount to, and `WordSaveProof` that they do. `WordRead`, `WordQuery` and `WordRoundTrip` are the
  way back: the rows of a saved body load as that body's tree. `WordInvariant`, `WordFrame`,
  `WordSaveInvariant` and `WordWrites` hold what every write keeps and what other entries see of it;
  `WordSaved` and `WordLinks` say it of the loaded trees, place by place, and `WordChecks` of the
  columns. `WordValidation` and `WordPublish` set the loops of validation and of the publish rules
  against declarative statements, `WordTidy` says what validation does to a body it accepts; `WordEcho` sends a loaded entry back; `WordService` interleaves saves and
  publishes at their store calls, `WordTenth` and `WordTenthRun` say what such a save can do to another
  entry's rule V10, and `WordRequests` runs them as single calls.
- **Coins.** `CoinLedger` is the append-only ledger with its derived wallets. `CoinMachine` runs any
  number of posts and reversals a statement at a time, under the row locks and unique indexes of
  PostgreSQL at READ COMMITTED; `CoinRuns` states what holds in every run, including that no set of
  transactions can deadlock. `CoinRace` is a race for one key, and `CoinStore` has the same
  operations as methods on one ledger.
- **Protocols.** `AdminGuard` (the last active super admin), `Otp` (rate limits and lockout) and
  `Session` (refresh-token rotation).
- **Text.** `LikePattern` (escaping for LIKE) and `Frequency` (percent values kept as strings).

Rows of the ten tables live in one map keyed by table and id, because each table has its own
primary key. Every call of the word store is one transaction. Tokens (`updated_at`) are taken to be
new at each write, as are ids the server creates.

Where code and comments differ, the code is followed. `SetStatus` on its own does not keep the last
active super admin: a disable that passes its check while there is none can still take away one that
is promoted before the update (`AdminGuard.PromotedThenDisabled`). Disables that pass their check
while there is one never do, and only those (`AdminGuard.KeptWhenSeen`, `AdminGuard.LostWhenUnseen`).
The back office meets that condition, because a disable is requested with a super admin's token
(internal/platform/httpserver/router.go:153-159), so its runs keep the last active super admin:
`AdminGuard.LastSuperAdminStays`. Rule V10 (a live related word needs a picked sense) is
checked at publish time only: `WordService.TenthAfterSave` says exactly when another entry's save
leaves it standing, `WordTenth.TenthCanBreak` which entries can lose it that way, and
`WordTenthRun.PublishedLosesTenth` is a run in which a published entry does. A post whose idempotency
key has been booked meanwhile can still fail, because the wallet changes before the key is inserted:
`CoinRuns.LatePostYields` says exactly when, and `CoinRace.LoserRefused` is the run.

## Model

| member | source | states |
|---|---|---|
| WordRepository.Repository.SaveTree | internal/word/repository.go:447-662 | all or nothing: succeeds exactly when the token matches, every kept id survives the deletes, every new id is free and every relation target is live; then the entry loads as sent, every other entry stands as it was but for links to what is gone, and otherwise nothing changes and the error names a true obstacle, never an internal one |
| WordRepository.TreeUpserter.ExecNode | internal/word/repository.go:664-698 | one UPDATE or INSERT per node with the first error latched: a kept id that a cascade removed, a new id that is taken, a broken reference |
| WordRepository.TreeUpserter.ExecTree | internal/word/repository.go:516-598 | the first pass runs one statement per node, parents first, and stops at the first error |
| WordRepository.TreeUpserter.ExecRelation | internal/word/repository.go:612-647 | the three kinds of relation: orphan frozen, live word without a sense keeps its gloss, live sense refreshes headword and gloss |
| WordRepository.TreeUpserter.ExecAllRelations | internal/word/repository.go:600-655 | the second pass, stopping at the first error |
| WordRepository.TreeUpserter.Lookup | internal/word/repository.go:770-801 | a target resolves exactly when the word exists and owns the sense, to its headword and the sense's gloss |
| WordRepository.CollectIncomingIDs | internal/word/repository.go:720-762 | exactly the ids of the body's nodes, per table |
| WordRepository.ScopeIds | internal/word/repository.go:406-430 | exactly the rows that hang off the word, in all ten tables |
| WordRepository.DeleteGone | internal/word/repository.go:432-438 | deleting table by table in this order has the effect of one delete with all cascades |
| WordStore.DeleteTwice | internal/platform/database/migrations/000018_create_words.up.sql:43-177 | two deletes with their cascades and SET NULL actions are one delete of both sets |
| WordPasses.RunStatic | internal/word/repository.go:516-598 | the first pass goes through exactly when every id is where the save expects it, and leaves each node's row once |
| WordPasses.RunRels | internal/word/repository.go:600-650 | the second pass goes through exactly when each relation also resolves, against the rows between the passes |
| WordSaveProof.MidSense | internal/word/repository.go:600-603 | between the passes a sense belongs to a word exactly when it does after the save, so relations may point at senses of the same body |
| WordSaveProof.RunMeaning | internal/word/repository.go:497-650 | the statements of a save carry out the replacement, or fail for a reason that holds |
| WordReplace.CanSaveExactly | internal/word/repository.go:454-647 | a save goes through exactly when the token is the entry's, each id is free or the entry's own with everything above it still in the body, and each relation points at a live word and its sense or is an orphan the entry had |
| WordBody.FirstPassClosed | internal/word/repository.go:516-598 | in a valid body every parent, group and structure is written before whatever refers to it |
| WordBody.DistinctRows | internal/word/service.go:318-333 | in a valid body no row is written twice by either pass |
| WordTables.PassesAreDoc | internal/word/repository.go:516-650 | the two passes together visit every node of the body once |
| WordGloss.FirstGloss | internal/word/repository.go:765-768 | the first row by (not Chinese, sort order), one row at a time |
| WordGloss.GlossMeaning | internal/word/repository.go:765-768 | that row is the sense's first Chinese definition, or else its first definition |
| WordQuery.LoadTree | internal/word/repository.go:121-400 | ordered queries grouped by parent yield the whole tree, nesting and order included, or nothing for an unknown word |
| WordQuery.GroupIsKids | internal/word/repository.go:168-223 | a group of an ordered query is the parent's list of children, in place |
| WordSaveInvariant.RoundTrip | internal/word/repository.go:121-662 | saved then loaded is the body's tree: same nodes, nesting and order, audio kept by id and silent on new ids, relation targets as resolved |
| WordSaved.SavedThenLoaded | internal/word/repository.go:516-662 | the loaded tree, place by place: content as sent, audio of kept ids and none on new ones, and the three kinds of target with current headword and first Chinese gloss |
| WordSaveInvariant.OthersUntouched | internal/word/repository.go:497-514 | every other entry reads the same after a save, but for links to senses that are gone |
| WordSaveInvariant.OwnerKept | internal/word/repository.go:676-719 | a row that survives a save stays with its entry |
| WordSaveInvariant.SaveKeepsWF | internal/word/repository.go:440-662 | every save keeps the store a forest with ordered children, references inside their entry, links to living owners, and valid entries |
| WordLinks.SaveStands | internal/platform/database/migrations/000018_create_words.up.sql:164-177 | the same for the save of another entry |
| WordRepository.Repository.Create | internal/word/repository.go:29-46 | an empty draft, unless headword and kind are taken |
| WordRepository.Repository.GetTree | internal/word/repository.go:121-400 | the tree the store holds, or nothing |
| WordRepository.Repository.SetStatus | internal/word/repository.go:48-72 | flips status and token exactly when the token matches |
| WordRepository.Repository.Delete | internal/word/repository.go:74-86 | removes the entry and exactly its rows, or reports that it is not there; other trees keep all but links to what is gone, snapshots included |
| WordRepository.Repository.DeleteMany | internal/word/repository.go:87-95 | removes the entries that exist, exactly their rows, and counts them; other trees as for Delete |
| WordLinks.DeleteStands | internal/word/repository.go:74-95 | every other tree is the same place by place, headword and gloss of links included; a word or sense link is gone exactly when what it names is |
| WordWrites.DeletedLink | internal/word/service.go:503-511 | a link whose word goes loses its sense too, so a sense link never stands without its word link |
| WordWrites.DeleteKeepsWF | internal/word/repository.go:74-95 | every delete keeps the store well-formed |
| WordWrites.CreateKeepsWF | internal/word/repository.go:32-37 | the row that an accepted create inserts is a valid empty draft and no other entry changes |
| WordWrites.StatusKeepsWF | internal/word/repository.go:54-56 | the update of a flip whose token matches changes the status and the token of one entry and nothing else |
| WordTidy.ValidateTree | internal/word/service.go:289-522 | the result is the one valid body, if there is one, that is the input tidied: white space stripped, percents of the same value, a missing style normal, missing marks empty, all else as sent |
| WordTidy.TidiedExactly | internal/word/service.go:289-522 | no other body could be called the input tidied and be valid |
| WordChecks.NodeColumns | internal/platform/database/migrations/000018_create_words.up.sql:43-177 | no node of a valid body violates a CHECK of its table |
| WordChecks.StoreAlwaysChecked | internal/platform/database/migrations/000018_create_words.up.sql:14-177 | in every reachable state every column is within its CHECK or vocabulary |
| WordValidation.AllowedDialects | internal/word/service.go:524-556 | exactly the legal dialect settings, uk before us |
| WordValidation.ClaimsExact | internal/word/service.go:318-333 | claiming ids one by one succeeds exactly when they are present, unique over the whole body and within the limit |
| WordModel.ValidateText | internal/word/model.go:216-244 | version, size and marks within bounds |
| WordPublish.PublishViolations | internal/word/service.go:566-653 | reports a rule exactly when it is broken; empty exactly when V1 to V10 all hold |
| WordPublish.OneBaseCounted | internal/word/service.go:582-593 | the count is one exactly when there is exactly one base form for the dialect |
| WordEcho.ValidNormalized | internal/word/service.go:289-522 | normalizing a valid body changes nothing but the snapshots of its relations |
| WordEcho.LoadedKeys | internal/word/repository.go:121-400 | a loaded tree carries exactly the rows of its entry |
| WordEcho.EchoSaves | internal/word/service.go:165-190 | a loaded entry sent back with its token is valid and is saved; only the token and the glosses of live senses change, and no other entry changes |
| WordService.PublishedEcho | internal/word/service.go:173-177 | a complete entry sent back passes the publish check exactly when V10 holds |
| WordService.StepKeeps | internal/word/service.go:165-214 | every step of interleaved saves, publishes, creates and deletes keeps the invariant |
| WordService.PublishedAlwaysComplete | internal/word/service.go:165-214 | in every state of every interleaving each published entry satisfies V1 to V9 |
| WordService.WritesChain | internal/word/repository.go:48-72 | successful saves and flips of an entry form a chain, each based on the one just before it |
| WordService.StoreAlwaysWellFormed | internal/word/repository.go:440-662 | the store is well-formed in every reachable state |
| WordService.ReferencesAlwaysInside | internal/word/repository.go:600-650 | in every reachable state every row hangs off an entry, a sense's group is of its entry, a definition's structure of its pos, and a link to a sense goes with a link to the word that owns it |
| WordService.OwnerNeverChanges | internal/word/repository.go:440-446 | while a node's row exists, its owning entry never changes |
| WordService.TenthAfterSave | internal/word/service.go:645-648 | V10 of an entry survives another entry's save exactly when that save deletes none of the senses it picked |
| WordTenth.TenthCanBreak | internal/word/service.go:645-648 | of the entries that meet V10, other entries' saves can take it away from exactly those that pick a sense of the saved entry |
| WordTenth.EmptyingBreaks | internal/word/repository.go:497-514 | saving the related entry without its tree is one such save |
| WordTenthRun.PublishedLosesTenth | internal/word/service.go:165-214 | a run from the empty store in which an entry published with every rule met stops meeting V10, untouched and still published |
| WordRequests.Service.Save | internal/word/service.go:162-190 | saves exactly the bodies that are valid, publishable if the entry is published, and storable; returns the tree as served, or the error that applies, with the broken rules or the store's reason; published entries stay complete |
| WordRequests.Service.Publish | internal/word/service.go:192-214 | publishes exactly when every rule holds, changing only status and token, and otherwise lists exactly the broken rules |
| CoinLedger.AppendKeeps | internal/coin/repository.go:231-270 | a row that fits keeps ledger and wallets in step |
| CoinLedger.ChangedExactly | internal/coin/repository.go:235-256 | a change goes through exactly when the owner's rows with it sum to at least 0 and fit a bigint, and is short exactly when they sum to less than 0 |
| CoinLedger.SumIsLive | internal/coin/repository.go:90-157 | a balance is the sum of the rows that are neither reversed nor reversals |
| CoinLedger.ReversedOnce | internal/platform/database/migrations/000019_create_coin_wallet_ledger.up.sql:41-43 | a row is reversed at most once, and no reversal is reversed |
| CoinMachine.StepKeeps | internal/coin/repository.go:47-157 | every statement of every transaction keeps ledger, wallets and locks consistent |
| CoinRuns.WalletsAlwaysDerived | internal/coin/repository.go:231-256 | in every interleaving a wallet is the sum and count of its owner's rows, and never negative |
| CoinRuns.RowsAlwaysExact | internal/coin/repository.go:258-270 | balance_after is the prefix sum, amounts are in range, bookings carry their type's sign and reversals the opposite |
| CoinRuns.WalletAlwaysDecides | internal/coin/repository.go:235-256 | the same in every interleaving, for posts and reversals |
| CoinRuns.GrowthIsBooking | internal/coin/repository.go:66-157 | the ledger grows only by the row a transaction was asked for, with its owner's wallet and no other |
| CoinRuns.AnswersAreTrue | internal/coin/repository.go:47-157 | whatever answer a post or reversal ends with is true of the ledger at that moment |
| CoinRuns.ReversalsAlwaysExact | internal/coin/repository.go:95-157 | a reversal is for the same owner, the exact opposite, after its original and at most once |
| CoinRuns.KeyBooksOnce | internal/coin/repository.go:43-82 | at most one row per idempotency key in every interleaving |
| CoinRuns.RetryReturnsOriginal | internal/coin/repository.go:54-65 | a retry after the first commit gets that booking and changes nothing |
| CoinRuns.LatePostYields | internal/coin/repository.go:54-84 | whatever a post has done when its key gets booked, it books nothing any more; it ends with that booking, except that its wallet change fails exactly when the balance falls short or overflows |
| CoinRace.LoserRefused | internal/coin/repository.go:54-84 | the run in which two identical debits race, one books, and the other ends with ErrInsufficientBalance |
| CoinRuns.BooksOnlyGrow | internal/coin/repository.go:258-270 | the ledger is append-only |
| CoinRuns.WaitsUpwards | internal/coin/repository.go:54-153 | a waiting transaction holds only lower locks than the one it waits for: row, wallet, key |
| CoinRuns.NoDeadlock | internal/coin/repository.go:54-153 | the wait-for graph has no cycle |
| CoinRuns.SomeoneCanStep | internal/coin/repository.go:54-153 | while a transaction is in flight some transaction can execute its next statement |
| CoinStore.Repository.Post | internal/coin/repository.go:37-88 | a known key returns its row; otherwise one row and one wallet change, or nothing |
| CoinStore.Repository.Reverse | internal/coin/repository.go:90-157 | books the opposite of one reversible row exactly when the wallet allows it, or changes nothing and gives exactly the error that applies |
| CoinStore.Repository.GetWallet | internal/coin/repository.go:159-174 | the derived balance, zero without activity |
| CoinStore.Service.Post | internal/coin/service.go:53-77 | exactly which postings are refused; the others return the booking of a known key, or are booked with their sign exactly when the wallet allows it |
| AdminGuard.LastSuperAdminStays | internal/admin/repository.go:141-192 | in every interleaving of the back office, from any accounts, once there is an active super admin there always is |
| AdminGuard.KeptWhenSeen | internal/admin/repository.go:166-186 | disables that pass their check while there is an active super admin never take the last one away |
| AdminGuard.LostWhenUnseen | internal/admin/repository.go:166-186 | a disable that passes while there is none has a continuation that takes the only one away |
| AdminGuard.RefusesOnlyTheLast | internal/admin/repository.go:171-186 | a disable passes its check exactly when the account is known and not the only active super admin |
| AdminGuard.SafeStays | internal/admin/repository.go:141-192 | whatever happens, a disable past its check leaves another active super admin |
| AdminGuard.ActiveSuperForever | internal/admin/repository.go:141-192 | from a state where every disable past its check leaves one, there is an active super admin in every state of every run |
| AdminGuard.GuardExact | internal/admin/repository.go:141-192 | all runs from a state keep an active super admin if and only if there is one and no disable past its check is aimed at the only one |
| AdminGuard.PromotedThenDisabled | internal/admin/service.go:178-201 | without the token check of the route: the run in which a promotion between check and update loses the only active super admin |
| AdminStore.Repository.SetStatus | internal/admin/repository.go:133-192 | refuses exactly the disabling of the last active super admin |
| AdminStore.SeedSuperAdmin | internal/admin/service.go:167-202 | the phone's account is an active super admin afterwards, others are unchanged, and repeating it changes nothing |
| Otp.Service.RequestCode | internal/otp/service.go:75-129 | stores a fresh code exactly when none was created in the cooldown and fewer than the limit in 24 hours |
| Otp.Service.Verify | internal/otp/service.go:131-163 | the right secret consumes the newest unconsumed code, if unexpired and not locked; a wrong one adds one attempt to it; nothing else ever changes |
| Otp.CooldownHolds | internal/otp/service.go:106-118 | codes for one target and purpose are more than the cooldown apart |
| Otp.DailyLimitHolds | internal/otp/service.go:119-127 | every window of 24 hours, wherever it starts, holds at most the daily limit |
| Otp.AcceptedOnce | internal/otp/service.go:146-162 | a code is accepted at most once, compared in vain at most five times, and never accepted once it has been |
| Otp.AcceptanceMeans | internal/otp/service.go:133-163 | every call of a run is accepted if and only if it gave the secret of the code then due: the newest not accepted, issued at most ttl ago, compared in vain fewer than five times |
| Otp.GuessesBounded | internal/otp/service.go:29-32 | the submitted secrets compared in vain are at most five per code issued |
| Session.Service.Issue | internal/session/service.go:70-78 | a login leaves the user with the new token only |
| Session.Service.Rotate | internal/session/service.go:80-104 | trades a token in exactly when it is known, not revoked and not expired, for a new one of the same user |
| Session.Service.Revoke | internal/session/service.go:106-120 | revokes the token if it is known |
| Session.SingleDevice | internal/session/service.go:9-11 | a user never has two tokens that are not revoked |
| Session.RevokedForGood | internal/session/repository.go:54-63 | a token once revoked never works again |
| Session.ExchangeExact | internal/session/service.go:80-104 | in a run a token can be exchanged exactly while it is not revoked and was handed out at most ttl ago, for its user |
| Session.ExchangedWasGranted | internal/session/service.go:80-104 | whatever is exchanged was handed out before, and at most ttl ago |
| Session.RotationSpends | internal/session/service.go:80-104 | a token that was traded in never works again in the run |
| Session.LoginSpends | internal/session/service.go:70-78 | no token the user had before a login works again in the run |
| Session.ChainKeepsUser | internal/session/service.go:80-104 | every rotation of a chain yields the user of its login |
| LikePattern.SubstringPatternExact | internal/word/repository.go:1022-1031 | the substring pattern matches exactly the texts that contain the input |
| LikePattern.PrefixPatternExact | internal/word/repository.go:1022-1027 | the prefix pattern matches exactly the texts that start with the input |
| LikePattern.ILikePatternsExact | internal/word/repository.go:816-825 | the same over a case fold that fixes the three metacharacters |
| Frequency.AcceptsExactly | internal/word/model.go:453-471 | accepts exactly the decimals of at most 3 and 6 digits with value at most 100 |
| Frequency.KeepsValue | internal/word/model.go:453-471 | the result denotes the input's value |
| Frequency.SameStringIffSameValue | internal/word/model.go:447-471 | two accepted inputs give one string exactly when their values are equal |
| Frequency.Idempotent | internal/word/model.go:453-471 | normalizing twice is normalizing once |
| Frequency.ScanDigits | internal/word/model.go:473-480 | the scan accepts exactly the strings of digits |

## Left out

- WordTidy.ValidateTree: the source rewrites the body in place as it checks it; here the checks run on the body and the rewritten body is a function of it, so a body rejected half way through is not left half rewritten.
- WordRepository.Repository.SaveTree: one save is one step; statements of two saves of different entries do not interleave, and a target that vanishes between its lookup and the insert (the concurrent case of ErrBadTargetRef) does not occur.
- WordRepository.Repository.Create: lower() is a map on single characters, and created_at is not kept.
- WordService.PublishedAlwaysComplete: claims V1 to V9; V10 is not kept by other entries' saves, see WordService.TenthAfterSave.
- WordPublish.PublishViolations: reports which rules are broken, not one line per place.
- WordEcho.EchoSaves: NUMERIC columns hold the canonical six-decimal string.
- CoinRuns.RetryReturnsOriginal: claims the original only for a lookup after the commit; what a post that is already past its lookup can get is CoinRuns.LatePostYields.
- AdminGuard.LastSuperAdminStays: a super admin token is only ever given to an active super admin, at that time or before; the signing of tokens is not modelled. Demotion through SetLevel is not a step, because no service operation demotes.
- Otp.AcceptedOnce: Verify is a lookup followed by an update without a transaction; its run properties are for calls one after the other.
- Session.SingleDevice: Rotate and Issue are several store calls; their run properties are for calls one after the other, with fresh tokens and an injective hash.
- Part-of-speech and dialect duplicates are looked for in loops of their own before the nodes are visited; the set of accepted bodies is the same.
- Surrounding white space of sub_pos values is not kept apart; enumerations are datatypes with one constructor for every other string.
- PostgreSQL rejects a LIKE pattern that ends in a lone escape character; such a pattern matches nothing here and is never built.
- U+0000, which PostgreSQL rejects in text and jsonb: a body that contains it is stored here.
- Audio columns are only read and kept, because no writer of them exists; their CHECK is not modelled.
- Content of rich text beyond bounds, JSON encoding, UTF-16 conversion, error message wording.
- Listing, filters, statistics, related search, batch-delete limits, wallet and ledger paging.
- HTTP, configuration, logging, bcrypt, JWT, random generation, the publish hook, audio writers and withdrawals.
