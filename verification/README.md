# A verified model of the captcha inspector's stateful kernels

The program decides whether a web request must solve a captcha, keeps the state that decision needs, and
checks the answers. This project models the parts of it whose correctness is not visible in any one
function, and proves what they promise over every input, run or interleaving.

| file | what it models |
|---|---|
| `Bytes.dfy`, `Net.dfy`, `Seqs.dfy` | fixed-width integers on the wire, addresses and prefixes, filtered sequences |
| `Wafs.dfy` | the object format of live lists: the reader, and the layout it implies |
| `Composition.dfy` | one dataset's members, its prefix index and its incremental hash |
| `Mirror.dfy` | the live-list replica: snapshots, packages, batched reads, under any network |
| `Queue.dfy`, `PoolProtocol.dfy` | the deadline queue in place, and its threads as a state machine |
| `Buckets.dfy`, `BucketStore.dfy` | leaky buckets in memory and in Redis, against a plain leaky bucket |
| `Roster.dfy` | the in-memory roster against the log of calls made to it |
| `Tickets.dfy` | checks of answered challenges, interleaved, and the burning of nonces |
| `Asked.dfy`, `Decide.dfy` | what earlier inspectors ask for, and the decision itself |
| `AuditSink.dfy` | the audit buffer and its batches |
| `Wav.dfy` | the WAV reader and writer |

Code that works by changing things step by step is modelled by classes and methods with loops; each method
is proved equal to a specification function of the old state, and the theorems are lemmas about those
functions and about whole runs of them. Whatever lies outside (the network, Redis, clocks, providers,
sealing, SipHash) is a parameter, so every theorem holds for all of its behaviours.

Main results:

- **Replica.** Whatever frames are dropped, repeated, reordered or stale, and whatever authentic object stands
  under a key (packages of an older epoch included), a ready mirror holds, at every moment it can be asked,
  exactly the keeper's members, expiries and reasons at the mirror's own epoch and number, and answers queries as
  the keeper's set would (`Mirror.MirrorEqualsKeeper`, `Mirror.EverySeenAgrees`, `Mirror.AnswersAsKeeper`). A catch-up
  that meets a missing or foreign package skips nothing and attempts a snapshot (`Mirror.StopsAtGap`). And it gets
  there: what every kind of frame does is exact (`Mirror.FrameCatchesUp` and those beside it), and after any run two
  ticks heard while the store serves bring the mirror to the keeper's set (`Mirror.TwoTicksReach`).
- **Queue.** In every interleaving no wake-up is lost although an enqueue only signals, every task is in one
  place and answered at most once, the counters add up, and tasks are served in order of arrival less the
  expired, each evaluated if it still has the time (`PoolProtocol.NoLostWakeUp`, `NothingLostOrDoubled`, `AfterClose`,
  `ServedInOrder`, `TakenIsEvaluated`).
- **Buckets.** The ledger, the Redis form and a plain leaky bucket report the same levels for every sequence of
  calls; with evictions the ledger only reports less (`Buckets.StoresAgree`, `Buckets.LedgerNeverOver`), and so does
  the store's own code over any run of calls (`BucketStore.Store.Serve`).
- **Tickets.** In any interleaving, a second clearance for one ticket can only be burned after the ticket has
  expired, so a check that opens and burns at one clock reading is never a second one
  (`Tickets.SecondGrantIsLate`); exactly when a burn is granted is `Tickets.GrantedIff`.
- **Decision.** Every code, trigger and answer has its exact condition (`Decide.WhyUnopened`, `Decide.WhyChallenged`,
  `Decide.AnswerEnforced` and those beside it). Observing and enforcing agree on trigger, findings, event and next
  step; the verdict that observing notes is the enforced one under an exact condition; inspectors no rule names can
  only add a challenge (`Decide.ModesAgree`, `Decide.WouldBeExact`, `Decide.UnnamedOnlyRaise`).

Where the code does not do what one might expect, the model keeps the code's behaviour and says when:

- The ticket's expiry is checked when the ticket is opened, the nonce burned after the provider has answered.
  Between the two readings time passes, so one ticket can be cleared twice when the provider of a late second
  check is slow (`Tickets.SlowCheckGrantsTwice`). `Tickets.GrantedIff` is the exact condition: a burn is granted
  if and only if every earlier clearance for the nonce is at least one lifetime old.
- A fingerprint banned for collecting clearances is let in again before the clearance that brought the ban has run
  out, if a check that was already past its own ban step is granted a shorter one
  (`Tickets.ShorterGrantLiftsBan`); `Tickets.FarmedIsBanned` says exactly how long the ban lasts.
- `would_verdict` differs from the enforced verdict for a navigation whose form is shown in place or whose
  ticket cannot be sealed, and only then (`Decide.WouldBeExact`, `Decide.NotedOtherwise`).
- What `encodeWav` writes reads back the same if and only if the rate and twice the number of samples fit 32 bits
  and the rate is not zero (`Wav.ReadBack`).
- A prefix is found by the addresses it covers if and only if it was stored with its host bits cleared
  (`Composition.HostBitsHide`).
- After a snapshot whose hash cannot be reproduced a mirror does not resync until a frame of another epoch
  (`Mirror.BadSnapshotSticks`); the equality with the keeper is proved for honest keepers, whose hashes always can.

## Model

| member | source | states |
|---|---|---|
| Bytes.LittleOfNumber | internal/livelist/wafs.go:141-163 | a number that fits k little-endian bytes is read back from them |
| Bytes.BigOfNumber | internal/livelist/wafs.go:111-130 | a number that fits k network-order bytes is read back from them |
| Bytes.BigFour | internal/livelist/wafs.go:111-119 | in network order the first of four bytes counts most |
| Bytes.BigSplit | internal/livelist/wafs.go:120-130 | of a longer one, the later bytes count what they count alone |
| Net.CoversRange | internal/livelist/livelist.go:173-192 | a prefix covers the addresses of its family from its own with the host bits cleared on, two to the power of its host bits of them |
| Net.Sizes | internal/livelist/livelist.go:173-192 | each bit less doubles what a prefix covers, from one address up to all there are |
| Net.UnmapMeans | internal/livelist/livelist.go:173-174 | an address that begins with eighty zero bits and sixteen ones stands for the IPv4 address in its last bits; every other for itself |
| Net.CoversIffOwnPrefix | internal/livelist/livelist.go:173-192 | a masked prefix covers an address exactly when it is the prefix of its length computed from the address, so a map lookup decides it |
| Net.OwnPrefixCovers | internal/livelist/livelist.go:173-192 | the prefix looked up for an address is masked and covers the address |
| Wafs.ReadNet | internal/livelist/wafs.go:95-156 | the cursor's reading of a CIDR record at any position is the record found at the front of what is left, every read in bounds |
| Wafs.ReadText | internal/livelist/wafs.go:95-172 | the same for a string record, with its reason only under the flag |
| Wafs.ReadRecord | internal/livelist/wafs.go:95-174 | the record kind follows the header's type; any other type is an error |
| Wafs.ReadRecords | internal/livelist/wafs.go:89-177 | the loop reads exactly as many records as the header counts, each where the last ended |
| Wafs.Unpack | internal/livelist/wafs.go:65-178 | the reader computes the declarative reading of the object on every byte string, with the same error at the same place |
| Wafs.UnpackOfEncode | internal/livelist/wafs.go:65-178 | reading inverts the layout for every well-formed header and record list of either type; trailing bytes are ignored |
| Wafs.TruncationRefused | internal/livelist/wafs.go:65-178 | every proper prefix of an encoded object is refused as truncated |
| Wafs.AcceptedIsEncoding | internal/livelist/wafs.go:65-178 | an accepted object begins with the encoding of what was read from it |
| Wafs.DecodeBytes | internal/livelist/wafs.go:65-92 | an object is refused as truncated short of its header, then for its first four bytes, then for its version; past them it is as good as its records |
| Wafs.HeadBytes | internal/livelist/wafs.go:80-87 | every header field by position, numbers with their least significant byte first |
| Wafs.NetBytes | internal/livelist/wafs.go:95-130 | a CIDR record byte by byte, of either family, with each way it can be refused |
| Wafs.TextBytes | internal/livelist/wafs.go:131-172 | a string record byte by byte, with and without a reason, and each way it can be refused |
| Wafs.OtherBytes | internal/livelist/wafs.go:95-150 | a record that is missing is a truncation, one of an unknown set type an error that names it |
| Wafs.FirstBadRecord | internal/livelist/wafs.go:89-177 | an object is refused for the first record that cannot be read, and as that is |
| Composition.XorToggle | internal/livelist/livelist.go:134-171 | taking a member in or out toggles its hash in the set's hash |
| Composition.HashAfterApply | internal/livelist/livelist.go:134-171 | a record moves the hash exactly when it changes membership; a changed expiry or a removal of an absent member does not |
| Composition.RunningHashIsHash | internal/livelist/livelist.go:134-171 | the hash kept record by record is the XOR over the current members under the key, after any records |
| Composition.HashIgnoresHistory | internal/livelist/livelist.go:134-171 | any two histories that end in the same members end in the same hash |
| Composition.LoadListing | internal/livelist/livelist.go:676-698 | a snapshot that lists a set in any order loads exactly that set |
| Composition.LastRecordOfValue | internal/livelist/livelist.go:157-170 | a string is in the set, with the last record's expiry and reason, exactly if the last record about it adds it; one no record is about stays as it was |
| Composition.LastRecordOfPrefix | internal/livelist/livelist.go:135-156 | so is a prefix, with the last expiry |
| Composition.HashOfOne | internal/livelist/livelist.go:134-171 | a set of one member hashes to the member's own hash under the key |
| Composition.MaterialBytes | internal/livelist/wafs.go:53-63 | what is hashed of a prefix is its family, its length and its address in network order |
| Composition.MaterialsApart | internal/livelist/wafs.go:53-63 | no two prefixes are hashed from the same bytes |
| Composition.HostBitsHide | internal/livelist/livelist.go:173-192 | a live prefix is found by exactly the addresses it covers if and only if it was stored masked; an unmasked one is missed by its own address |
| Composition.Composition.constructor | internal/livelist/livelist.go:122-124 | a new composition is empty, with a zero index and hash |
| Composition.Composition.Apply | internal/livelist/livelist.go:134-171 | members become the record's result, while the index keeps counting prefixes per family and length and the hash stays the members' hash |
| Composition.Composition.ApplyNet | internal/livelist/livelist.go:136-156 | the branch for prefixes: the count of the length and the hash move exactly when membership does |
| Composition.Composition.ContainsAddr | internal/livelist/livelist.go:173-192 | the walk over nonempty lengths finds an address exactly when some live masked member covers it after unmapping; an expired longer prefix hides nothing |
| Mirror.BatchSizeInvisible | internal/livelist/livelist.go:502-553 | where no read errs, any batch size gives the result of reading packages one at a time |
| Mirror.NoPackageSkipped | internal/livelist/livelist.go:502-583 | a catch-up that goes through found every package on the way under its own header, and left exactly their records applied in order, and nothing else |
| Mirror.StopsAtGap | internal/livelist/livelist.go:538-583 | one that does not go through has applied the packages up to a first gap and nothing beyond, and attempted a snapshot there: the next package is missing, foreign or unreadable, or was applied and left a hash that differs |
| Mirror.CatchUpStops | internal/livelist/livelist.go:502-583 | the same through batched reads of any size; where a read errs the mirror stays exactly where it had got to |
| Mirror.SnapshotAgrees | internal/livelist/livelist.go:607-698 | a snapshot keeps the mirror equal to the keeper, whichever point of history it brings |
| Mirror.PackageAgrees | internal/livelist/livelist.go:555-583 | so does a package, accepted or refused |
| Mirror.FrameAgrees | internal/livelist/livelist.go:438-500 | so does one frame, whatever its header claims and whatever the store answers |
| Mirror.MirrorEqualsKeeper | internal/livelist/livelist.go:425-698 | over every stream of frames and every choice of authentic objects, a ready mirror has the keeper's key, type, members, expiries and reasons at its own epoch and number |
| Mirror.FrameSeenAgrees | internal/livelist/livelist.go:438-698 | so does every state the set is left in while a frame is handled, after each package and each snapshot |
| Mirror.EverySeenAgrees | internal/livelist/livelist.go:425-698 | over every run, whatever state a lookup can meet, between frames or in the middle of one, is the keeper's |
| Mirror.PulledReaches | internal/livelist/livelist.go:502-583 | with all packages present and honest, reading up to a number ends at the keeper's set at that number |
| Mirror.CatchUpReaches | internal/livelist/livelist.go:502-553 | so does the batched catch-up with its final comparison of hashes, for every batch size |
| Mirror.InlineEqualsRead | internal/livelist/livelist.go:483-583 | a package that rides in its frame does what the same package read from the store does |
| Mirror.SnapshotDecides | internal/livelist/livelist.go:607-698 | an object that can be read and is a snapshot becomes the whole set, bad exactly if the hash worked out record by record is not its header's; nothing else, and nothing after a bad one, changes anything |
| Mirror.PackageDecides | internal/livelist/livelist.go:555-605 | a package of the set's epoch and type and the wanted number is applied and lets the mirror go on exactly if the hashes then agree; any other makes it try a snapshot; and every state left on the way |
| Mirror.FrameIgnored | internal/livelist/livelist.go:438-482 | frames of another version, and to a ready mirror a resync, an unreadable epoch, an earlier number, or its own with nothing new, change nothing |
| Mirror.FrameResyncs | internal/livelist/livelist.go:438-482 | a first frame, one of another epoch or one with another hash gets the mirror, given an authentic snapshot, to the keeper's set at that snapshot's point; another epoch even after a bad one |
| Mirror.FrameApplies | internal/livelist/livelist.go:483-498 | the keeper's package riding in its frame takes the mirror one further with no read and no snapshot |
| Mirror.FrameMisfits | internal/livelist/livelist.go:483-498 | any other object riding there makes it try a snapshot |
| Mirror.FrameCatchesUp | internal/livelist/livelist.go:483-553 | a frame ahead brings the mirror, the packages being there, to the keeper's set at its number, package by package; if it announces another hash a snapshot is tried from there |
| Mirror.FrameUnread | internal/livelist/livelist.go:502-507 | without a store such a frame does nothing |
| Mirror.FrameReadErrs | internal/livelist/livelist.go:509-536 | the first of its reads, of 256 packages each, that errs leaves the mirror where the reads before it had brought it |
| Mirror.FrameMeetsGap | internal/livelist/livelist.go:502-583 | with a package missing or foreign it takes the mirror to just before the first such and makes it try a snapshot from there |
| Mirror.FrameEnds | internal/livelist/livelist.go:438-698 | what lookups meet last, once a frame is handled, is what the frame leaves |
| Mirror.RunEnds | internal/livelist/livelist.go:425-436 | so over any stream of frames |
| Mirror.TwoTicksReach | internal/livelist/livelist.go:425-698 | after any run whatever, the keeper's tick heard twice while the store serves has the mirror at the keeper's set of that moment, unless it is already past it |
| Mirror.BadSnapshotSticks | internal/livelist/livelist.go:438-605 | after a snapshot with an irreproducible hash no run of frames makes the mirror resync, change its key or go back, up to the first frame of another epoch, which takes a snapshot |
| Mirror.BadSnapshotFrame | internal/livelist/livelist.go:438-605 | one frame: whether it holds the mirror or releases it depends on its epoch alone |
| Mirror.AgreeingAnswers | internal/livelist/livelist.go:303-336 | a state that equals the keeper's answers about every address as the keeper's unexpired prefixes would |
| Mirror.AgreeingPrefix | internal/livelist/livelist.go:318-329 | about a prefix it answers whether the keeper's set has, unexpired, the prefix of just its length over its address |
| Mirror.AgreeingText | internal/livelist/livelist.go:331-335 | about a string, whether the keeper's set has it unexpired |
| Mirror.AnswersAsKeeper | internal/livelist/livelist.go:303-336 | whenever it is asked, in the middle of a frame too, a ready mirror of masked prefixes finds an address exactly when some unexpired prefix of the keeper's set covers it |
| Mirror.MirrorSet.Snapshot | internal/livelist/livelist.go:607-698 | the set is replaced by the snapshot object's, or left alone where there is none or it cannot be read |
| Mirror.MirrorSet.Load | internal/livelist/livelist.go:676-688 | the new set is built aside and put in place at once, with whether its hash could be reproduced |
| Mirror.MirrorSet.Verify | internal/livelist/livelist.go:585-605 | an announced hash that differs takes a snapshot, unless the last one was bad |
| Mirror.MirrorSet.ApplyPackage | internal/livelist/livelist.go:555-583 | a package is applied only under a header of this set's epoch, type and next number; anything else takes a snapshot |
| Mirror.MirrorSet.ReadBatch | internal/livelist/livelist.go:518-549 | one batched read equals reading its packages one at a time, stopping at the first that is missing or refused |
| Mirror.MirrorSet.CatchUp | internal/livelist/livelist.go:502-553 | the loop of batches ends, and does what the specification of catching up says |
| Mirror.MirrorSet.OnFrame | internal/livelist/livelist.go:438-500 | every branch of the frame handler does what the lemmas on frames above say, and leaves the states they say |
| Mirror.MirrorSet.Run | internal/livelist/livelist.go:425-436 | the set's goroutine over all its frames, and every state it leaves the set in on the way |
| Mirror.MirrorSet.Contains | internal/livelist/livelist.go:303-336 | addresses, prefixes and text are looked up as the set's type says; no answer while the set is not ready |
| Queue.KeptAndDead | internal/queue/queue.go:195-220 | the tasks kept and those taken out part the queue by whether their time is up |
| Queue.PopDecides | internal/queue/queue.go:280-304 | a worker gets the first task that still has the minimum budget; it quits only from a closed pool, goes round once it has expired tasks in hand, and sleeps on an empty queue |
| Queue.AdmitDecides | internal/queue/queue.go:86-118 | whoever comes is given room while the pool is open and has it; for want of it a call is turned away, waits if it is to and has the time, or is out of time |
| Queue.WaitDecides | internal/queue/queue.go:120-163 | a waiting call enters when there is room in an open pool, gives up when the pool closes or its time is up with no room, and otherwise takes out what has expired or sleeps |
| Queue.Pool.Append | internal/queue/queue.go:165-169 | the task joins the end |
| Queue.Pool.PopHead | internal/queue/queue.go:287-292 | the head leaves and the rest stays in order |
| Queue.Pool.TakeExpired | internal/queue/queue.go:195-220 | the in-place compaction keeps exactly the unexpired tasks in order and hands out exactly the others |
| Queue.Pool.Pop | internal/queue/queue.go:280-304 | a turn of pop takes the first unexpired task, or says whether to quit, go round or sleep |
| Queue.Pool.Admit | internal/queue/queue.go:86-118 | a submitted task is enqueued, shed, expired or made to wait, and the queue never passes its depth |
| Queue.Pool.Wait | internal/queue/queue.go:120-163 | a turn of the waiting loop enters, gives up, takes out the expired and goes round, or rests, and the queue never passes its depth |
| PoolProtocol.StepsFollowPool | internal/queue/queue.go:86-304 | every step does to the queue what the pool's method does at the same queue, clock and flags, the waiting loop and the sweep included, and no other step touches it |
| PoolProtocol.PopFollowsPool | internal/queue/queue.go:280-304 | a worker takes the task and the expired that the pool's turn of pop hands out, and goes where its outcome says |
| PoolProtocol.SweepFollowsPool | internal/queue/queue.go:188-193 | collecting leaves the unexpired queued and the expired in the collector's hands |
| PoolProtocol.AdmitFollowsPool | internal/queue/queue.go:86-118 | a Submit call's main critical section ends as the pool's admission does |
| PoolProtocol.WaitFollowsPool | internal/queue/queue.go:120-163 | a turn of the waiting loop ends as the pool's does |
| PoolProtocol.RunKeeps | internal/queue/queue.go:86-334 | the invariant of the pool (hands, places, wake-ups, counters, order, budgets) holds after every run |
| PoolProtocol.NoLostWakeUp | internal/queue/queue.go:120-304 | a sleeping Submit call means a full queue, a nonempty queue means an awake worker, nobody sleeps once closed or holding expired tasks |
| PoolProtocol.QueueNeverStuck | internal/queue/queue.go:258-304 | while a task is queued some worker can take its next step |
| PoolProtocol.NothingLostOrDoubled | internal/queue/queue.go:86-334 | every submitted task is queued, in one thread's hands or answered once, and submitted = queued + held + evaluated + shed + expired |
| PoolProtocol.AnswersOnlyGrow | internal/queue/queue.go:258-334 | no answer is taken back, and each step gives exactly the answers named: a thread's expired tasks one by one, a call out of time or room, and a worker's task, evaluated with all that is left or expired |
| PoolProtocol.TakenIsEvaluated | internal/queue/queue.go:258-314 | a task a worker has taken is evaluated with all that is left of its deadline after the reserve exactly if that is at least the minimum budget, and expires otherwise |
| PoolProtocol.ArriveDecides | internal/queue/queue.go:86-97 | a call that comes with too little time is answered without a look at the queue; any other goes on to collect the expired |
| PoolProtocol.RunExplained | internal/queue/queue.go:86-334 | over every run, nobody is told that time is up or that there is no room without reason, and no budget given is less than what would be left now |
| PoolProtocol.AfterClose | internal/queue/queue.go:233-240 | once workers and sweeper are done the queue is empty, and an unanswered task is held by a Submit call still running |
| PoolProtocol.ServedInOrder | internal/queue/queue.go:165-334 | tasks popped and queued are the order of arrival less some that entered and whose time is up; a real evaluation has at least the minimum budget, at most the deadline less the reserve, and no less than is left now; whatever expired is late, or waited in vain, or met a closed pool; whatever was shed was shed where nobody waits |
| Buckets.VirtualGrows | internal/buckets/buckets.go:29-37 | the virtual clock never runs back, and one lifetime empties a full bucket |
| Buckets.PlainMeaning | internal/buckets/buckets.go:251-348 | the plain bucket loses the tier's percentage of its maximum each second, down to nothing; a charge of either sign is added within nothing and the maximum |
| Buckets.PlainStart | internal/buckets/buckets.go:251-348 | one that was never charged is dry, and a charge starts it |
| Buckets.LedgerStep | internal/buckets/buckets.go:313-335 | one access of a ledger entry reports the plain bucket's level and keeps standing for it |
| Buckets.RedisStep | internal/buckets/buckets.go:154-249 | so does one access of a Redis key: a number left below zero and an expired key both read as a dry bucket |
| Buckets.UnderStep | internal/buckets/buckets.go:313-335 | an entry that stands for no more than the bucket never comes to stand for more |
| Buckets.KeysApart | internal/buckets/buckets.go:84-86 | different accounts of profiles and kinds without colons have different keys |
| Buckets.StoresAgree | internal/buckets/buckets.go:88-348 | for every sequence of calls in time order and charges of either sign, ledger, Redis and plain leaky bucket report the same levels |
| Buckets.LedgerNeverOver | internal/buckets/buckets.go:295-348 | whatever is evicted after each call, the ledger never reports more than the plain bucket |
| BucketStore.Sorting | internal/buckets/buckets.go:143-149 | sorting distinct accounts keeps them and puts them in order of kind and key |
| BucketStore.RefUnion | internal/buckets/buckets.go:118-152 | each account charged or asked about, with a tier that is on and a key, is listed once, in order |
| BucketStore.DistinctKeys | internal/buckets/buckets.go:84-152 | the accounts of one call have distinct keys |
| BucketStore.PassLeaves | internal/buckets/buckets.go:154-241 | a pass over some accounts leaves the key of every other untouched |
| BucketStore.PassAt | internal/buckets/buckets.go:154-241 | over distinct keys each account gets what it would get alone, whatever its place in the pass |
| BucketStore.SumUp | internal/buckets/buckets.go:165-169 | each account charged has one sum, the total of its own charges; no other account has any |
| BucketStore.SumsAreTotals | internal/buckets/buckets.go:165-169 | the sums, account by account |
| BucketStore.BeforeIff | internal/buckets/buckets.go:143-149 | strings are ordered by where they first differ, or where one ends |
| BucketStore.RefBeforeIff | internal/buckets/buckets.go:143-149 | accounts are ordered by kind, and within a kind by key |
| BucketStore.TouchedByUnion | internal/buckets/buckets.go:88-152 | a call touches exactly the accounts with a tier that is on and a key that it asks about or charges with something other than nothing |
| BucketStore.LiveSumsCharge | internal/buckets/buckets.go:88-169 | each account with a tier that is on is charged the total of its charges, and the others nothing |
| BucketStore.LevelsTell | internal/buckets/buckets.go:251-259 | each level names its account, its score and that score's percentage of the tier's maximum |
| BucketStore.ScoresTold | internal/buckets/buckets.go:88-116 | so does every level of every call of a run |
| BucketStore.Store.AccessLedger | internal/buckets/buckets.go:314-332 | one account's turn in the ledger's loop |
| BucketStore.Store.Evict | internal/buckets/buckets.go:337-345 | eviction only removes entries and ends at half the maximum |
| BucketStore.Store.ApplyLocal | internal/buckets/buckets.go:295-348 | all accounts in turn; entries are given up only above the maximum, and afterwards at most the maximum is held |
| BucketStore.Store.RunCommands | internal/buckets/buckets.go:174-190 | SetNX, IncrByFloat and PExpire on one key have the net effect used in the proofs, and touch no other key |
| BucketStore.Store.FirstPipeline | internal/buckets/buckets.go:171-194 | the first pipeline gives every key its commands and reads every answer before any fix is made |
| BucketStore.Store.ReadLevels | internal/buckets/buckets.go:196-226 | reading the answers and setting the fixes gives each account what one access gives |
| BucketStore.Store.SecondPipeline | internal/buckets/buckets.go:228-249 | the fixes are set in order, the last on a key standing |
| BucketStore.Store.ApplyRedis | internal/buckets/buckets.go:154-241 | the two pipelines together equal the account-by-account pass |
| BucketStore.Store.Apply | internal/buckets/buckets.go:88-116 | one call touches exactly its accounts, in one store, and tells each account's level, as a score and in percent of its maximum, in order; entries in memory are given up only past the maximum |
| BucketStore.Store.ServeOne | internal/buckets/buckets.go:88-116 | one call of a run takes the store where the run of the specification goes |
| BucketStore.Store.Serve | internal/buckets/buckets.go:88-348 | over any run of calls from an empty store, the scores and percentages told are the plain leaky buckets': exactly with Redis, exactly in memory while nothing is evicted, and no higher otherwise |
| Roster.CounterOfMisses | internal/roster/roster.go:330-346 | the counter kept is the length of the longest run of failures at the end, and its time that of the last |
| Roster.FailCountsRun | internal/roster/roster.go:330-346 | a reported failure answers with the length of the longest run of the scope's failures since it was cleared or locked, each within the window of the one before |
| Roster.WinsIff | internal/roster/roster.go:314-328 | a burn is first exactly when every earlier first burn of the key has run out |
| Roster.RevokedIff | internal/roster/roster.go:269-276 | revoked exactly while the last revocation made runs |
| Roster.FoundIff | internal/roster/roster.go:387-410 | a value is found exactly when the last call about its key put it and its time has not passed |
| Roster.LockedIff | internal/roster/roster.go:348-385 | locked exactly while the last lock runs, unless cleared since, and for how long |
| Roster.Memory.constructor | internal/roster/roster.go:259-267 | a new roster knows of no calls |
| Roster.Memory.Revoked | internal/roster/roster.go:269-276 | the answer is that of the last revocation ever made, whatever was thrown away since |
| Roster.Memory.Revoke | internal/roster/roster.go:305-312 | the revocation is recorded |
| Roster.Memory.Burn | internal/roster/roster.go:314-328 | the answer follows from the calls alone, and a refused burn does not extend the first |
| Roster.Memory.Fail | internal/roster/roster.go:330-346 | the count follows from the calls alone |
| Roster.Memory.Clear | internal/roster/roster.go:348-356 | failures and lock of the scope start afresh |
| Roster.Memory.Lock | internal/roster/roster.go:358-366 | the lock replaces the failures |
| Roster.Memory.LockedFor | internal/roster/roster.go:368-385 | the time left is that of the last lock, and dropping a lock that is over changes no answer |
| Roster.Memory.Put | internal/roster/roster.go:387-396 | the value replaces what was held |
| Roster.Memory.Get | internal/roster/roster.go:398-410 | the value last put and not deleted is found until its time, and dropping it then changes no answer |
| Roster.Memory.Del | internal/roster/roster.go:412-419 | the value is gone |
| Roster.Memory.Refresh | internal/roster/roster.go:278-303 | exactly the entries past their time go, and no later answer changes |
| Tickets.OpensWithinLifetime | internal/token/token.go:170-186 | a ticket opens exactly before the start of its expiry second, which is never past its full lifetime |
| Tickets.TicketDecides | internal/token/token.go:170-186 | what unseals to a ticket with a nonce and an expiry is good before the start of its expiry second; every other ending by its name |
| Tickets.Server.Within | cmd/http/verify.go:508-520 | a try is within a limit exactly when its run of tries is no longer than the limit; a limit that is off counts nothing |
| Tickets.Server.Choose | cmd/http/verify.go:340-349 | the provider and value are those of the first answered field in chain order, unless a value came along |
| Tickets.Server.Check | cmd/http/verify.go:307-414 | the check's result and the roster calls it makes are those that CheckDecides spells out |
| Tickets.Server.Grant | cmd/http/verify.go:469-476 | a grant is counted, and a fingerprint whose count reaches the limit is revoked for as long as the clearance lives |
| Tickets.ClearedIff | cmd/http/verify.go:307-414 | a check is cleared exactly when it is within its limit, not banned, the provider that has to judge it is satisfied or is down and set to let through, and the nonce was not burned; it names that provider, and is flagged exactly if it was down |
| Tickets.JudgeDecides | cmd/http/verify.go:340-359 | a value is judged by the provider the request names, or by the first of the chain if the chain has no such provider; without one, the first provider whose own field was filled in judges that field |
| Tickets.OneJudge | cmd/http/verify.go:340-359 | no other provider and no other value can be judged |
| Tickets.CheckDecides | cmd/http/verify.go:307-414 | every way a check can end and when, the on_error paths included; the roster is told of the try, if tries are counted, and of the burn, and of nothing else |
| Tickets.GrantDecides | cmd/http/verify.go:469-476 | a grant tells the roster nothing without a fingerprint or where clearances are not counted; else it counts one over the window and revokes the fingerprint once the count is up |
| Tickets.FarmedIsBanned | cmd/http/verify.go:330-476 | once a grant has revoked its fingerprint, whatever the roster is told since, checks that carry it are banned exactly until the last revocation ends; as long as none since ends earlier, at least while the clearance lives |
| Tickets.CountBansNobody | cmd/http/verify.go:469-476 | a grant below the limit changes no ban, whatever the roster is told after it |
| Tickets.ShorterGrantLiftsBan | cmd/http/verify.go:469-476 | a run over two profiles in which a second check, already past its ban step, is granted a shorter clearance and lifts the ban while the first clearance lives |
| Tickets.CheckAlone | cmd/http/verify.go:307-414 | the sequential check is the interleaved one when nothing comes between |
| Tickets.GrantAlone | cmd/http/verify.go:469-476 | so is a grant, and either way the check ends with its clearance |
| Tickets.RunKeeps | cmd/http/verify.go:307-414 | after every run, grants and first burns of nonces correspond one to one, and each belongs to one check whose ticket was open when it began |
| Tickets.GrantsApart | cmd/http/verify.go:372-411 | two clearances for one nonce are burned at least the first burn's lifetime apart, in any run |
| Tickets.SecondGrantIsLate | internal/decide/decide.go:595-604 | a second clearance for a nonce is burned only once its ticket has expired, strictly later than its check opened it |
| Tickets.GrantedIff | cmd/http/verify.go:372-411 | a check about to burn is cleared exactly when every earlier clearance for its nonce is a lifetime old |
| Tickets.SlowCheckGrantsTwice | cmd/http/verify.go:372-411 | a run in which a ticket opened in its last second, with an outside provider that takes two seconds to accept another token or to fail where failing lets through, is cleared twice |
| Asked.ValidatePrior | internal/config/profile.go:673-708 | a rule passes exactly when it names somebody and accepts only known verbs, and from anybody only challenges; the error names the first verb that is wrong, or says what is |
| Asked.AskMeaning | internal/decide/decide.go:452-514 | a challenge is wanted, or skipped, exactly when some action of a request-phase verdict says so and some rule accepts that from its inspector |
| Asked.FitsIff | internal/config/profile.go:649-671 | a rule fits an action of an inspector it names, or of anybody's, whose verb it accepts, or any, and whose code it wants, or any |
| Asked.HitsCount | internal/decide/decide.go:484-493 | an action takes effect as many times as there are rules that fit it |
| Asked.OutcomesInOrder | internal/decide/decide.go:452-496 | there is one outcome for each action heard, in the order they were said |
| Asked.FateDecides | internal/decide/decide.go:472-580 | what is written down of an action, and when it was applied, found no counter or no rule, and how much was charged |
| Asked.NotesChargeWhatIsDue | internal/decide/decide.go:537-580 | in all, each bucket is charged under each code the values of the notes that reach it, once for every rule that fits, and nothing else |
| Asked.ClearedMeans | internal/decide/decide.go:516-524 | of the outcomes exactly the applied challenges change, to cleared |
| Asked.UnnamedOnlyTighten | internal/config/profile.go:673-708 | verdicts of inspectors no rule names, anywhere in the list, leave skip and notes as they were and can only add the wish for a challenge |
| Asked.SkipFromAnybodyLoosens | internal/config/profile.go:697-705 | without the check on rules this fails: a rule that lets anybody skip loosens |
| Asked.Asking.Deliver | internal/decide/decide.go:472-496 | an action takes effect once per fitting rule, and leaves exactly one outcome |
| Asked.OneMoreHit | internal/decide/decide.go:484-493 | the rules' effects add up one by one, in any number |
| Asked.Asking.Take | internal/decide/decide.go:498-514 | one fitting rule's effect, by verb |
| Asked.Asking.Charge | internal/decide/decide.go:537-580 | a note charges every bucket of its scope that is on, or is marked as uncounted |
| Asked.Asking.Cleared | internal/decide/decide.go:516-524 | applied challenges, and nothing else, are marked as answered, in place |
| Asked.Asking.PriorAsk | internal/decide/decide.go:452-470 | all actions of the verdicts of this phase are delivered, in order |
| Decide.OpensIff | internal/decide/decide.go:300-363 | a clearance opens exactly when it unseals whole, unexpired, bound to this client, unrevoked, and listed once past its grace |
| Decide.WhyUnopened | internal/decide/decide.go:300-363 | each code and its findings, and the exact condition for each: none brought, unsealable, expired, another client's, the list silent, revoked by fingerprint or taken off the list |
| Decide.FindRule | internal/config/profile.go:1265-1299 | the first page rule that matches decides, else the profile's own |
| Decide.RuleIsFirst | internal/config/profile.go:1265-1275 | the rule found is that of the first page that matches, or no page matches |
| Decide.MatchesIff | internal/config/profile.go:1277-1299 | a page rule is for its methods, or all, and for its path alone or whatever begins with it |
| Decide.OwnPathIff | internal/config/profile.go:1245-1257 | the captcha's own pages are its path and what lies below it, whatever slashes the path ends in |
| Decide.WhyChallenged | internal/decide/decide.go:365-417 | the exact condition for each of the four triggers |
| Decide.AnswerOutside | internal/decide/decide.go:125-157 | the whole answer, notes included, without a profile, with the captcha off, and on its own pages |
| Decide.AnswerDown | internal/decide/decide.go:177-184 | the whole answer while the list cannot answer |
| Decide.AnswerThrough | internal/decide/decide.go:186-191 | the whole answer to a request that passes on its clearance, the header and the cleared challenges included |
| Decide.AnswerFree | internal/decide/decide.go:193-208 | the whole answer to a request nothing is asked of |
| Decide.AnswerObserved | internal/decide/decide.go:210-222 | the whole answer where a challenge is required and observed |
| Decide.AnswerEnforced | internal/decide/decide.go:224-255 | the whole answer where it is enforced: redirected, shown in place or refused, with the ticket, its attempt and its lifetime |
| Decide.EnforcedEvent | internal/decide/decide.go:257-275 | it is an event unless the store is down and no clearance was brought |
| Decide.DecisionMeaning | internal/decide/decide.go:119-287 | from the request, the roster and the list alone: when a request is refused for the list, challenged, or let through, and which event and next step follow |
| Decide.ReturnsHere | internal/decide/decide.go:721-745 | the return path is the address with its arguments exactly if that is a printable path on this site and not too long, and nothing otherwise |
| Decide.Check | internal/decide/decide.go:119-287 | the decision with all its notes, the event and the next step, on every path, as the lemmas on answers spell out |
| Decide.AnswerChallenge | internal/decide/decide.go:213-255 | what a required challenge is answered with, observing, navigating or neither |
| Decide.SendOff | internal/decide/decide.go:229-244 | a navigation is redirected, shown the form in place, or refused for want of a ticket |
| Decide.ModesAgree | internal/decide/decide.go:119-287 | observing and enforcing give the same trigger, findings and next step, and the same event exactly unless a clearance opened ahead gives a reason that makes none; observing lets through unless the list cannot be asked |
| Decide.WouldBeExact | internal/decide/decide.go:661-719 | the code observing notes is the enforced one, and the verdict it notes is exactly when the answer is no navigation, or one with a sealed ticket and no form in place |
| Decide.NotedOtherwise | internal/decide/decide.go:213-244 | requests noted as a redirect and refused, one with the form in place and one whose ticket does not seal |
| Decide.UnnamedOnlyRaise | internal/decide/decide.go:389-417 | prior verdicts of unnamed inspectors leave the trigger as it was or raise it from none to prior |
| AuditSink.GroupedSends | internal/audit/sink.go:156-183 | grouping a batch sends each subject exactly its events, in their order |
| AuditSink.OneMessageEach | internal/audit/sink.go:156-183 | a batch is sent as one message a subject, none of them empty, in the order in which the subjects first appear |
| AuditSink.SizeOfAppend | internal/audit/sink.go:207-215 | each event counts its own bytes and two more |
| AuditSink.EveryEventOnce | internal/audit/sink.go:65-154 | every event ever added waits, or is in exactly one batch, or was dropped with at least 50000 after it; the counter counts exactly the dropped, and no batch has more than 256 |
| AuditSink.HandedInOrder | internal/audit/sink.go:130-183 | what is handed on for a subject is exactly its events in batches, in the order they were added, each once |
| AuditSink.SentAfterPublish | internal/audit/sink.go:156-168 | to each subject, what was sent and what is on its way make up what was handed on |
| AuditSink.GroupBySubject | internal/audit/sink.go:170-183 | subjects in order of first appearance, with their events |
| AuditSink.Sink.Add | internal/audit/sink.go:65-99 | the event joins the end, past the maximum the oldest goes, size and counter stay right, and the loop is woken when a batch is due |
| AuditSink.Sink.Shift | internal/audit/sink.go:84-89 | the shift in place removes exactly the front |
| AuditSink.Sink.Take | internal/audit/sink.go:130-153 | a batch is the oldest events, at most 256, and everything else stays |
| AuditSink.Sink.Publish | internal/audit/sink.go:156-168 | one message per subject; every subject's order is kept over the whole run |
| AuditSink.Sink.Flush | internal/audit/sink.go:130-154 | flushing ends with nothing waiting and nothing dropped |
| AuditSink.Sink.Measure | internal/audit/sink.go:207-215 | the recomputed size is the pending events' |
| Wav.ReadWav | internal/image/audio.go:93-151 | the walk by offsets stays in bounds, ends on every input, and computes the declarative reading of the file |
| Wav.EncodeWav | internal/image/audio.go:153-172 | the writer produces the layout used in the proofs |
| Wav.ReadBack | internal/image/audio.go:93-172 | reading back gives the same rate and samples if and only if both fit their fields and the rate is not zero |
| Wav.UnknownChunkIgnored | internal/image/audio.go:110-134 | a chunk of another kind, with its padding, inserted between whole chunks of any file changes nothing |
| Wav.FileMeans | internal/image/audio.go:93-151 | a file of whole chunks gives the sound of its last samples at the rate of its last form, if that is of one channel and sixteen bits; each other ending and when |
| Wav.WalkParts | internal/image/audio.go:110-134 | of the chunks the last about the form and the last of samples count, and one about the form that is too short spoils the file |
| Wav.CutChunk | internal/image/audio.go:115-117 | a last chunk that is cut short counts as a whole one of what is there |
| Wav.NotWavIff | internal/image/audio.go:99-101 | a file is none exactly if it does not begin as one |
| Wav.SampleAt | internal/image/audio.go:144-148 | each sample is two bytes, the low one first, as a signed number |
| Wav.EncodedFields | internal/image/audio.go:153-172 | the written file field by field |
| Wav.WalkDataBound | internal/image/audio.go:110-134 | a data chunk never reaches past the file |

## Left out

- NATS, Redis and HTTP clients, file reading, logging, metrics, heartbeats and templates: their answers are parameters.
- AES-GCM, base64, JSON, SHA-256 and SipHash: sealing is an ideal pair given by what unsealing yields, SipHash any function.
- Mirror health (last frame seen, silence, de-duplicated log lines) and the periodic resync; the keeper is its history.
- Mirror.MirrorSet.ApplyPackage: prefix lengths in readable objects are required to be in range, because the program's index has no slot for others.
- Mirror.MirrorSet.ReadBatch: a batched read that does not err is taken to answer every key asked for, present or absent, as the program's own reader does; the loop would not end on an empty answer.
- Mirror.MirrorSet.Contains: parsing text into an address or prefix is done by the caller of the model.
- Lookups are not interleaved with a frame's handling step by step; the states they can meet are recorded wherever the program gives up the set's lock.
- Queue.Pool.Admit: depth is at least one and there is at least one worker, as configuration ensures; the waiting timer may fire at any time.
- Each critical section of the pool reads the clock once.
- Bucket arithmetic is over real numbers, not float64; Redis expiries are not cut to milliseconds; tiers do not change during a run.
- BucketStore.Store.ApplyRedis: one call is atomic, so overlapping fix-ups of concurrent calls, which can overwrite each other, are not modelled.
- Buckets.StoresAgree: profile names and bucket kinds contain no colon, as configuration ensures.
- The Redis roster and its errors; the roster here is the one in memory, whose calls do not fail.
- Tickets.Server.Check: the fingerprint is given as already normalised, form fields as already trimmed, and a provider's verdict is any function of provider and value.
- Tickets.Server.Grant: of granting, only what it tells the roster; cookies, list writes and events are not modelled.
- The comparison of the submitted nonce with the ticket's, and of the ticket's binding with the client, which only turn more requests away.
- Asked.Asking.Deliver: outcomes are values put in a list, not records updated through a pointer.
- Decide.Check: hashes of network and browser, and whether the Accept header names HTML, are given with the request; the redirect address is the pair of challenge path and return path, before escaping; the notes are a record with a field for each key the program sets, not a map of strings.
- Captcha providers, image drawing, mixing audio with noise, the page script, secrets, geography, list writes: foreign calls or user interface.
- YAML decoding and the remaining field validators, environment and conf files, the file-system swap of desired state: long but easy, or mostly operating-system effects.
- AuditSink.Sink.Publish: a message that fails to go out is lost, as in the program; what is proved is what is handed to the connection.
