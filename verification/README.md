# live-mutex in Dafny

A model of the live-mutex lock server and of the client code it talks to, with proofs of what they keep.

**The broker.** `Broker1` (`src/broker-1.ts`) is one class whose methods change a map of lock objects (holders,
a queue of waiters, `max`, a token counter), an index of deadlines, a registry of multi-key grants and the uuids
each socket answers for. Here it is the class `Brokers.Broker1` (`Brokers.dfy`), with the same fields, loops and
early returns. `BrokerTypes.dfy`, `BrokerSpec.dfy` and `BrokerSteps.dfy` say what each method does as a function on
the broker's state, and every method of the class is proved to do that. `Events.dfy` puts the steps together into
runs. What is proved of the steps and of all runs:

- no lost wakeup, exactly when the step does not raise a queued key's `max` too far (`Invariants.dfy`,
  `LostWakeups.dfy`); a drain ends, and refines "grant the first so many" (`Drains.dfy`, `PlainDrains.dfy`);
- the deadline index is exactly the live holders with a finite expiry, no uuid holds twice, and nobody who leaves
  comes back (`Bookkeeping.dfy`); the registry of multi-key grants agrees with the holders (`Registries.dfy`); each
  step takes away exactly the holders it names (`Survival.dfy`, `Releases.dfy`, `Requests.dfy`, `Disconnects.dfy`,
  `Safety.dfy`); a waiting multi-key request holds nothing; sweeps and disconnects are exact (`SafeRuns.dfy`);
- multi-key grants are all or none, exactly when no step breaks one and no close strands one (`Composites.dfy`), and
  share one deadline (`SafeRuns.dfy`); a closed socket leaves nothing behind (`Sockets.dfy`);
- first come, first served (`Queues.dfy`); late unlocks and releases disturb nobody, and when a late unlock is told
  that it unlocked (`LateReleases.dfy`);
- what a request is told is what happened to it (`Answers.dfy`); whoever is granted, at once or after waiting, is told
  so exactly once, with the tokens held, and nobody else is (`Notices.dfy`, `StepNotices.dfy`);
- nobody holds or waits for what it did not ask for, nor for another time than it asked, over every run
  (`Origins.dfy`); a key remembers exactly whom it lost (`Memories.dfy`); serving queues leaves the broker's own records
  alone (`Records.dfy`);
- when the tokens of the base broker grow, exactly (`BaseTokens.dfy`);
- inputs on which a guarantee ends (`Limits.dfy`).

**The fencing watermark** (`src/broker-1-hardened.ts`). Every durable write and every token taken is entered in a
journal, in the order of the source. `Fencing.dfy` and `FencedRuns.dfy` prove that in any part of that journal the
writes are ahead of the tokens, and that a key's tokens only grow, through idle deletion and clocks that jump either
way; `Incarnations.dfy` cuts the journal anywhere, which is a crash in the middle of a step, and starts again.
`Hardened.dfy` has the write-before-advance cell as a class, with writes that fail, and the headroom of admitted
requests; `Headroom.dfy` the headroom a drain needs; `HalfGrants.dfy` a run in which its gate is not enough;
`WatermarkText.dfy` the text form.

**The C++ client's JSON** (`clients/cpp/include/live_mutex/json.hpp`): the printer and the recursive-descent parser as
classes over a stream and an index (`JsonStreams.dfy`), the grammar as functions (`Json.dfy`), the round trip for every
value (`JsonRoundTrips.dfy`), and every other way of writing a value down: white space, escapes, entries in any order
and with repeated names (`JsonTexts.dfy`). A printed frame is one line, and frames cut into any chunks arrive as they
were sent (`Wire.dfy`).

**The TypeScript client** (`src/client.ts`): one callback per lock call, and when the next call is taken, through losses
of the connection and reconnections (`ClientSpec.dfy`, `Clients.dfy`). **The line
splitter** (`src/json-parser.ts`): chunk independence (`Lines.dfy`).

## How the surroundings appear

- A step reads the wall clock through `Env`: `now`, and `clock(u)` for the reading made when holder `u` is installed.
  Where a property needs one reading per step it says so (`Steady`), or that the clock is not behind (`SweepExact`).
- `Env.live` is the set of writable sockets; frames to others are not sent.
- Version-4 uuids never collide: the broker draws `Minted(0)`, `Minted(1)`, ...; clients choose `Client(id)`.
  `LockFresh` says that a client does not use a uuid for a second hold. `NamesOwnKey` concerns only an unlock taken for
  a late one, unforced and of a uuid its key remembers: that uuid holds no other key. `Releases.MisnamedLosesRow` says
  what such an unlock does otherwise; any other unlock may name anything.
- The order in which a JavaScript Map yields its entries is whatever the method happens to find: it comes back as a
  history result (`expired`, `visits`, `order`).
- `maxEver`, `journal`, `sentAt`, `answers`, `sent`, `reelected`, `seeds`, `tokens` and `seen` are history: no step
  looks at them.

## Where the code and its comments differ

The model follows the code.

- `src/broker-1.ts:2285` speaks of every 30,000 lock requests and line 1760 of 6 hours; the code cleans up on every
  fourth request, after 2 seconds.
- `src/broker-1.ts:1849` says that unlocking leaves stale deadline rows behind; every path that removes a holder removes
  its row (`Safety.StepKeeps`).
- An acquire-many ttl of null means "never expires" at `src/broker-1.ts:2062`, but a null that arrives over the wire has
  become Infinity at line 435, which is no integer, so the default ttl applies (`ManyTtl`).

- `src/broker-1-hardened.ts:339-341` says that a drain stopped within 64 tokens of the ceiling never leaves a multi-key
  grant half made; one drain may take more than 64 tokens, and `HalfGrants.GateLetsHalfThrough` is a run in which it
  does.

- `clients/cpp/include/live_mutex/json.hpp:285-299` reads each four-digit escape by itself, so that the pair of escapes
  by which RFC 8259 (section 7) writes a character above U+FFFF becomes two three-byte forms (`JsonTexts.PieceMeans`).

## Model

| member | source | states |
|---|---|---|
| Brokers.Broker1.constructor | src/broker-1.ts:305-330 | a new broker has no lock, row, composite, uuid or frame |
| Brokers.Broker1.RaiseWatermark | src/broker-1-hardened.ts:260-268 | a value above the watermark reaches the durable cell, and the journal, before the watermark; any other changes nothing |
| Brokers.Broker1.AddLockObject | src/broker-1.ts:1352-1388 | a new key's counter starts at the clock (hardened: at clock, floor or watermark, the watermark raised to it); nothing else changes |
| Brokers.Broker1.ScheduleDeadline | src/broker-1.ts:1836-1844 | the expiry is now plus ttl, indexed under the holder; an infinite ttl gets no row |
| Brokers.Broker1.GrantLock | src/broker-1.ts:1489-1520 | the counter goes up by one, and the holder is installed with exactly that token, its row and no other change; the journal has the write before the token |
| Brokers.Broker1.GrantMemberKey | src/broker-1.ts:1970-1995 | one member of a multi-key grant goes to a newly drawn holder, on a lock object made if missing |
| Brokers.Broker1.GrantKeys | src/broker-1.ts:2109-2204 | walking the sorted keys grants each to a new holder up to the first full key, and reports how many, to whom, with which tokens, and what stopped it |
| Brokers.Broker1.TakeBack | src/broker-1.ts:2001-2008 | the rollback drops exactly the holders and rows of the keys granted in this attempt |
| Brokers.Broker1.DequeueWritable | src/broker-1.ts:1570-1587 | dequeues up to the first writable waiter; when there is none, the last dead one is used |
| Brokers.Broker1.QueueOn | src/broker-1.ts:2014-2019 | the waiter goes to the back of the queue, unless its uuid is already there |
| Brokers.Broker1.TryWaiter | src/broker-1.ts:1960-2013 | all keys granted, or the attempt rolled back and the contended key named, which has a lock object |
| Brokers.Broker1.TryGrantAcquireManyFromQueue | src/broker-1.ts:1938-2039 | a queued multi-key request is granted, registered and announced whole, or moved to the queue of the key that stopped it |
| Brokers.Broker1.GrantWaiter | src/broker-1.ts:1616-1635 | a queued single-key waiter is granted with its own ttl, and told its token and the queue's length |
| Brokers.Broker1.EnsureNewLockHolder | src/broker-1.ts:1522-1634 | the released holder and its row go; a key left empty is marked emptied now, any other is drained |
| Brokers.Broker1.DrainQueue | src/broker-1.ts:1557-1634 | the loop ends and serves waiters while there is one and the key has room; the branch that puts a waiter back is dead |
| Brokers.Broker1.CleanUpLocks | src/broker-1.ts:1746-1773 | deletes exactly the lock objects emptied two seconds ago or more that have no holder and no waiter |
| Brokers.Broker1.RegisterRequest | src/broker-1.ts:2280-2318 | the key is in use again, every fourth request cleans up, and the socket answers for the uuid |
| Brokers.Broker1.ValidateMaxField | src/broker-1.ts:1789-1812 | a max that is no positive integer is refused with an error frame and no other effect |
| Brokers.Broker1.QueueRequest | src/broker-1.ts:2436-2458 | forced requests go to the front in place of their old entry, retries to the front, others to the back, none twice |
| Brokers.Broker1.DecideRequest | src/broker-1.ts:2368-2493 | with room the request is granted; else it is queued, or only refused when it will not wait |
| Brokers.Broker1.Lock | src/broker-1.ts:2268-2547 | the whole lock step, max updated before the capacity test |
| Brokers.Broker1.Unlock | src/broker-1.ts:2549-2775 | the whole unlock step, with its reply and the drain of the key it freed |
| Brokers.Broker1.FreeForUnlock | src/broker-1.ts:2595-2716 | a named holder goes and is remembered; force without a name wipes the key; force on a non-holder is refused; a hold already gone is forgotten |
| Brokers.Broker1.WipeHolders | src/broker-1.ts:2642-2648 | every holder of the key goes with its row and is remembered as released |
| Brokers.Broker1.ValidateKeys | src/broker-1.ts:2079-2095 | accepts exactly arrays of 1 to 64 non-empty strings |
| Brokers.Broker1.AcquireMany | src/broker-1.ts:2057-2217 | the whole acquire-many step |
| Brokers.Broker1.AskForAll | src/broker-1.ts:2109-2217 | grants and registers all keys, or rolls back and queues on the contended key (or not, without waiting) |
| Brokers.Broker1.ReleaseMany | src/broker-1.ts:2225-2266 | the whole release-many step; an unknown composite changes nothing |
| Brokers.Broker1.ReleaseAll | src/broker-1.ts:2243-2256 | member after member is dropped, remembered if it was still held, and its key's queue served |
| Brokers.Broker1.TickTtl | src/broker-1.ts:1859-1890 | evicts, one after another, a snapshot of exactly the rows due, and returns their number |
| Brokers.Broker1.SnapshotExpired | src/broker-1.ts:1866-1871 | the snapshot lists each row due once, and no other |
| Brokers.Broker1.EvictRow | src/broker-1.ts:1873-1888 | the row goes; a holder still there is moved to the timed-out uuids and its key served |
| Brokers.Broker1.GiveUp | src/broker-1.ts:1141-1154 | the waiter leaves the key's queue |
| Brokers.Broker1.CleanupConnection | src/broker-1.ts:962-1040 | the walk over the key map ends although it may add keys, and visits every key once |
| Brokers.Broker1.ScrubOne | src/broker-1.ts:993-1036 | the socket's queued uuids leave the queue, its rows the index, and its holders are unlocked one by one |
| Brokers.CollectOwned | src/broker-1.ts:1014-1020 | lists each holder of the socket once and no peer's, and takes off exactly their rows |
| Brokers.Broker1.Handle | src/broker-1.ts:411-460 | whatever arrives causes the step of its kind; frames from a socket already cleaned up are dropped |
| BrokerSteps.RetryLeavesQueue | src/broker-1.ts:1598-1603 | a composite popped while its key has room is never put back on that key, so the drain loop ends |
| BrokerSteps.SortedKeysSorted | src/broker-1.ts:2096-2098 | the keys of a request, each once, in increasing code-unit order |
| Attempts.TryKeysAtKey | src/broker-1.ts:2109-2204 | an attempt leaves queues and maxima alone and adds, on keys that had room, exactly the new holders it names |
| Attempts.TryKeysAtUuid | src/broker-1.ts:1976-1992 | an attempt keeps the rows of old uuids and gives each new holder the row of its own key, when the ttl is finite |
| Attempts.FailedAtKey | src/broker-1.ts:2113-2130 | after a failed attempt every key has the holders, queue and max it had |
| Attempts.FailedDeadlines | src/broker-1.ts:2001-2008 | after a failed attempt the deadline index is what it was |
| Invariants.DrainServes | src/broker-1.ts:1555-1634 | after a drain no key has both a waiter and room, however often it retried and rolled back composites |
| LostWakeups.LockServes | src/broker-1.ts:2363-2493 | a lock request leaves no waiter beside a free slot if and only if it raises no queued key's max past the holders and the caller |
| LostWakeups.StepServes | src/broker-1.ts:1067-1184 | the same if and only if, for every kind of step |
| LostWakeups.RunServes | src/broker-1.ts:1522-1634 | no lost wakeup over every run that raises no queued key's max so |
| PlainDrains.DrainGrantsFirst | src/broker-1.ts:1555-1634 | with live single-key waiters a drain grants exactly the first min(max - holders, waiting), in order, with consecutive tokens, their rows and the frames that say so, and every other field of the key and of the broker is as it was |
| Bookkeeping.DrainKeepsBooks | src/broker-1.ts:1522-1634 | a drain keeps the index equal to the live holders, takes nobody away, and every new holder was a waiter who gets what it asked for |
| Bookkeeping.ServeOrdered | src/broker-1.ts:1574-1587 | serving the head of a queue keeps everybody else's order and passes nobody by |
| Registries.DrainKeepsRegistry | src/broker-1.ts:1960-2030 | through a drain every holder tagged with a composite is the one recorded for its key, and a queued composite waits once and is not registered |
| Survival.DrainSound | src/broker-1.ts:1522-1634 | a drain registers only whole composites and splits none |
| Releases.UnlockSound | src/broker-1.ts:2549-2716 | an unlock, whatever it names, takes away exactly the holders it names on its key and keeps index and registry, unless it is taken for a late one and its uuid holds another key |
| Releases.MisnamedLosesRow | src/broker-1.ts:2694-2716 | the unlock left out above: the other hold stays but loses its deadline row, so that the books stay sound if and only if it had none |
| Releases.ReleaseMembersSound | src/broker-1.ts:2243-2256 | release-many takes away exactly the composite's live members, while serving each key's queue on the way |
| Releases.SweepSound | src/broker-1.ts:1873-1888 | a sweep takes away exactly the snapshot's holders, though it grants others on the way |
| Requests.LockSound | src/broker-1.ts:2268-2547 | a lock request disturbs no holder and grants nobody but its own uuid |
| Requests.AcquireManySound | src/broker-1.ts:2057-2217 | an acquire-many disturbs no holder and adds only newly drawn ones |
| Requests.RefuseSound | src/broker-1.ts:2113-2178 | a refused acquire-many, queued or not, leaves holders, rows and registry exactly as they were |
| Requests.GiveUpSound | src/broker-1.ts:1141-1154 | a client giving up leaves one queue entry fewer and nothing else changed |
| Disconnects.ScrubKeysSound | src/broker-1.ts:989-1038 | a closing socket loses its holds on every key not yet visited, and nobody else any |
| Disconnects.ScrubKeysQuiet | src/broker-1.ts:989-1038 | when it waits only for single keys under uuids it answers for, none of its holders or waiters is left on any key |
| Disconnects.GrantedInClose | src/broker-1.ts:989-1038 | a composite registered while a socket closes was waiting when it closed; if it was a peer's it is whole afterwards, and if the socket's own it has exactly the holders on keys visited before its grant |
| Disconnects.ScrubKeysApart | src/broker-1.ts:1014-1036 | a socket that holds no key its own composites wait for is granted none of them while it closes |
| Safety.StepKeeps | src/broker-1.ts:1067-1184 | every step keeps the index, the registry and the queues sound, removes exactly the holders it names, leaves every other as it is, and revives none |
| Composites.StepAllOrNone | src/broker-1.ts:1960-2030 | a step keeps every registered composite all-or-none if and only if it is no unlock of part of one, no sweep between two of its deadlines, and no close that strands one |
| Composites.ClosedComposite | src/broker-1.ts:989-1038 | a composite registered by a close keeps a holder, and keeps all of them if and only if it is not stranded: the closing socket's own, granted when one of its keys was still to be visited |
| Composites.ApartStrandsNone | src/broker-1.ts:989-1038 | what shows before a close: if the socket holds no key its composites wait for, whatever else waits, it strands none |
| Composites.BreakSplits | src/broker-1.ts:2607-2616 | such an unlock or sweep does split a composite |
| Composites.SplitBreaks | src/broker-1.ts:2243-2258 | no other step splits one: not release-many, not a close, not a grant |
| SafeRuns.StepOneDeadline | src/broker-1.ts:1976-1992 | with one clock reading per step the live members of a composite expire together, after every step |
| SafeRuns.EveryRunSound | src/broker-1.ts:305-330 | after every valid run of a new broker: exact deadline index, agreeing registry, sound queues, no lost wakeup |
| SafeRuns.EveryRunFit | src/broker-1.ts:305-330 | and composites all-or-none with one deadline each, if clocks stand still within a step, no unlock takes part of a composite, and no socket closes that holds a key its own composite waits for |
| SafeRuns.NoHoldAndWait | src/broker-1.ts:1997-2020 | in every state a valid run reaches, a waiting composite holds nothing, is not registered, waits for a key of its own, and in one queue only |
| SafeRuns.SweepExact | src/broker-1.ts:1859-1890 | a sweep removes every holder due and no other, leaves none due although it grants new ones, counts each once, and leaves no key with both a waiter and room |
| Queues.SweepExactAnytime | src/broker-1.ts:1859-1890 | after every valid run whose requests ask for no negative time, a sweep is exact in the sense of SweepExact |
| SafeRuns.CloseExact | src/broker-1.ts:962-1040 | a close removes exactly the socket's holds, never a peer's, and the freed slots go to waiters |
| SafeRuns.CloseClean | src/broker-1.ts:996-1036 | under the conditions of ScrubKeysQuiet nothing of the socket is left anywhere |
| SafeRuns.CloseUnqueues | src/broker-1.ts:996-1013 | whatever composites it has queued, a socket that answers for its single-key waiters leaves none of them in any queue |
| Queues.StepBehind | src/broker-1.ts:2403-2456 | no step grants a key past a single-key waiter to one behind it or not yet in line, unless forced, retried or by raising the max |
| Queues.NoOvertaking | src/broker-1.ts:1559-1603 | over every run in which a waiter waits, nobody behind it or arriving after it holds its key |
| Queues.StepLively | src/broker-1.ts:2306-2311 | waiters always ask for a positive time |
| Sockets.StepAnswering | src/broker-1.ts:2313-2318 | a socket answers for every uuid it waits under for a single key, as long as no unlock names one it still waits under |
| Sockets.CloseLeavesNothing | src/broker-1.ts:962-1040 | after every such valid run, the close of a socket with no composite queued leaves no holder and no waiter of it, takes no peer's hold, and loses no wakeup |
| Sockets.GoneForGood | src/broker-1.ts:411-460 | once nothing of a closed socket is left it never holds and never waits again, over every valid run |
| LateReleases.LateUnlockHarmless | src/broker-1.ts:2648-2665 | an unlock naming a uuid that does not hold its key takes away no hold, and changes nothing at all when forced |
| LateReleases.LateReleaseHarmless | src/broker-1.ts:2232-2241 | releasing an unknown composite changes nothing and is answered so |
| LateReleases.StepRecalls | src/broker-1.ts:1746-1773 | through a step that does not unlock it an evicted or released uuid is remembered if and only if the step is not the fourth lock request that deletes its idle key; and a uuid unknown to a key stays so unless it asks for it |
| LateReleases.UnlockAnswer | src/broker-1.ts:2595-2716 | the first frame of an unlock says that it unlocked exactly when the key has no lock object, it names a holder, it forces without a name, or unforced it names a hold evicted or released |
| LateReleases.LateUnlockTold | src/broker-1.ts:2694-2733 | after any run that does not unlock it, the first late unlock is told that it unlocked if the lock object was never deleted; if nobody asks for the key under that uuid again, exactly if it was not deleted and made again |
| LateReleases.SweptThenUnlocked | src/broker-1.ts:1878-1887 | the same of a holder that a sweep evicted, from the sweep on |
| Memories.StepRemembers | src/broker-1.ts:2607-2716 | a key remembers exactly the holders it lost, to unlock, force, release-many, sweep or close, until a late unlock claims one or its idle lock object is deleted |
| Answers.LockAnswer | src/broker-1.ts:2306-2543 | a lock request is answered once: granted with its holder's token exactly when the holders are fewer than the max it is judged by, until infinity, so many milliseconds or the default as it asks, with that row and no other; else refused with the holders untouched, and waiting for that time if it was to wait |
| Answers.LockMax | src/broker-1.ts:2363-2367 | the max a lock request is judged by is the key's from then on |
| Answers.JoinPlaces | src/broker-1.ts:2436-2458 | a request that waits stands in the queue once, first or last or where it stood as it asked, and the others keep their order |
| Answers.AskAnswer | src/broker-1.ts:2109-2217 | told that it was granted, a multi-key request holds every key with the tokens it was told, under the composite it was told; told that it was not, the key named is its own and full, and it waits there if it was to wait |
| Answers.AcquireAnswer | src/broker-1.ts:2062-2217 | a multi-key request on good keys is granted if and only if none of its keys is full; it then holds each under one composite with the tokens it is told and for the time it asks; else it is told the first full key in order, holds nothing, and waits there last if it was to wait |
| Answers.BadKeysAnswer | src/broker-1.ts:2079-2095 | anything but an array of 1 to 64 non-empty strings gets the error frame and no other effect |
| Notices.DrainNotifies | src/broker-1.ts:1557-1634 | through a drain of single-key and multi-key waiters every new holder of a live socket is told exactly once with its own token, every composite granted is announced exactly once to who asked for it, with its keys and the tokens its holders have, and nothing else is sent |
| StepNotices.StepNotifies | src/broker-1.ts:1938-2037 | the same of every step: unlocks, sweeps, closes and releases that drain many keys, and the requests themselves; a sweep and a close send nothing but grants |
| StepNotices.UnlockNotifies | src/broker-1.ts:2666-2716 | all frames of an unlock after its answer are grants of what it freed, and the grants it causes are told as above |
| StepNotices.ReleaseAnswer | src/broker-1.ts:2225-2266 | release-many is answered last, released if and only if the composite is registered, which it is not afterwards; all frames before are grants of what it freed |
| Origins.StepTraced | src/broker-1.ts:2306-2311 | each step, grants after any number of retries included, gives a waiter the key, socket and time it asked for and no more |
| Origins.EveryHoldAsked | src/broker-1.ts:1836-1844 | over every valid run of a new broker each holder was asked for by an earlier input of its socket, for this key, and expires at the clock of its grant plus the time asked; each waiter was asked for likewise |
| Records.StepRecords | src/broker-1.ts:2280-2318 | a step changes what a socket answers for, the closed sockets and the count of lock requests exactly by its own request, whatever it serves |
| Limits.RaiseLosesWakeup | src/broker-1.ts:2363-2367 | raising a queued key's max by two: one slot stays free beside a waiter |
| Limits.ClockSplitsComposite | src/broker-1.ts:2191-2198 | a clock read key by key and a sweep between the two readings leave half a composite |
| Limits.WaitsForBoth | src/broker-1.ts:2146-2178 | the state of CloseSplitsComposite is reached: a holder of A asks for A and B and waits on A |
| Limits.CloseSplitsComposite | src/broker-1.ts:1014-1036 | a socket that closes with a composite queued on its own key is granted it while being cleaned up, and keeps half of it until its deadline |
| Limits.LateUnlockForgotten | src/broker-1.ts:2284-2287 | swept, deleted by the fourth request and made again by another client: the late unlock is told that it did not unlock |
| Limits.BaseTokensRegress | src/broker-1.ts:1377 | a run of a new base broker: idle deletion and a clock set back give out a lower token for the same key |
| BaseTokens.StepCounting | src/broker-1.ts:1377 | a step of the base broker keeps each key's tokens growing if and only if its clock reads at least every token the keys it makes anew gave out before |
| BaseTokens.LockCountsIff | src/broker-1.ts:1377 | for a lock request: if and only if its max is refused, its key has a lock object, or the clock reads at least every token the key gave out |
| BaseTokens.ClockAheadOfAll | src/broker-1.ts:1377 | it does for any step whose clock reads at least every token given out by keys that have no lock object |
| BaseTokens.BaseTokensGrow | src/broker-1.ts:1377 | over every run of a new base broker: if and only if that holds at each step |
| Fencing.TakesAuthority | src/broker-1-hardened.ts:252-271 | taking a token keeps counters under the watermark, writes ahead of tokens throughout the journal, each key's tokens increasing, and at this very grant holders under the largest max |
| Fencing.SeedsAuthority | src/broker-1-hardened.ts:236-250 | a lock object made anew starts at or above every token ever taken, and its seed is written before it is used |
| Fencing.TryKeysAuthority | src/broker-1.ts:1966-1995 | the same through a whole multi-key attempt, whose reported tokens were all taken for their keys |
| FencedRuns.StepFollows | src/broker-1-hardened.ts:175-189 | every step, whatever its inputs, keeps the authority: in the journal writes are ahead of tokens, and each frame was sent after the tokens it tells were taken for its key |
| FencedRuns.FramesCovered | src/broker-1-hardened.ts:203-209 | in every run of a new hardened broker no frame carries a token above the watermark or above the durable cell |
| FencedRuns.HolderCurrent | src/broker-1-hardened.ts:157-167 | in every run of one, on a key whose max was always one the only holder's token is the counter and exceeds every other token ever taken for the key |
| FencedRuns.HoldersCapped | src/broker-1.ts:1566-1568 | in every run of a new broker of either kind, each single grant within a step, and every state between steps, has no more holders than the largest max the lock object has had |
| Incarnations.CrashAnywhere | src/broker-1-hardened.ts:260-268 | a crash may fall after any single write or token of a step: there are frames that were out by then |
| Incarnations.AfterDurable | src/broker-1-hardened.ts:169-174 | a step, or a crash at any point of its journal and a restart on what was written by then, forgets no token taken and no frame sent, and never sets the durable cell back |
| Incarnations.TokensOnlyGrow | src/broker-1-hardened.ts:157-174 | over any number of incarnations every token of a key exceeds every earlier one, and none that was taken, or told before a crash, is above the durable cell |
| Incarnations.EveryIncarnation | src/broker-1-hardened.ts:186-189 | the same from a first start on any stored value, whatever the configured floors |
| Hardened.FencingState.constructor | src/broker-1-hardened.ts:184-189 | the watermark starts at the floor or the stored value, whichever is higher |
| Hardened.FencingState.Persist | src/broker-1-hardened.ts:119-157 | the file reads back as the value or is as it was, and every token taken stays covered in between |
| Hardened.FencingState.Raise | src/broker-1-hardened.ts:260-268 | file first, then memory; a failed write advances nothing |
| Hardened.FencingState.SeedCounter | src/broker-1-hardened.ts:243-250 | a seed above the ceiling or not persisted is refused and leaves the history as it was |
| Hardened.FencingState.NextToken | src/broker-1-hardened.ts:252-271 | the next token is handed out exactly when it is below the ceiling and covered by the file, and is covered then |
| Hardened.Open | src/broker-1-hardened.ts:45-98 | starts if and only if floor and file hold canonical watermarks |
| Hardened.Reopen | src/broker-1-hardened.ts:186-189 | a broker restarted at any point of another's life starts at or above every token the other took |
| Hardened.WalkHasRoom | src/broker-1-hardened.ts:211-216 | after i grants the watermark is at most i above the watermark or the clock it started from, so no seed and no token is refused |
| Hardened.RequiredIsKeys | src/broker-1-hardened.ts:319-321 | the headroom asked for is the number of keys the request will walk |
| Hardened.AdmittedNeverExhausts | src/broker-1-hardened.ts:318-327 | an admitted multi-key request never meets the ceiling half-way |
| Hardened.AdmittedLockNeverExhausts | src/broker-1-hardened.ts:302-316 | an admitted single-key request takes no token and makes no counter above the ceiling |
| Headroom.DrainHasRoom | src/broker-1.ts:1557-1634 | a drain with headroom for all that its queue asks for together meets the ceiling at no seed and no token, retries and rollbacks included |
| Headroom.GateSuffices | src/broker-1-hardened.ts:338-347 | so the gate of 64 tokens is enough for a queue that asks for no more than 64 in all |
| Headroom.PlainDrainSafe | src/broker-1-hardened.ts:338-347 | a drain of live single-key waiters stays below the ceiling if and only if it grants nobody or the counter plus the number granted does |
| Headroom.FreshWalk | src/broker-1-hardened.ts:236-271 | a multi-key walk over keys without lock objects stays below the ceiling if and only if the watermark plus their number does |
| HalfGrants.GateLetsHalfThrough | src/broker-1-hardened.ts:338-347 | a run of a new broker whose last unlock starts a drain that the gate lets through, and that meets the ceiling with 63 of the 64 keys of a queued request granted |
| WatermarkText.ParseInvertsText | src/broker-1-hardened.ts:45-56 | a text is accepted as n if and only if n is at most 2^53-1 and the text is String(n) |
| JsonStreams.Writer.WriteString | clients/cpp/include/live_mutex/json.hpp:124-145 | appends exactly the quoted and escaped bytes |
| JsonStreams.Writer.Write | clients/cpp/include/live_mutex/json.hpp:89-122 | appends exactly the printed value |
| JsonStreams.Parser.SkipWs | clients/cpp/include/live_mutex/json.hpp:173-177 | stops at the first byte that is no white space |
| JsonStreams.Parser.ParseStringAt | clients/cpp/include/live_mutex/json.hpp:257-307 | reads what the string grammar says, or throws what it says |
| JsonStreams.Parser.ParseNumberAt | clients/cpp/include/live_mutex/json.hpp:329-343 | keeps the longest run of number bytes as it stands |
| JsonStreams.Parser.ParseArrayAt | clients/cpp/include/live_mutex/json.hpp:231-255 | reads what the array grammar says |
| JsonStreams.Parser.ParseObjectAt | clients/cpp/include/live_mutex/json.hpp:198-229 | reads what the object grammar says, the last of equal names winning |
| JsonStreams.Parser.ParseValueAt | clients/cpp/include/live_mutex/json.hpp:186-196 | dispatches on the first byte as the grammar does |
| JsonStreams.Parser.ParseAll | clients/cpp/include/live_mutex/json.hpp:162-167 | one value between white space; what follows is not looked at |
| JsonStreams.PrintAndParse | clients/cpp/include/live_mutex/json.hpp:82-167 | what the printer writes, the parser reads back as the same value |
| JsonRoundTrips.ControlEscape | clients/cpp/include/live_mutex/json.hpp:136-139 | a control byte survives its four-digit escape |
| JsonRoundTrips.PrintedString | clients/cpp/include/live_mutex/json.hpp:257-307 | every byte string survives quoting and escaping, whatever follows it |
| JsonRoundTrips.RoundTrip | clients/cpp/include/live_mutex/json.hpp:82-344 | for every value, any nesting and any bytes, parsing its printed form gives it back and leaves nothing |
| JsonRoundTrips.PrintInjective | clients/cpp/include/live_mutex/json.hpp:82-122 | different values print differently |
| JsonRoundTrips.AssignGets | clients/cpp/include/live_mutex/json.hpp:216 | assigning an entry replaces what the name had, leaves every other name and keeps the order |
| JsonRoundTrips.AnyOrder | clients/cpp/include/live_mutex/json.hpp:198-229 | an object printed with its entries in any order and with repeated names is read in order, with the last value of each name and no other name |
| JsonTexts.ReadsEveryText | clients/cpp/include/live_mutex/json.hpp:162-344 | every text that RFC 8259 allows for a value, with white space between any tokens, short and four-digit escapes, any nesting and order of entries, is read as what it says; what follows is left |
| JsonTexts.AcceptsExactly | clients/cpp/include/live_mutex/json.hpp:162-344 | the parser reads a value if and only if the text starts with one spelled out (a four-digit escape being any four bytes std::stoul takes, a number any run of number bytes), and then this one; on everything else it throws |
| JsonTexts.CodeBytesUtf8 | clients/cpp/include/live_mutex/json.hpp:285-300 | the bytes written for a code below 2^16 are its UTF-8 form (RFC 3629, section 3) |
| Wire.PrintPrintable | clients/cpp/include/live_mutex/json.hpp:124-145 | a printed value has no control byte, so no line feed, whatever bytes its strings have |
| Wire.Receive | clients/cpp/include/live_mutex/client.hpp:224-226 | frames printed one to a line and received in any chunks come out as as many lines, each read as the frame it was |
| JsonRoundTrips.U64RoundTrip | clients/cpp/include/live_mutex/json.hpp:35-54 | a printed uint64 is read back as the same number |
| JsonRoundTrips.I64RoundTrip | clients/cpp/include/live_mutex/json.hpp:34-53 | a printed int64 is read back as the same number |
| Lines.SplitGoesOn | src/json-parser.ts:99-100 | all pieces but the last are settled; more text goes on from the last |
| Lines.LineParser.ProcessSome | src/json-parser.ts:64-82 | handles the non-empty lines in order, and puts off exactly the rest |
| Lines.LineParser.Transform | src/json-parser.ts:85-103 | after any chunk the lines handled are the non-empty settled pieces of all text so far |
| Lines.LineParser.Flush | src/json-parser.ts:105-121 | at the end they are the non-empty pieces of the whole text |
| Lines.ReadStream | src/json-parser.ts:64-121 | the lines handled depend on the text alone, not on the cuts nor on the yield interval |
| ClientSpec.TimerAccounted | src/client.ts:1216-1261 | a timer asks again if a retry is left and the client can, else answers once with the reason; a call that is done stays so |
| ClientSpec.FrameAccounted | src/client.ts:391-478 | a waiting call succeeds if and only if a frame says so for its key, goes on waiting exactly when it should, is told otherwise why not, and a call that is done is not disturbed |
| ClientSpec.DismissAllDone | src/client.ts:565-575 | after the loop every call of the snapshot is answered once, and the calls its callbacks made are taken on if the client can |
| ClientSpec.LoopTells | src/client.ts:565-706 | a connection lost, another version, an end and a close tell every waiting call of an unknown error, and disturb no call that is done |
| ClientSpec.StepValid | src/client.ts:545-706 | every event keeps each call answered once or waiting with one resolution and one timer, if and only if it is no close whose callbacks make a call the client takes on |
| ClientSpec.CloseAnswersAll | src/client.ts:619-640 | after close no call waits, nothing is left in the tables, and every call made before was answered exactly once |
| ClientSpec.CloseLosesCall | src/client.ts:619-632 | a call made by a callback while the client closes is never answered |
| ClientSpec.OneCallback | src/client.ts:1162-1390 | under any interleaving each call is answered once or waits; at most maxRetries lock requests are sent for it, beyond those for re-election frames |
| ClientSpec.StepSwitches | src/client.ts:488-640 | a connection made opens the client and one ended closes it, a mismatch is for good, and a lost connection, once dealt with, leaves every switch as it was |
| ClientSpec.RefusedMeanwhile | src/client.ts:565-575 | a call made by a callback while the client recovers or has met another version is refused at once and sends nothing |
| ClientSpec.NextCall | src/client.ts:1175-1214 | after any run, reconnections included, the next call with a retry allowed waits and has sent exactly one request if and only if the client was connected, not ended since, and never met another version |
| Clients.Client.FireLockCallbackWithError | src/client.ts:883-896 | the call's books are cleared if it is named, and its callback called once more |
| Clients.Client.AskBroker | src/client.ts:1175-1388 | refuses when closed, recovering, mismatched or out of retries, else sets timer and resolution and writes one request |
| Clients.Client.OnTimer | src/client.ts:1216-1261 | what the timer does, retries included |
| Clients.Client.Resolve | src/client.ts:1263-1371 | what the resolution does with each kind of frame |
| Clients.Client.OnData | src/client.ts:391-478 | given-up and timed-out frames call nobody |
| Clients.Client.DismissLive | src/client.ts:682-706 | goes through a snapshot of the resolutions, calls made meanwhile left out |
| Clients.Client.Recover | src/client.ts:545-578 | a lost connection answers every waiting call with an error, in the order the table had, and refuses what callbacks ask meanwhile |
| Clients.Client.Close | src/client.ts:619-640 | answers every waiting call, in the order the table had, then wipes the tables |

## Left out

- Reader/writer locks: `rwStatus`, `maxRead`, `maxWrite`, reader counts, the writer flag and its broadcasts. Their admission tests are approximate, so exclusion is not a theorem of this code.
- The re-election timers and `lock-received-rejected` (`src/broker-1.ts:1156-1165`, `1636-1715`): runs in which clients acknowledge in time are modelled.
- Lock objects as heap objects: here they are values in the key map, so that two references to one lock object, and a reference kept after its key was deleted, are not captured. Within one step the source uses the reference it got from the map.
- The headroom gates of the hardened broker and the exceptions behind them are not part of its steps, which assume that writing the watermark succeeds and stays below the ceiling; what the gates guarantee is stated beside the steps, in Hardened and Headroom. What a drain leaves behind when it does meet the ceiling is not modelled further than HalfGrants.GateLetsHalfThrough says.
- Headroom.DrainHasRoom: enough, and exact for single-key waiters (Headroom.PlainDrainSafe); a request for keys whose counters are below the watermark takes less of it than it has keys.
- LateReleases.LateUnlockTold: when a client asks for the key again under the very uuid that was evicted, and the lock object was deleted meanwhile, the answer is the one LateReleases.UnlockAnswer reads off the last state.
- SafeRuns.CloseClean: says nothing of a socket with a composite queued, because acquire-many does not put its uuid among those the socket answers for; SafeRuns.CloseUnqueues covers its single-key waiters, and Composites.ClosedComposite what becomes of its composites.
- Composites.StepAllOrNone: whether a close strands a composite waiting on a key of the socket itself is read off the walk, which follows the order of the key map; Composites.ApartStrandsNone is what shows before the walk.
- Incarnations.TokensOnlyGrow: a write that fails without a crash, and a torn file, are not among the moves; Hardened.FencingState has writes that fail on either side of the rename.
- Secrecy of the holder uuids of a multi-key grant is not modelled; an unlock that names one is allowed for, and is what `Breaks` is about.
- Sockets, frame encoding, the version handshake, `inspect`, `ls`, statistics, telemetry, logging, the in-process bridge, the HTTP server, the command-line tools, and the other language clients.
- `wsToKeys`, `pid`, `keepLocksAfterDeath` and the shell flag: no behaviour modelled here depends on them (`isViaShell` is never set).
- The JSON schema check of the state file, and the file-system calls below "written, or not": the file is a cell that holds a watermark's text.
- UTF-8 decoding of chunks (`StringDecoder`): the splitter starts from text, and in `Wire` each byte is a character.
- Which exception the JSON parser throws on a text it does not accept is stated by the functions of `Json` only.
- The frames by which the client rejects a late grant (`src/client.ts:445-477`): timed-out and given-up calls are modelled without them.
- The client's unlock, `ls`, lock-info and multi-key calls, promises, and option parsing: they use the same tables under other uuids.
- The legacy brokers `src/broker.ts` and `src/broker-old.ts`.
