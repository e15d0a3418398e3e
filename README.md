# Login wait queue

A Dafny model of the game server's login wait queue (`WaitingList` in
`src/creatures/players/management/waitlist.cpp`). When the server is full,
players who log in are queued instead of admitted. There are two ordered
queues of `Wait{timeout, playerGUID}` entries: the priority queue for premium
players and the standard queue. A player's *slot* is their 1-based rank,
counting the whole priority queue first and then the standard queue.

On every login attempt, `clientLogin` does the following:

1. Privileged players are admitted at once. These are players with the
   always-login flag or an account type of game master or above.
2. Expired entries are meant to be dropped from both queues. As written,
   only an entry due exactly now is dropped (see the expiry test below).
3. The player is admitted if there is no cap, or if nobody is waiting and
   the server has room.
4. Otherwise the player is looked up. A queued player at slot `s` is
   admitted when `online + s <= maxPlayers`, and their entry is erased.
   Otherwise only their entry's deadline is renewed.
5. A player who is not queued is appended to the tail of the queue of their
   tier and refused.

Files:

- `waitlist_spec.dfy`, module `WaitlistSpec`, holds the entities as values
  (`Wait`, `Player`, `Queues`, `Lookup`, `Outcome`). It also holds the
  specification functions and the lemmas about them:
  - `GetTime`, `GetTimeout` and `Deadline` for the retry delays.
  - `ExpiredAsWritten`, `ExpiredIntended` and `Surviving` for the cleanup.
  - `IndexOf` and `Locate` for the lookup.
  - `Login` and `Decide` for one attempt.
- `waitlist.dfy`, module `Waitlist`, holds the imperative code. `CleanupList`
  is an erase-in-place loop and `FindClient` is a slot-counting scan. Class
  `WaitingList` has the two lists as fields that `ClientLogin` updates in
  place. Each method is proved equal to its specification function.
- `scenarios.dfy`, module `WaitlistScenarios`, holds a worked login sequence,
  on the functions and on the object, and the expiry finding below.

Two details of the code shape the model:

- **The stored deadline includes the margin.** The stored deadline is
  `now + (GetTime(slot) + 15) * 1000` milliseconds, both when the deadline is
  renewed and when an entry is inserted. It uses `getTimeout`, which adds
  the 15-second margin to the retry delay.
- **The expiry test is an equality test.** The test at line 32 subtracts a
  signed `int64_t` clock from a `std::size_t` deadline. The model assumes a
  64-bit target, where `std::size_t` is 64 bits wide, so the subtraction is
  unsigned and `<= 0` holds only when the difference is 0. (On a 32-bit
  target the subtraction would be signed and the test would mean
  `timeout <= time`.) The model states
  this exactly: `ExpiredAsWritten(t, now)` is `(t - now) % 2^64 == 0`.
  `ExpiredAsWrittenIsEquality` proves that within 64-bit range this is
  `t == now`. The intended test `t <= now` is kept as a separate predicate,
  `ExpiredIntended`.

The cleanup takes an `ExpiryRule`. The queue object fixes its rule when it is
constructed. `WaitingList(AsWritten)` is the code as it stands, and
`WaitingList(Intended)` is the corrected behaviour. Every lemma about `Login`
holds for both rules unless it names one.

## Model

| member | source | states |
|---|---|---|
| `WaitlistSpec.GetTime` | src/creatures/players/management/waitlist.cpp:73-85 | the retry delay is always one of 5, 10, 20, 60 or 120 seconds |
| `WaitlistSpec.GetTimeMonotone` | src/creatures/players/management/waitlist.cpp:73-85 | the delay never decreases as the slot grows |
| `WaitlistSpec.GetTimeSteps` | src/creatures/players/management/waitlist.cpp:73-85 | the delay changes between consecutive slots exactly when the slot reaches 5, 10, 20 or 50, and then only upward |
| `WaitlistSpec.GetTimeout` | src/creatures/players/management/waitlist.cpp:40-43 | the timeout is the delay plus the 15-second margin, so it lies between 20 and 135 seconds |
| `WaitlistSpec.Deadline` | src/creatures/players/management/waitlist.cpp:110-121 | a renewed deadline (line 110) or a new one (lines 117 and 121) lies between now + 20 s and now + 135 s, in milliseconds |
| `WaitlistSpec.ExpiredAsWrittenIsEquality` | src/creatures/players/management/waitlist.cpp:32 | for 64-bit deadline and clock values, the unsigned test `(timeout - time) <= 0` holds iff `timeout == time` |
| `WaitlistSpec.ExpiredAsWritten` | src/creatures/players/management/waitlist.cpp:32 | the test as the code evaluates it: an entry due exactly now passes it, and an entry due up to 2^64 ms before or after now does not |
| `WaitlistSpec.ExpiredIntended` | src/creatures/players/management/waitlist.cpp:32 | the evidently intended test: an entry due before now passes it, and within 64-bit range every entry passing the as-written test (so one due exactly now) passes it too |
| `WaitlistSpec.Expired` | src/creatures/players/management/waitlist.cpp:32 | under either rule, an entry due exactly now expires and one due later (within 2^64 ms) is kept |
| `WaitlistSpec.Cleanup` | src/creatures/players/management/waitlist.cpp:92-93 | cleaning the two lists in turn equals cleaning them laid end to end, and neither list grows |
| `WaitlistSpec.AdmitsWithoutQueue` | src/creatures/players/management/waitlist.cpp:95-96 | a capped server whose online count has reached the cap never takes the fast path, whatever the queues hold |
| `WaitlistSpec.Erase` | src/creatures/players/management/waitlist.cpp:105 | erasing index i leaves one entry fewer, the entries before i in place and the entries after i shifted down by one |
| `WaitlistSpec.Surviving` | src/creatures/players/management/waitlist.cpp:27-38 | a cleanup never lengthens a list |
| `WaitlistSpec.SurvivingCount` | src/creatures/players/management/waitlist.cpp:27-38 | a cleanup keeps every copy of a non-expired entry and no copy of an expired one; no entry is added and none changes |
| `WaitlistSpec.SurvivingConcat` | src/creatures/players/management/waitlist.cpp:27-38 | cleaning a concatenation cleans each part in place, so survivors keep their relative order |
| `WaitlistSpec.SurvivingNoneExpired` | src/creatures/players/management/waitlist.cpp:31-37 | no surviving entry passes the expiry test |
| `WaitlistSpec.SurvivingMember` | src/creatures/players/management/waitlist.cpp:31-37 | an entry survives iff it was in the list and does not pass the expiry test |
| `Waitlist.CleanupList` | src/creatures/players/management/waitlist.cpp:27-38 | the erase-while-iterating loop leaves exactly `Surviving(list)` |
| `WaitlistSpec.IndexOf` | src/creatures/players/management/waitlist.cpp:53-57 | the result is the first index holding the GUID, or the length when the GUID is absent |
| `WaitlistSpec.Locate` | src/creatures/players/management/waitlist.cpp:51-65 | a GUID first found at priority index i gives slot i+1; otherwise one first found at standard index j gives slot \|priority\|+j+1; otherwise "not queued" with slot \|priority\|+\|standard\|+1 |
| `WaitlistSpec.SlotIsCombinedRank` | src/creatures/players/management/waitlist.cpp:51-65 | the slot is one more than the first index of the GUID in the priority queue followed by the standard queue |
| `WaitlistSpec.PriorityOutranksStandard` | src/creatures/players/management/waitlist.cpp:51-65 | every priority entry has a smaller slot than every standard or unqueued player |
| `Waitlist.FindClient` | src/creatures/players/management/waitlist.cpp:51-65 | the two counting scans return exactly `Locate` |
| `WaitlistSpec.Login` | src/creatures/players/management/waitlist.cpp:87-124 | a refusal happens only to an unprivileged player on a capped server, and reports a slot of at least 1 |
| `WaitlistSpec.Decide` | src/creatures/players/management/waitlist.cpp:100-123 | after the fast path, a refused player always gets a slot of at least 1 |
| `WaitlistSpec.LoginBypass` | src/creatures/players/management/waitlist.cpp:88-90 | a privileged player is admitted; the queues are not even cleaned and the caller's slot is not written |
| `WaitlistSpec.LoginFastPath` | src/creatures/players/management/waitlist.cpp:92-98 | with no cap, or with both cleaned queues empty and room, the player is admitted; the only change is the cleanup and the slot is not written |
| `WaitlistSpec.LoginUncapped` | src/creatures/players/management/waitlist.cpp:95-98 | with `maxPlayers == 0` every attempt is admitted |
| `WaitlistSpec.DecideQueued` | src/creatures/players/management/waitlist.cpp:100-112 | a queued player at slot s gets slot s, and is admitted iff `online + s <= maxPlayers`. If admitted, exactly their entry is erased; if refused, only that entry's deadline becomes `Deadline(now, s)`. Every other entry keeps its queue and order |
| `WaitlistSpec.DecideNewEntry` | src/creatures/players/management/waitlist.cpp:114-123 | an unqueued player is refused. A premium one is appended to the priority queue with slot \|priority\|+1; any other to the standard queue with slot \|priority\|+\|standard\|+1. The new deadline is `Deadline(now, slot)` and the other queue is unchanged |
| `WaitlistSpec.DecideRefusedIsQueuedAtSlot` | src/creatures/players/management/waitlist.cpp:100-123 | a refused player is found afterwards at exactly the slot they were told |
| `WaitlistSpec.CleanupKeepsUnique` | src/creatures/players/management/waitlist.cpp:92-93 | the cleanup keeps GUIDs distinct across both queues |
| `WaitlistSpec.DecideKeepsUnique` | src/creatures/players/management/waitlist.cpp:100-123 | admitting, renewing or enqueuing keeps GUIDs distinct across both queues |
| `WaitlistSpec.LoginKeepsUnique` | src/creatures/players/management/waitlist.cpp:87-124 | if each GUID is queued at most once before an attempt, it still is afterwards |
| `WaitlistSpec.LoginAdmittedLeavesQueue` | src/creatures/players/management/waitlist.cpp:100-107 | on a capped server, under that invariant, an admitted unprivileged player is no longer in either queue |
| `WaitlistSpec.DecideLeavesNoExpired` | src/creatures/players/management/waitlist.cpp:100-123 | renewed and new deadlines never pass the expiry test at the current time, under either rule |
| `WaitlistSpec.LoginLeavesNoExpired` | src/creatures/players/management/waitlist.cpp:92-123 | after any unprivileged attempt, no entry left in the queues passes the expiry test at the current time |
| `Waitlist.WaitingList.constructor` | src/creatures/players/management/waitlist.cpp:126-127 | a new queue object has both lists empty, which satisfies the invariant |
| `Waitlist.WaitingList.ClientLogin` | src/creatures/players/management/waitlist.cpp:87-98 | the admission result, the reported slot and the new lists equal `Login` of the old lists; the GUID invariant is kept |
| `Waitlist.WaitingList.AdmitOrQueue` | src/creatures/players/management/waitlist.cpp:100-123 | the in-place erase, deadline renewal or append leaves the lists equal to `Decide` of the old lists, with the same result and slot |
| `WaitlistScenarios.QueueScenario` | src/creatures/players/management/waitlist.cpp:87-124 | a worked sequence. A standard player queues at slot 1 with a deadline 20 s out. A premium player then takes slot 1 and pushes the standard player to slot 2. That player's retry at capacity 2 is refused and renewed. At capacity 3 both are admitted in priority order |
| `WaitlistScenarios.QueueObjectScenario` | src/creatures/players/management/waitlist.cpp:87-124 | the same five attempts on a `WaitingList` object report admitted false, false, false, true, true at slots 1, 1, 2, 1, 1 |
| `WaitlistScenarios.StaleEntrySurvivesAsWritten` | src/creatures/players/management/waitlist.cpp:32 | as written, an entry whose deadline has passed is kept and ranks ahead of a new player; under the intended test it is dropped |
| `WaitlistScenarios.LoginIntendedLeavesNoStale` | src/creatures/players/management/waitlist.cpp:27-38 | under the intended test, every entry left after an unprivileged attempt has a deadline after the current time |

## Findings

| source | as written | input that shows it | evidently intended | confidence | as-written member | corrected member |
|---|---|---|---|---|---|---|
| src/creatures/players/management/waitlist.cpp:32 | on a 64-bit target, `(it->timeout - time) <= 0` with a `std::size_t` `timeout` is unsigned arithmetic, so it holds only when `timeout == time` to the millisecond. Entries whose deadline has passed are never removed | a queue holding `Wait(1000, 7)` at clock 2000: the stale entry stays at the head, and a new player is given slot 2 behind it | remove entries whose deadline has been reached (`timeout <= time`) | high (not executed) | `WaitlistScenarios.StaleEntrySurvivesAsWritten` | `WaitlistScenarios.LoginIntendedLeavesNoStale` |

## Left out

- The static singleton `WaitingList::getInstance` and the `unique_ptr` holder are not modelled. The model constructs a plain `WaitingList` object instead.
- The clock (`OTSYS_TIME()`), the configured cap and the live player count are foreign globals. They become the parameters `now`, `maxPlayers` and `online`.
- The source reads the clock up to three times per attempt: once per cleanup and once for the new deadline. The model uses a single `now` for all three reads. (The online count is read at most once per attempt: line 96 reads it only when both cleaned lists are empty, and line 103 only when the player was found in one, so the single `online` parameter is exact.)
- The `static_cast<uint32_t>` of the configured cap is not modelled. `maxPlayers` is taken as a value already in `uint32_t` range.
- `Player` internals (`hasFlag`, `getAccountType`, `isPremium`, `getGUID`) are not modelled. They become the fields of the `Player` record.
- The account type enum is not part of this model. Game master is taken as 4, and only the `>=` comparison with it matters.
- GUIDs are unbounded naturals, not `uint32_t`. Only their equality is used.
- 32-bit targets are not modelled. `std::size_t` is taken as 64 bits wide, which is what makes the expiry test unsigned.
- 64-bit overflow of `now + getTimeout(slot) * 1000` is not modelled. Deadlines are unbounded naturals. The unsigned subtraction of the expiry test is still modelled exactly, modulo 2^64.
- `std::list` iterators and references are not modelled. The lookup returns a queue tag and an index, and erasure and renewal act on that index of a `seq` field. Iterator invalidation and aliasing are therefore not represented.
- Concurrency is not modelled. The file has no locking, and each attempt is modelled as one sequential step.
