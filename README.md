# Voting-system chaincode: registration transactions

This project models the ledger state machine of a Hyperledger Fabric voting
contract (`main.go`). The world state is a key→value ledger that voters and
elections share. The contract offers three operations on it:

- `isStateExists(key)` says whether the key holds a non-nil value. A read
  error is passed back to the caller.
- `RegisterVoter(voterID, name)` checks that the key is free, then stores
  `Voter{voterID, name, IsEligibleForVote: true}` under it.
- `RegisterElection(electionID, name, candidates, startTime, endTime)` checks
  that the key is free. It then parses the start time and the end time as
  RFC 3339 date-times (section 5.6 of RFC 3339), in that order. Next it builds a
  tally with one zero entry per candidate name and an empty `hasVoted` map.
  Finally it stores the election.

Each operation reads, validates and then makes at most one write. A failing
invocation writes nothing.

Layout:

- `wrappers.dfy`: `Option` and `Result`.
- `tally.dfy` (module `Tally`): the zero tally, the registration loop that
  builds it (`ZeroVotes`), and lemmas about its keys, size and total.
- `records.dfy` (module `Records`): `Voter`, `Election`, `Timestamp` and the
  ledger `Record`. A record is a voter, an election, or `Foreign` bytes that
  other code stored. It also holds the election invariant.
- `transactions.dfy` (module `Transactions`): each operation as a function
  from the ledger before the call to the returned error and the ledger after
  it. The contracts give the order of the checks, the error each check
  returns, and the frame: only the registered key changes. The module also
  proves that both registrations keep the ledger invariant `Consistent`.
- `chaincode.dfy` (module `Chaincode`): class `Ledger`, whose `state` map
  stands for the world state behind the stub. Its methods `RegisterVoter`,
  `RegisterElection` and `PutState` update that map in place. Each one is
  proved equal to its function in `Transactions`.
- `properties.dfy` (module `Properties`): lemmas that relate several calls.
  They cover duplicate registration and the key space voters and elections
  share. They show the order of the checks, and that neither the roster size
  nor the order of the two times is checked. Over any sequence of calls, no
  record is ever overwritten and the ledger stays consistent.

The stub's read and write, and the JSON encoder, are foreign calls. They are
modelled as outcomes injected per call through
`Faults(getStateFails, marshalFails, putStateFails)`. Go's
`time.Parse(time.RFC3339, ·)` is a function parameter
`parseRFC3339: string -> Option<Timestamp>`.

Where the design and the code disagree, the model follows the code:

- The design says registration must be blocked when an election has fewer
  than two candidates. The code builds that error at `main.go:79` and never
  returns it. Such elections are therefore registered (`AnyRosterAndWindowAccepted`).
- The design expects `startTime < endTime`. No check of it exists, so any two
  parseable times are accepted.
- The design describes candidates as distinct. The code does not check this.
  Duplicate names collapse to one tally entry (`ZeroTallyShape`).

## Model

| member | source | states |
|---|---|---|
| Transactions.GetState | main.go:108 | the stub read gives the stored value for a present key, nil for an absent one, and the read error exactly when the read fails |
| Transactions.IsStateExists | main.go:107-114 | `(true, nil)` iff the key holds a value, `(false, nil)` iff it holds nothing, and the wrapped read error iff the read fails |
| Transactions.PutStateOutcome | main.go:53 | a successful write adds or replaces only that key; a failed write returns its error and leaves the ledger unchanged |
| Transactions.RegisterVoterOutcome | main.go:32-54 | the checks run in order: read error, then key already taken (any kind of record), then marshal failure, then write failure. Each failure returns its own error and writes nothing. Success happens iff none of them applies. It then stores exactly an eligible `Voter{voterID, name}` under `voterID` and leaves every other key unchanged |
| Transactions.RegisterElectionOutcome | main.go:57-104 | the checks run in order: read error, then key taken, then bad start time, then bad end time, then marshal failure, then write failure. Each failure writes nothing. On success the stored election has the given id, name and roster. Its tally keys are exactly the roster's names, all zero. `hasVoted` is empty and the times are the parsed ones. Only `electionID` changes |
| Transactions.RegisterVoterKeepsConsistent | main.go:42-53 | registering a voter keeps every record under its own id and every election well formed |
| Transactions.RegisterElectionKeepsConsistent | main.go:77-103 | registering an election keeps the ledger consistent. The new election's tally matches its roster and its tally total equals its count of voters who have voted (both zero) |
| Chaincode.Ledger.PutState | main.go:53 | the in-place write changes the ledger exactly as `PutStateOutcome` says |
| Chaincode.Ledger.RegisterVoter | main.go:32-54 | the imperative entry point returns the error and leaves the ledger that `RegisterVoterOutcome` gives, and keeps `Consistent` |
| Chaincode.Ledger.RegisterElection | main.go:57-104 | the imperative entry point, including the tally loop, returns the error and leaves the ledger that `RegisterElectionOutcome` gives, and keeps `Consistent` |
| Tally.ZeroVotes | main.go:77-84 | the `votes` loop yields a map whose keys are exactly the candidate names, every value 0 |
| Tally.NamesCount | main.go:82-84 | a roster names at most as many candidates as it has entries, and exactly as many iff no name repeats |
| Tally.ZeroTallyShape | main.go:82-84 | the starting tally has one zero entry per distinct name. It has one entry per roster entry iff the roster has no duplicates, and fewer otherwise |
| Tally.ZeroTallyBalanced | main.go:82-93 | the starting tally sums to zero, which equals the number of voters marked in the empty `hasVoted` |
| Properties.IsStateExistsScenarios | tests/voting-system-contract_test.go:26-67 | a stored value gives true, an absent key gives false, and a read failure gives an error |
| Properties.RegisterVoterTwice | main.go:38-53 | after a successful registration, registering the same `voterID` again fails with "already exists". The first record stays as stored |
| Properties.ElectionKeyBlocksVoter | main.go:33-40 | a key holding an election cannot be registered as a voter |
| Properties.VoterKeyBlocksElection | main.go:58-65 | a key holding a voter cannot be registered as an election |
| Properties.ExistenceCheckedBeforeParsing | main.go:58-75 | when the key is taken or unreadable, the outcome does not depend on the time strings or the parser |
| Properties.StartTimeCheckedBeforeEndTime | main.go:67-75 | an unparseable start time gives the start-time error whatever the end time, and writes nothing |
| Properties.AnyRosterAndWindowAccepted | main.go:77-96 | a free key with two parseable times is registered for any roster (0 or 1 candidates too) and any order of the two times |
| Properties.RunNeverOverwrites | main.go:32-104 | over any sequence of registrations, every key keeps the record it held |
| Properties.RunKeepsConsistent | main.go:32-104 | over any sequence of registrations, a consistent ledger stays consistent |

## Left out

- `main()` and the chaincode bootstrap (`main.go:116-126`): process and network plumbing.
- JSON encoding (`main.go:48`, `main.go:98`): the ledger holds the records themselves, not their JSON bytes. `json.Marshal` is reduced to the injected `marshalFails` outcome. The field names and the byte layout are not modelled.
- `time.Parse` with the RFC 3339 layout (`main.go:67`, `main.go:72`): its calendar and format validation is not modelled. The parser is a parameter, and `Timestamp` only records an instant and a zone offset.
- Error texts: each error keeps its kind, the entry point and the key, not the formatted message or the wrapped library error.
- Fabric ledger semantics: MVCC, endorsement, replication, and the shim's own validation of keys (for example, refusing an empty key). These appear only as the injected `getStateFails` and `putStateFails` outcomes. Concurrency between invocations is not modelled.
- Vote casting, tally increments and voting-window checks: no code for them exists in `main.go`. `WellFormedElection` states the tally invariant they would have to keep, but only registration is proved to establish it.
- Stored values that are non-nil but empty: every stored value is a record, so existence is the same as "the key is in the map".
