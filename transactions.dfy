/**
 * The voting contract's transactions as functions from the ledger state
 * before the call to the error returned and the ledger state after it.
 *
 * The ledger is a map from key to record; a key that is absent is a nil
 * value. The ledger stub's failures and the JSON encoder's failure are
 * injected per call through `Faults`, and RFC 3339 parsing (Go's
 * `time.Parse(time.RFC3339, s)`) is passed in as `parseRFC3339`. A failing
 * invocation writes nothing: its only write is its last step.
 */
module Transactions {
  import opened Wrappers
  import opened Tally
  import opened Records

  type State = map<string, Record>

  /** The entry point an error message is prefixed with. */
  datatype Op = RegisterVoterOp | RegisterElectionOp

  datatype Error =
    | GetStateFailed(key: string)                // the existence check could not read the key
    | ExistenceCheckFailed(op: Op, cause: Error) // an entry point passing that on
    | VoterAlreadyExists(voterID: string)
    | ElectionAlreadyExists(electionID: string)
    | InvalidStartTime(electionID: string)
    | InvalidEndTime(electionID: string)
    | VoterMarshalFailed(voterID: string)
    | ElectionMarshalFailed(electionID: string)
    | PutStateFailed(key: string)                // returned to the caller unchanged

  /** Which of the calls the contract makes fail during one invocation. */
  datatype Faults = Faults(getStateFails: bool, marshalFails: bool, putStateFails: bool)

  const NoFaults := Faults(false, false, false)

  /** The error an invocation returns (None for nil) and the ledger after it. */
  datatype Outcome = Outcome(err: Option<Error>, state: State)

  /** The stub's read: the value under `key`, None when it is nil. */
  function GetState(state: State, key: string, faults: Faults): (r: Result<Option<Record>, Error>)
    ensures r.Failure? <==> faults.getStateFails
    ensures r.Failure? ==> r.error == GetStateFailed(key)
    ensures r.Success? ==> (r.value.Some? <==> key in state)
    ensures r.Success? && key in state ==> r.value.value == state[key]
  {
    if faults.getStateFails then Failure(GetStateFailed(key))
    else if key in state then Success(Some(state[key]))
    else Success(None)
  }

  /**
   * isStateExists: true when the key holds a non-nil value of any kind,
   * false when it holds nothing, and the read error otherwise.
   */
  function IsStateExists(state: State, key: string, faults: Faults): (r: Result<bool, Error>)
    ensures r == Success(true) <==> !faults.getStateFails && key in state
    ensures r == Success(false) <==> !faults.getStateFails && key !in state
    ensures r.Failure? <==> faults.getStateFails
    ensures r.Failure? ==> r.error == GetStateFailed(key)
  {
    match GetState(state, key, faults)
    case Failure(e) => Failure(e)
    case Success(value) => Success(value.Some?)
  }

  /** The stub's write: stores `value` under `key` unless the write fails. */
  function PutStateOutcome(state: State, key: string, value: Record, faults: Faults): (r: Outcome)
    ensures r.err.None? <==> !faults.putStateFails
    ensures r.err.Some? ==> r.err == Some(PutStateFailed(key)) && r.state == state
    ensures r.err.None? ==> r.state.Keys == state.Keys + {key} && r.state[key] == value
    ensures r.err.None? ==> forall k :: k in state && k != key ==> r.state[k] == state[k]
  {
    if faults.putStateFails then Outcome(Some(PutStateFailed(key)), state)
    else Outcome(None, state[key := value])
  }

  /**
   * RegisterVoter: check that the key is free, then store an eligible voter
   * under it. The checks run in this order and the first failing one decides
   * the error; on success only `voterID` changes.
   */
  function RegisterVoterOutcome(state: State, voterID: string, name: string, faults: Faults): (r: Outcome)
    ensures r.err.Some? ==> r.state == state
    ensures faults.getStateFails ==>
      r.err == Some(ExistenceCheckFailed(RegisterVoterOp, GetStateFailed(voterID)))
    ensures !faults.getStateFails && voterID in state ==>
      r.err == Some(VoterAlreadyExists(voterID))
    ensures !faults.getStateFails && voterID !in state && faults.marshalFails ==>
      r.err == Some(VoterMarshalFailed(voterID))
    ensures !faults.getStateFails && voterID !in state && !faults.marshalFails && faults.putStateFails ==>
      r.err == Some(PutStateFailed(voterID))
    ensures r.err.None? <==>
      !faults.getStateFails && voterID !in state && !faults.marshalFails && !faults.putStateFails
    ensures r.err.None? ==>
      && r.state.Keys == state.Keys + {voterID}
      && r.state[voterID] == VoterRec(Voter(voterID, name, true))
      && forall k :: k in state ==> r.state[k] == state[k]
  {
    match IsStateExists(state, voterID, faults)
    case Failure(e) => Outcome(Some(ExistenceCheckFailed(RegisterVoterOp, e)), state)
    case Success(taken) =>
      if taken then Outcome(Some(VoterAlreadyExists(voterID)), state)
      else
        var voter := Voter(voterID, name, true);
        if faults.marshalFails then Outcome(Some(VoterMarshalFailed(voterID)), state)
        else PutStateOutcome(state, voterID, VoterRec(voter), faults)
  }

  /**
   * RegisterElection: check that the key is free, parse the start and then
   * the end time, build a zero tally and an empty `hasVoted`, and store the
   * election. The roster size is not checked: the source builds an
   * "at least 2 candidate" error and drops it. Nor is the start compared
   * with the end.
   */
  function RegisterElectionOutcome(
    state: State, electionID: string, name: string, candidates: seq<string>,
    startTime: string, endTime: string,
    parseRFC3339: string -> Option<Timestamp>, faults: Faults): (r: Outcome)
    ensures r.err.Some? ==> r.state == state
    ensures faults.getStateFails ==>
      r.err == Some(ExistenceCheckFailed(RegisterElectionOp, GetStateFailed(electionID)))
    ensures !faults.getStateFails && electionID in state ==>
      r.err == Some(ElectionAlreadyExists(electionID))
    ensures !faults.getStateFails && electionID !in state && parseRFC3339(startTime).None? ==>
      r.err == Some(InvalidStartTime(electionID))
    ensures !faults.getStateFails && electionID !in state && parseRFC3339(startTime).Some?
            && parseRFC3339(endTime).None? ==>
      r.err == Some(InvalidEndTime(electionID))
    ensures !faults.getStateFails && electionID !in state && parseRFC3339(startTime).Some?
            && parseRFC3339(endTime).Some? && faults.marshalFails ==>
      r.err == Some(ElectionMarshalFailed(electionID))
    ensures !faults.getStateFails && electionID !in state && parseRFC3339(startTime).Some?
            && parseRFC3339(endTime).Some? && !faults.marshalFails && faults.putStateFails ==>
      r.err == Some(PutStateFailed(electionID))
    ensures r.err.None? <==>
      && !faults.getStateFails && electionID !in state
      && parseRFC3339(startTime).Some? && parseRFC3339(endTime).Some?
      && !faults.marshalFails && !faults.putStateFails
    ensures r.err.None? ==>
      && r.state.Keys == state.Keys + {electionID}
      && (forall k :: k in state ==> r.state[k] == state[k])
      && r.state[electionID].ElectionRec?
    ensures r.err.None? ==>
      var e := r.state[electionID].election;
      && e.electionID == electionID
      && e.name == name
      && e.candidates == candidates
      && e.votes.Keys == Names(candidates)
      && (forall c :: c in e.votes ==> e.votes[c] == 0)
      && e.hasVoted == map[]
      && e.startTime == parseRFC3339(startTime).value
      && e.endTime == parseRFC3339(endTime).value
  {
    match IsStateExists(state, electionID, faults)
    case Failure(e) => Outcome(Some(ExistenceCheckFailed(RegisterElectionOp, e)), state)
    case Success(taken) =>
      if taken then Outcome(Some(ElectionAlreadyExists(electionID)), state)
      else
        var start := parseRFC3339(startTime);
        if start.None? then Outcome(Some(InvalidStartTime(electionID)), state)
        else
          var end := parseRFC3339(endTime);
          if end.None? then Outcome(Some(InvalidEndTime(electionID)), state)
          else
            var election := Election(electionID, name, candidates, ZeroTally(candidates), map[],
                                     start.value, end.value);
            if faults.marshalFails then Outcome(Some(ElectionMarshalFailed(electionID)), state)
            else PutStateOutcome(state, electionID, ElectionRec(election), faults)
  }

  /**
   * The ledger invariant the two registrations keep: every voter and
   * election sits under its own identifier, and every election is well formed.
   */
  ghost predicate Consistent(state: State)
  {
    forall k :: k in state ==>
      && KeyedBy(k, state[k])
      && (state[k].ElectionRec? ==> WellFormedElection(state[k].election))
  }

  lemma RegisterVoterKeepsConsistent(state: State, voterID: string, name: string, faults: Faults)
    requires Consistent(state)
    ensures Consistent(RegisterVoterOutcome(state, voterID, name, faults).state)
  {
  }

  lemma RegisterElectionKeepsConsistent(
    state: State, electionID: string, name: string, candidates: seq<string>,
    startTime: string, endTime: string,
    parseRFC3339: string -> Option<Timestamp>, faults: Faults)
    requires Consistent(state)
    ensures Consistent(RegisterElectionOutcome(state, electionID, name, candidates,
                                               startTime, endTime, parseRFC3339, faults).state)
  {
    ZeroTallyBalanced(candidates);
  }
}
