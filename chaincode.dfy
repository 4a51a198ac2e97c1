/**
 * The voting contract run against a ledger that it updates in place: each
 * entry point reads the ledger, runs its checks, and ends with at most one
 * PutState. The `state` field stands for the world state behind the stub.
 */
module Chaincode {
  import opened Wrappers
  import opened Tally
  import opened Records
  import opened Transactions

  class Ledger {
    var state: State

    constructor (initial: State)
      ensures state == initial
    {
      state := initial;
    }

    /** The stub's PutState: records `value` under `key` unless the write fails. */
    method PutState(key: string, value: Record, faults: Faults) returns (err: Option<Error>)
      modifies this
      ensures Outcome(err, state) == PutStateOutcome(old(state), key, value, faults)
    {
      if faults.putStateFails {
        return Some(PutStateFailed(key));
      }
      state := state[key := value];
      err := None;
    }

    method RegisterVoter(voterID: string, name: string, faults: Faults) returns (err: Option<Error>)
      modifies this
      ensures Outcome(err, state) == RegisterVoterOutcome(old(state), voterID, name, faults)
      ensures Consistent(old(state)) ==> Consistent(state)
    {
      if Consistent(state) {
        RegisterVoterKeepsConsistent(state, voterID, name, faults);
      }
      var taken := IsStateExists(state, voterID, faults);
      if taken.Failure? {
        return Some(ExistenceCheckFailed(RegisterVoterOp, taken.error));
      }
      if taken.value {
        return Some(VoterAlreadyExists(voterID));
      }
      var voter := Voter(voterID, name, true);
      if faults.marshalFails {
        return Some(VoterMarshalFailed(voterID));
      }
      err := PutState(voterID, VoterRec(voter), faults);
    }

    method RegisterElection(
      electionID: string, name: string, candidates: seq<string>,
      startTime: string, endTime: string,
      parseRFC3339: string -> Option<Timestamp>, faults: Faults) returns (err: Option<Error>)
      modifies this
      ensures Outcome(err, state) == RegisterElectionOutcome(old(state), electionID, name, candidates,
                                                             startTime, endTime, parseRFC3339, faults)
      ensures Consistent(old(state)) ==> Consistent(state)
    {
      if Consistent(state) {
        RegisterElectionKeepsConsistent(state, electionID, name, candidates,
                                        startTime, endTime, parseRFC3339, faults);
      }
      var taken := IsStateExists(state, electionID, faults);
      if taken.Failure? {
        return Some(ExistenceCheckFailed(RegisterElectionOp, taken.error));
      }
      if taken.value {
        return Some(ElectionAlreadyExists(electionID));
      }
      var start := parseRFC3339(startTime);
      if start.None? {
        return Some(InvalidStartTime(electionID));
      }
      var end := parseRFC3339(endTime);
      if end.None? {
        return Some(InvalidEndTime(electionID));
      }
      // Fewer than two candidates is not rejected here: the source constructs
      // that error and discards it, so registration carries on.
      var votes := ZeroVotes(candidates);
      var hasVoted: map<string, bool> := map[];
      var election := Election(electionID, name, candidates, votes, hasVoted, start.value, end.value);
      if faults.marshalFails {
        return Some(ElectionMarshalFailed(electionID));
      }
      err := PutState(electionID, ElectionRec(election), faults);
    }
  }
}
