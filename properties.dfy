/** Properties of the voting contract's transactions that relate several calls. */
module Properties {
  import opened Wrappers
  import opened Tally
  import opened Records
  import opened Transactions

  /** The three existence-check scenarios: present value, absent key, read error. */
  lemma IsStateExistsScenarios()
    ensures IsStateExists(map["voter1" := Foreign([0x73, 0x6f, 0x6d, 0x65, 0x2d, 0x76, 0x61, 0x6c, 0x75, 0x65])],
                          "voter1", NoFaults) == Success(true)
    ensures IsStateExists(map[], "non-existing-key", NoFaults) == Success(false)
    ensures IsStateExists(map[], "error-key", Faults(true, false, false)).Failure?
  {
  }

  /**
   * Registering the same voter twice: the second call is refused and the
   * record the first call stored stays as it was.
   */
  lemma RegisterVoterTwice(state: State, voterID: string, name1: string, name2: string,
                           first: Faults, second: Faults)
    requires RegisterVoterOutcome(state, voterID, name1, first).err.None?
    requires !second.getStateFails
    ensures var after := RegisterVoterOutcome(state, voterID, name1, first).state;
      && RegisterVoterOutcome(after, voterID, name2, second) == Outcome(Some(VoterAlreadyExists(voterID)), after)
      && after[voterID] == VoterRec(Voter(voterID, name1, true))
  {
  }

  /** An election's key cannot then be registered as a voter. */
  lemma ElectionKeyBlocksVoter(
    state: State, key: string, electionName: string, candidates: seq<string>,
    startTime: string, endTime: string, parseRFC3339: string -> Option<Timestamp>,
    voterName: string, first: Faults, second: Faults)
    requires RegisterElectionOutcome(state, key, electionName, candidates, startTime, endTime,
                                     parseRFC3339, first).err.None?
    requires !second.getStateFails
    ensures var after := RegisterElectionOutcome(state, key, electionName, candidates, startTime, endTime,
                                                 parseRFC3339, first).state;
      RegisterVoterOutcome(after, key, voterName, second) == Outcome(Some(VoterAlreadyExists(key)), after)
  {
  }

  /** A voter's key cannot then be registered as an election. */
  lemma VoterKeyBlocksElection(
    state: State, key: string, voterName: string,
    electionName: string, candidates: seq<string>,
    startTime: string, endTime: string, parseRFC3339: string -> Option<Timestamp>,
    first: Faults, second: Faults)
    requires RegisterVoterOutcome(state, key, voterName, first).err.None?
    requires !second.getStateFails
    ensures var after := RegisterVoterOutcome(state, key, voterName, first).state;
      RegisterElectionOutcome(after, key, electionName, candidates, startTime, endTime, parseRFC3339, second)
        == Outcome(Some(ElectionAlreadyExists(key)), after)
  {
  }

  /**
   * The existence check comes before any parsing: when the key is taken (or
   * cannot be read), neither time string nor the parser affects the outcome.
   */
  lemma ExistenceCheckedBeforeParsing(
    state: State, electionID: string, name: string, candidates: seq<string>,
    start1: string, end1: string, parse1: string -> Option<Timestamp>,
    start2: string, end2: string, parse2: string -> Option<Timestamp>, faults: Faults)
    requires faults.getStateFails || electionID in state
    ensures RegisterElectionOutcome(state, electionID, name, candidates, start1, end1, parse1, faults)
         == RegisterElectionOutcome(state, electionID, name, candidates, start2, end2, parse2, faults)
  {
  }

  /** A start time that does not parse is reported before the end time is looked at. */
  lemma StartTimeCheckedBeforeEndTime(
    state: State, electionID: string, name: string, candidates: seq<string>,
    startTime: string, end1: string, end2: string,
    parseRFC3339: string -> Option<Timestamp>, faults: Faults)
    requires !faults.getStateFails && electionID !in state
    requires parseRFC3339(startTime).None?
    ensures RegisterElectionOutcome(state, electionID, name, candidates, startTime, end1, parseRFC3339, faults)
         == RegisterElectionOutcome(state, electionID, name, candidates, startTime, end2, parseRFC3339, faults)
         == Outcome(Some(InvalidStartTime(electionID)), state)
  {
  }

  /**
   * Neither the roster size nor the order of the two times is checked: a
   * free key with two parseable times is registered even with no candidate,
   * one candidate, or an end before the start.
   */
  lemma AnyRosterAndWindowAccepted(
    state: State, electionID: string, name: string, candidates: seq<string>,
    startTime: string, endTime: string, parseRFC3339: string -> Option<Timestamp>)
    requires electionID !in state
    requires parseRFC3339(startTime).Some? && parseRFC3339(endTime).Some?
    ensures var r := RegisterElectionOutcome(state, electionID, name, candidates, startTime, endTime,
                                             parseRFC3339, NoFaults);
      && r.err == None
      && r.state[electionID].election.candidates == candidates
  {
  }

  /** One call a client submits to the contract. */
  datatype Call =
    | RegisterVoterCall(voterID: string, name: string, faults: Faults)
    | RegisterElectionCall(electionID: string, name: string, candidates: seq<string>,
                           startTime: string, endTime: string, faults: Faults)

  /** The ledger after `call` has run against `state`. */
  function Apply(state: State, call: Call, parseRFC3339: string -> Option<Timestamp>): State
  {
    match call
    case RegisterVoterCall(id, name, faults) =>
      RegisterVoterOutcome(state, id, name, faults).state
    case RegisterElectionCall(id, name, candidates, startTime, endTime, faults) =>
      RegisterElectionOutcome(state, id, name, candidates, startTime, endTime, parseRFC3339, faults).state
  }

  /** The ledger after the calls have run one after another. */
  function Run(state: State, calls: seq<Call>, parseRFC3339: string -> Option<Timestamp>): State
    decreases |calls|
  {
    if calls == [] then state
    else Run(Apply(state, calls[0], parseRFC3339), calls[1..], parseRFC3339)
  }

  /**
   * Registrations only ever add keys: over any sequence of calls, whatever
   * a key held before it still holds afterwards.
   */
  lemma {:induction false} RunNeverOverwrites(
    state: State, calls: seq<Call>, parseRFC3339: string -> Option<Timestamp>)
    ensures forall k :: k in state ==>
      k in Run(state, calls, parseRFC3339) && Run(state, calls, parseRFC3339)[k] == state[k]
    decreases |calls|
  {
    if calls != [] {
      RunNeverOverwrites(Apply(state, calls[0], parseRFC3339), calls[1..], parseRFC3339);
    }
  }

  /** Over any sequence of calls, the ledger stays consistent. */
  lemma {:induction false} RunKeepsConsistent(
    state: State, calls: seq<Call>, parseRFC3339: string -> Option<Timestamp>)
    requires Consistent(state)
    ensures Consistent(Run(state, calls, parseRFC3339))
    decreases |calls|
  {
    if calls != [] {
      match calls[0] {
        case RegisterVoterCall(id, name, faults) =>
          RegisterVoterKeepsConsistent(state, id, name, faults);
        case RegisterElectionCall(id, name, candidates, startTime, endTime, faults) =>
          RegisterElectionKeepsConsistent(state, id, name, candidates, startTime, endTime, parseRFC3339, faults);
      }
      RunKeepsConsistent(Apply(state, calls[0], parseRFC3339), calls[1..], parseRFC3339);
    }
  }
}
