/**
 * The records the voting contract keeps in the ledger: voters and elections,
 * which share one key space, plus any other value some other code stored.
 */
module Records {
  import opened Tally

  /**
   * A parsed date-time: the instant in nanoseconds since the Unix epoch and
   * the zone offset the text carried, as Go's time.Time keeps both.
   */
  datatype Timestamp = Timestamp(unixNanos: int, offsetSeconds: int)

  /** A registered voter. */
  datatype Voter = Voter(voterID: string, name: string, isEligibleForVote: bool)

  /** A registered election with its tally and the voters who have voted. */
  datatype Election = Election(
    electionID: string,
    name: string,
    candidates: seq<string>,
    votes: map<string, int>,
    hasVoted: map<string, bool>,
    startTime: Timestamp,
    endTime: Timestamp)

  /**
   * What a key of the ledger holds. `Foreign` is a non-nil value this core
   * did not write (any other bytes put under the key); the existence check
   * treats it like any record.
   */
  datatype Record =
    | VoterRec(voter: Voter)
    | ElectionRec(election: Election)
    | Foreign(raw: seq<bv8>)

  /** A record written by this core sits under its own identifier. */
  predicate KeyedBy(key: string, rec: Record)
  {
    match rec
    case VoterRec(v) => v.voterID == key
    case ElectionRec(e) => e.electionID == key
    case Foreign(_) => true
  }

  /**
   * The election invariants: the tally has exactly one entry per candidate
   * name, no count is negative, and the tally total equals the number of
   * voters marked as having voted. (At least two distinct candidates and a
   * start before the end are not among them: registration does not enforce
   * either.)
   */
  ghost predicate WellFormedElection(e: Election)
  {
    && e.votes.Keys == Names(e.candidates)
    && (forall c :: c in e.votes ==> e.votes[c] >= 0)
    && TallySum(e.votes) == VotedCount(e.hasVoted)
  }
}
