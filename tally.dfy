/**
 * The vote tally of an election: a map from candidate name to count.
 * Registration builds it with one zero entry per candidate name; a roster
 * that repeats a name gets a single entry for it.
 */
module Tally {

  /** The set of names a roster mentions. */
  function Names(candidates: seq<string>): set<string>
  {
    set c | c in candidates
  }

  /** No name occurs twice in the roster. */
  predicate Distinct(candidates: seq<string>)
  {
    forall i, j :: 0 <= i < j < |candidates| ==> candidates[i] != candidates[j]
  }

  /** The tally a freshly registered election starts from. */
  function ZeroTally(candidates: seq<string>): map<string, int>
  {
    map c | c in candidates :: 0
  }

  /**
   * The `for _, c := range candidates { votes[c] = 0 }` loop of registration:
   * every roster name gets an entry, each entry is zero, and nothing else is
   * in the map.
   */
  method ZeroVotes(candidates: seq<string>) returns (votes: map<string, int>)
    ensures votes.Keys == Names(candidates)
    ensures forall c :: c in votes ==> votes[c] == 0
    ensures votes == ZeroTally(candidates)
  {
    votes := map[];
    var i := 0;
    while i < |candidates|
      invariant 0 <= i <= |candidates|
      invariant votes.Keys == Names(candidates[..i])
      invariant forall c :: c in votes ==> votes[c] == 0
    {
      assert candidates[..i + 1] == candidates[..i] + [candidates[i]];
      votes := votes[candidates[i] := 0];
      i := i + 1;
    }
    assert candidates[..i] == candidates;
  }

  /**
   * A roster has at most as many distinct names as entries, and exactly as
   * many precisely when no name is repeated.
   */
  lemma {:induction false} NamesCount(candidates: seq<string>)
    ensures |Names(candidates)| <= |candidates|
    ensures |Names(candidates)| == |candidates| <==> Distinct(candidates)
  {
    if candidates == [] {
      assert Names(candidates) == {};
    } else {
      var rest := candidates[1..];
      NamesCount(rest);
      assert Names(candidates) == {candidates[0]} + Names(rest);
      if candidates[0] in rest {
        assert Names(candidates) == Names(rest);
        var j :| 0 <= j < |rest| && rest[j] == candidates[0];
        assert candidates[j + 1] == candidates[0];
        assert !Distinct(candidates);
      } else {
        assert |Names(candidates)| == 1 + |Names(rest)|;
        if Distinct(rest) {
          forall i, j | 0 <= i < j < |candidates|
            ensures candidates[i] != candidates[j]
          {
            if i == 0 {
              assert candidates[j] == rest[j - 1];
            } else {
              assert candidates[i] == rest[i - 1] && candidates[j] == rest[j - 1];
            }
          }
        } else {
          var i, j :| 0 <= i < j < |rest| && rest[i] == rest[j];
          assert candidates[i + 1] == candidates[j + 1];
        }
      }
    }
  }

  /**
   * The starting tally has exactly the roster's names as keys, all zero;
   * it has one entry per roster entry exactly when the roster has no
   * duplicates, and fewer otherwise.
   */
  lemma ZeroTallyShape(candidates: seq<string>)
    ensures ZeroTally(candidates).Keys == Names(candidates)
    ensures forall c :: c in ZeroTally(candidates) ==> ZeroTally(candidates)[c] == 0
    ensures |ZeroTally(candidates)| <= |candidates|
    ensures |ZeroTally(candidates)| == |candidates| <==> Distinct(candidates)
  {
    NamesCount(candidates);
    assert |ZeroTally(candidates)| == |ZeroTally(candidates).Keys|;
  }

  /** The sum of the counts of the given candidates. */
  ghost function SumOver(votes: map<string, int>, names: set<string>): int
    requires names <= votes.Keys
    decreases names
  {
    if names == {} then 0
    else
      var c :| c in names;
      votes[c] + SumOver(votes, names - {c})
  }

  /** The total number of votes a tally records. */
  ghost function TallySum(votes: map<string, int>): int
  {
    SumOver(votes, votes.Keys)
  }

  /** The number of voters marked as having voted. */
  ghost function VotedCount(hasVoted: map<string, bool>): nat
  {
    |set v | v in hasVoted && hasVoted[v]|
  }

  /** A tally whose counts are all zero sums to zero, over any of its names. */
  lemma {:induction false} ZeroSumOver(votes: map<string, int>, names: set<string>)
    requires names <= votes.Keys
    requires forall c :: c in votes ==> votes[c] == 0
    ensures SumOver(votes, names) == 0
    decreases names
  {
    if names != {} {
      forall c | c in names
        ensures SumOver(votes, names - {c}) == 0
      {
        ZeroSumOver(votes, names - {c});
      }
    }
  }

  /**
   * A new election's tally total (zero) matches the number of voters marked
   * in an empty `hasVoted` map, so the tally invariant holds from the start.
   */
  lemma ZeroTallyBalanced(candidates: seq<string>)
    ensures TallySum(ZeroTally(candidates)) == 0
    ensures TallySum(ZeroTally(candidates)) == VotedCount(map[])
  {
    ZeroSumOver(ZeroTally(candidates), ZeroTally(candidates).Keys);
  }
}
