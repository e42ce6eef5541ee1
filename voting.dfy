/** Voting: the overwrite of a repeated vote, the tally the host receives at the end of a
    vote (one result per target in order of first vote, then sorted by count, descending,
    ties kept in that order), and the live vote counts. Votes are kept in the insertion order
    of the voter-keyed map. */
module Voting {
  import opened Types
  import Base

  /** At most one vote per voter: the votes are the values of a map keyed by voter id. */
  predicate VotersDistinct(votes: seq<Vote>) {
    forall i, j :: 0 <= i < j < |votes| ==> votes[i].voterId != votes[j].voterId
  }

  /** The position of `voter`'s vote, if any. */
  function VoteIndex(votes: seq<Vote>, voter: PlayerId): (r: Option<nat>)
    ensures r.None? <==> forall i :: 0 <= i < |votes| ==> votes[i].voterId != voter
    ensures r.Some? ==> r.value < |votes| && votes[r.value].voterId == voter
  {
    if votes == [] then None
    else if votes[0].voterId == voter then Some(0)
    else
      match VoteIndex(votes[1..], voter)
      case None => None
      case Some(i) => Some(i + 1)
  }

  /** `votes.get(voter)` */
  function VoteOf(votes: seq<Vote>, voter: PlayerId): Option<Vote> {
    match VoteIndex(votes, voter)
    case None => None
    case Some(i) => Some(votes[i])
  }

  /** `votes.set(v.voterId, v)`: a repeated vote replaces the voter's earlier one where it
      stands; a first vote goes last. */
  function Recast(votes: seq<Vote>, v: Vote): (r: seq<Vote>)
    ensures |r| == |votes| + (if VoteIndex(votes, v.voterId).None? then 1 else 0)
    ensures v in r
    ensures forall i :: 0 <= i < |votes| && votes[i].voterId != v.voterId ==> r[i] == votes[i]
    ensures VotersDistinct(votes) ==> VotersDistinct(r)
  {
    match VoteIndex(votes, v.voterId)
    case Some(i) =>
      assert votes[i := v][i] == v;
      votes[i := v]
    case None => votes + [v]
  }

  /** Every vote after a recast is the new one or an earlier one. */
  lemma RecastHolds(votes: seq<Vote>, v: Vote)
    ensures forall x :: x in Recast(votes, v) ==> x == v || x in votes
  {
    match VoteIndex(votes, v.voterId)
    case None =>
    case Some(i) =>
      forall x | x in votes[i := v] ensures x == v || x in votes {
        var k :| 0 <= k < |votes| && votes[i := v][k] == x;
        if k != i {
          assert votes[k] == x;
        }
      }
  }

  /** After a vote, the voter's vote is the new one and everybody else's is what it was. */
  lemma RecastReads(votes: seq<Vote>, v: Vote, voter: PlayerId)
    requires VotersDistinct(votes)
    ensures VoteOf(Recast(votes, v), voter) == if voter == v.voterId then Some(v) else VoteOf(votes, voter)
  {
    var r := Recast(votes, v);
    match VoteIndex(r, voter)
    case None =>
    case Some(k) =>
      if k < |votes| && voter != v.voterId {
        assert r[k] == votes[k];
      }
  }

  /** The names of the voters who chose `t`, in vote order. */
  function VotersFor(votes: seq<Vote>, t: PlayerId): seq<string> {
    if votes == [] then []
    else VotersFor(votes[..|votes| - 1], t) + (if votes[|votes| - 1].targetId == t then [votes[|votes| - 1].voterName] else [])
  }

  /** Whether `t` received a vote. */
  predicate Voted(votes: seq<Vote>, t: PlayerId) {
    exists i :: 0 <= i < |votes| && votes[i].targetId == t
  }

  lemma VotedStep(votes: seq<Vote>, t: PlayerId)
    requires votes != []
    ensures Voted(votes, t) <==> Voted(votes[..|votes| - 1], t) || votes[|votes| - 1].targetId == t
  {
    var prefix := votes[..|votes| - 1];
    if Voted(votes, t) && votes[|votes| - 1].targetId != t {
      var i :| 0 <= i < |votes| && votes[i].targetId == t;
      assert prefix[i].targetId == t;
    }
    if Voted(prefix, t) {
      var i :| 0 <= i < |prefix| && prefix[i].targetId == t;
      assert votes[i].targetId == t;
    }
  }

  /** The players who received a vote, each once, in order of their first vote. */
  function Targets(votes: seq<Vote>): (r: seq<PlayerId>)
    ensures Distinct(r)
    ensures forall t :: t in r <==> Voted(votes, t)
  {
    if votes == [] then []
    else
      var prev := Targets(votes[..|votes| - 1]);
      var t := votes[|votes| - 1].targetId;
      assert forall u :: Voted(votes, u) <==> Voted(votes[..|votes| - 1], u) || t == u by {
        forall u ensures Voted(votes, u) <==> Voted(votes[..|votes| - 1], u) || t == u {
          VotedStep(votes, u);
        }
      }
      if t in prev then prev else prev + [t]
  }

  /** A player without a vote has no voters. */
  lemma {:induction false} NoVotersOutsideTargets(votes: seq<Vote>, t: PlayerId)
    requires t !in Targets(votes)
    ensures VotersFor(votes, t) == []
  {
    if votes != [] {
      var prefix := votes[..|votes| - 1];
      assert t !in Targets(prefix);
      NoVotersOutsideTargets(prefix, t);
    }
  }

  /** Every player with a vote has at least one voter. */
  lemma {:induction false} TargetsHaveVoters(votes: seq<Vote>, t: PlayerId)
    requires t in Targets(votes)
    ensures |VotersFor(votes, t)| >= 1
  {
    var prefix := votes[..|votes| - 1];
    if votes[|votes| - 1].targetId != t {
      TargetsHaveVoters(prefix, t);
    }
  }

  /** How many votes the targets `ts` received together. */
  function VotesFor(votes: seq<Vote>, ts: seq<PlayerId>): nat {
    if ts == [] then 0 else |VotersFor(votes, ts[0])| + VotesFor(votes, ts[1..])
  }

  /** One more vote adds one to the total of a list of targets that holds its target once. */
  lemma {:induction false} VotesForStep(prefix: seq<Vote>, v: Vote, ts: seq<PlayerId>)
    requires Distinct(ts)
    ensures VotesFor(prefix + [v], ts) == VotesFor(prefix, ts) + (if v.targetId in ts then 1 else 0)
  {
    var votes := prefix + [v];
    assert votes[..|votes| - 1] == prefix;
    if ts != [] {
      assert Distinct(ts[1..]) by {
        forall i, j | 0 <= i < j < |ts[1..]| ensures ts[1..][i] != ts[1..][j] {
          assert ts[1..][i] == ts[i + 1] && ts[1..][j] == ts[j + 1];
        }
      }
      VotesForStep(prefix, v, ts[1..]);
      assert v.targetId in ts <==> v.targetId == ts[0] || v.targetId in ts[1..];
      if v.targetId == ts[0] {
        assert ts[0] !in ts[1..] by {
          forall k | 0 <= k < |ts[1..]| ensures ts[1..][k] != ts[0] {
            assert ts[1..][k] == ts[k + 1];
          }
        }
      }
    }
  }

  lemma {:induction false} VotesForAppend(votes: seq<Vote>, ts: seq<PlayerId>, t: PlayerId)
    ensures VotesFor(votes, ts + [t]) == VotesFor(votes, ts) + |VotersFor(votes, t)|
  {
    if ts != [] {
      assert (ts + [t])[1..] == ts[1..] + [t];
      VotesForAppend(votes, ts[1..], t);
    }
  }

  /** Every vote is counted exactly once: the counts of all targets add up to the number of
      votes. */
  lemma {:induction false} AllVotesCounted(votes: seq<Vote>)
    ensures VotesFor(votes, Targets(votes)) == |votes|
  {
    if votes != [] {
      var prefix := votes[..|votes| - 1];
      var v := votes[|votes| - 1];
      assert votes == prefix + [v];
      AllVotesCounted(prefix);
      var prev := Targets(prefix);
      VotesForStep(prefix, v, Targets(votes));
      if v.targetId in prev {
        assert Targets(votes) == prev;
      } else {
        assert Targets(votes) == prev + [v.targetId];
        VotesForAppend(prefix, prev, v.targetId);
        NoVotersOutsideTargets(prefix, v.targetId);
      }
    }
  }

  /** `target?.name || 'Unknown'` */
  function TargetName(players: map<PlayerId, Player>, t: PlayerId): string {
    if t in players && players[t].name != "" then players[t].name else "Unknown"
  }

  /** The tally before sorting: one result per target, in order of first vote, with its
      voters' names in vote order and their number. */
  function Unsorted(votes: seq<Vote>, players: map<PlayerId, Player>): (r: seq<VotingResult>)
    ensures |r| == |Targets(votes)|
  {
    var ts := Targets(votes);
    seq(|ts|, i requires 0 <= i < |ts| =>
      VotingResult(ts[i], TargetName(players, ts[i]), |VotersFor(votes, ts[i])|, VotersFor(votes, ts[i])))
  }

  predicate SortedDesc(s: seq<VotingResult>) {
    forall i, j :: 0 <= i < j < |s| ==> s[i].voteCount >= s[j].voteCount
  }

  /** Insert `x` after every result with at least its count. */
  function Insert(x: VotingResult, s: seq<VotingResult>): seq<VotingResult> {
    if s == [] then [x]
    else if s[0].voteCount >= x.voteCount then [s[0]] + Insert(x, s[1..])
    else [x] + s
  }

  /** `results.sort((a, b) => b.voteCount - a.voteCount)`: a stable sort, descending by count. */
  function SortDesc(s: seq<VotingResult>): seq<VotingResult> {
    if s == [] then [] else Insert(s[|s| - 1], SortDesc(s[..|s| - 1]))
  }

  lemma {:induction false} InsertPermutation(x: VotingResult, s: seq<VotingResult>)
    ensures multiset(Insert(x, s)) == multiset(s) + multiset{x}
  {
    if s != [] && s[0].voteCount >= x.voteCount {
      InsertPermutation(x, s[1..]);
      assert s == [s[0]] + s[1..];
    }
  }

  lemma {:induction false} InsertSorted(x: VotingResult, s: seq<VotingResult>)
    requires SortedDesc(s)
    ensures SortedDesc(Insert(x, s))
  {
    if s != [] && s[0].voteCount >= x.voteCount {
      var rest := Insert(x, s[1..]);
      InsertSorted(x, s[1..]);
      InsertPermutation(x, s[1..]);
      forall k | 0 <= k < |rest| ensures rest[k].voteCount <= s[0].voteCount {
        assert rest[k] in multiset(rest);
        assert rest[k] == x || rest[k] in s[1..];
      }
      var r := [s[0]] + rest;
      forall i, j | 0 <= i < j < |r| ensures r[i].voteCount >= r[j].voteCount {
        assert r[j] == rest[j - 1];
        if i > 0 {
          assert r[i] == rest[i - 1];
        }
      }
    }
  }

  /** The sort rearranges the results. */
  lemma {:induction false} SortPermutation(s: seq<VotingResult>)
    ensures multiset(SortDesc(s)) == multiset(s)
  {
    if s != [] {
      SortPermutation(s[..|s| - 1]);
      InsertPermutation(s[|s| - 1], SortDesc(s[..|s| - 1]));
      assert s == s[..|s| - 1] + [s[|s| - 1]];
    }
  }

  /** The sort orders the results by count, descending. */
  lemma {:induction false} SortSorted(s: seq<VotingResult>)
    ensures SortedDesc(SortDesc(s))
  {
    if s != [] {
      SortSorted(s[..|s| - 1]);
      InsertSorted(s[|s| - 1], SortDesc(s[..|s| - 1]));
    }
  }

  /** The results with count `c`, in order. */
  function WithCount(s: seq<VotingResult>, c: nat): seq<VotingResult> {
    if s == [] then []
    else (if s[0].voteCount == c then [s[0]] else []) + WithCount(s[1..], c)
  }

  lemma {:induction false} WithCountAppend(a: seq<VotingResult>, b: seq<VotingResult>, c: nat)
    ensures WithCount(a + b, c) == WithCount(a, c) + WithCount(b, c)
  {
    if a == [] {
      assert a + b == b;
    } else {
      assert (a + b)[1..] == a[1..] + b;
      WithCountAppend(a[1..], b, c);
    }
  }

  lemma {:induction false} WithCountNone(s: seq<VotingResult>, c: nat)
    requires forall i :: 0 <= i < |s| ==> s[i].voteCount < c
    ensures WithCount(s, c) == []
  {
    if s != [] {
      WithCountNone(s[1..], c);
    }
  }

  lemma {:induction false} InsertStable(x: VotingResult, s: seq<VotingResult>, c: nat)
    requires SortedDesc(s)
    ensures WithCount(Insert(x, s), c) == WithCount(s, c) + (if x.voteCount == c then [x] else [])
  {
    var tail := if x.voteCount == c then [x] else [];
    if s == [] {
    } else if s[0].voteCount >= x.voteCount {
      var head := if s[0].voteCount == c then [s[0]] else [];
      assert SortedDesc(s[1..]) by {
        forall i, j | 0 <= i < j < |s| - 1 ensures s[1..][i].voteCount >= s[1..][j].voteCount {
          assert s[1..][i] == s[i + 1] && s[1..][j] == s[j + 1];
        }
      }
      InsertStable(x, s[1..], c);
      assert ([s[0]] + Insert(x, s[1..]))[1..] == Insert(x, s[1..]);
      calc {
        WithCount(Insert(x, s), c);
        WithCount([s[0]] + Insert(x, s[1..]), c);
        head + WithCount(Insert(x, s[1..]), c);
        head + (WithCount(s[1..], c) + tail);
        (head + WithCount(s[1..], c)) + tail;
      }
    } else {
      assert ([x] + s)[1..] == s;
      if x.voteCount == c {
        assert forall i :: 0 <= i < |s| ==> s[i].voteCount <= s[0].voteCount;
        WithCountNone(s, c);
      }
    }
  }

  /** The sort is stable: the results with any one count keep their order. */
  lemma {:induction false} SortStable(s: seq<VotingResult>, c: nat)
    ensures WithCount(SortDesc(s), c) == WithCount(s, c)
  {
    if s != [] {
      var prefix := s[..|s| - 1];
      var x := s[|s| - 1];
      SortStable(prefix, c);
      SortSorted(prefix);
      InsertStable(x, SortDesc(prefix), c);
      assert s == prefix + [x];
      WithCountAppend(prefix, [x], c);
    }
  }

  /** What one more vote does to the targets and to the voters of each target. */
  lemma TargetsStep(votes: seq<Vote>, i: nat)
    requires i < |votes|
    ensures Targets(votes[..i + 1]) ==
      if votes[i].targetId in Targets(votes[..i]) then Targets(votes[..i]) else Targets(votes[..i]) + [votes[i].targetId]
  {
    assert votes[..i + 1][..i] == votes[..i] && votes[..i + 1][i] == votes[i];
  }

  lemma VotersStep(votes: seq<Vote>, i: nat)
    requires i < |votes|
    ensures forall t :: (VotersFor(votes[..i + 1], t) ==
      VotersFor(votes[..i], t) + (if votes[i].targetId == t then [votes[i].voterName] else []))
  {
    assert votes[..i + 1][..i] == votes[..i] && votes[..i + 1][i] == votes[i];
  }

  /** A running count of the votes for one target, and the names of its voters. */
  datatype Count = Count(count: nat, voters: seq<string>)

  /** `counts` holds, for each of its targets, the number and the names of its voters. */
  predicate CountsMatch(votes: seq<Vote>, counts: map<PlayerId, Count>) {
    forall t :: t in counts ==> counts[t] == Count(|VotersFor(votes, t)|, VotersFor(votes, t))
  }

  lemma CountsStep(votes: seq<Vote>, i: nat, counts: map<PlayerId, Count>)
    requires i < |votes|
    requires CountsMatch(votes[..i], counts)
    requires votes[i].targetId !in counts ==> VotersFor(votes[..i], votes[i].targetId) == []
    ensures
      var t := votes[i].targetId;
      var prior := if t in counts then counts[t] else Count(0, []);
      CountsMatch(votes[..i + 1], counts[t := Count(prior.count + 1, prior.voters + [votes[i].voterName])])
  {
    VotersStep(votes, i);
    var t := votes[i].targetId;
    var prior := if t in counts then counts[t] else Count(0, []);
    var next := counts[t := Count(prior.count + 1, prior.voters + [votes[i].voterName])];
    forall u | u in next ensures next[u] == Count(|VotersFor(votes[..i + 1], u)|, VotersFor(votes[..i + 1], u)) {
      var before := VotersFor(votes[..i], u);
      assert VotersFor(votes[..i + 1], u) == before + (if t == u then [votes[i].voterName] else []);
      if u == t {
        assert prior == Count(|before|, before);
      } else {
        assert next[u] == counts[u];
      }
    }
  }

  /** After the first `i` votes: `keys` lists the targets so far, `counts` has exactly those
      keys, and each entry holds the number and names of that target's voters so far. */
  ghost predicate Counted(votes: seq<Vote>, i: nat, keys: seq<PlayerId>, counts: map<PlayerId, Count>)
    requires i <= |votes|
  {
    keys == Targets(votes[..i]) && (forall t :: t in counts <==> t in keys) && CountsMatch(votes[..i], counts)
  }

  /** One turn of the counting loop keeps `Counted`. */
  lemma CountedStep(votes: seq<Vote>, i: nat, keys: seq<PlayerId>, counts: map<PlayerId, Count>)
    requires i < |votes| && Counted(votes, i, keys, counts)
    ensures
      var t := votes[i].targetId;
      var prior := if t in counts then counts[t] else Count(0, []);
      Counted(votes, i + 1, if t in counts then keys else keys + [t],
              counts[t := Count(prior.count + 1, prior.voters + [votes[i].voterName])])
  {
    var t := votes[i].targetId;
    TargetsStep(votes, i);
    if t !in counts {
      NoVotersOutsideTargets(votes[..i], t);
    }
    CountsStep(votes, i, counts);
  }

  /** The first loop of `endVoting`: per target, in order of first vote, its number of
      votes and its voters' names in vote order. */
  method CountByTarget(votes: seq<Vote>) returns (keys: seq<PlayerId>, counts: map<PlayerId, Count>)
    ensures keys == Targets(votes)
    ensures forall t :: t in counts <==> t in keys
    ensures forall t :: t in counts ==> counts[t] == Count(|VotersFor(votes, t)|, VotersFor(votes, t))
  {
    keys := [];
    counts := map[];
    var i := 0;
    while i < |votes|
      invariant 0 <= i <= |votes|
      invariant Counted(votes, i, keys, counts)
    {
      var v := votes[i];
      CountedStep(votes, i, keys, counts);
      var prior := if v.targetId in counts then counts[v.targetId] else Count(0, []);
      if v.targetId !in counts {
        keys := keys + [v.targetId];
      }
      counts := counts[v.targetId := Count(prior.count + 1, prior.voters + [v.voterName])];
      i := i + 1;
    }
    assert votes[..i] == votes;
  }

  /** The tally of `endVoting`: count the votes target by target, list one result per
      target, then sort. */
  method Tally(votes: seq<Vote>, players: map<PlayerId, Player>) returns (results: seq<VotingResult>)
    ensures results == SortDesc(Unsorted(votes, players))
  {
    var keys, counts := CountByTarget(votes);
    var unsorted: seq<VotingResult> := [];
    var j := 0;
    while j < |keys|
      invariant 0 <= j <= |keys|
      invariant unsorted == Unsorted(votes, players)[..j]
    {
      var t := keys[j];
      assert Unsorted(votes, players)[..j + 1] == Unsorted(votes, players)[..j] + [Unsorted(votes, players)[j]];
      unsorted := unsorted + [VotingResult(t, TargetName(players, t), counts[t].count, counts[t].voters)];
      j := j + 1;
    }
    assert unsorted == Unsorted(votes, players);
    results := SortDesc(unsorted);
  }

  /** Whether a result for `t` is listed. */
  predicate Lists(results: seq<VotingResult>, t: PlayerId) {
    exists r :: r in results && r.targetId == t
  }

  /** Each result of a tally lists the names of exactly the voters who chose its target, in
      vote order, counts them (at least one) and names the target. */
  lemma TallyEntries(votes: seq<Vote>, players: map<PlayerId, Player>)
    ensures forall r :: r in SortDesc(Unsorted(votes, players)) ==>
      r.voters == VotersFor(votes, r.targetId) && r.voteCount == |r.voters| >= 1 &&
      r.targetName == TargetName(players, r.targetId)
  {
    var u := Unsorted(votes, players);
    var s := SortDesc(u);
    SortPermutation(u);
    forall r | r in s
      ensures r.voters == VotersFor(votes, r.targetId) && r.voteCount == |r.voters| >= 1
      ensures r.targetName == TargetName(players, r.targetId)
    {
      assert r in multiset(u);
      var i :| 0 <= i < |u| && u[i] == r;
      TargetsHaveVoters(votes, Targets(votes)[i]);
    }
  }

  /** A tally lists exactly the players who received a vote. */
  lemma TallyTargets(votes: seq<Vote>, players: map<PlayerId, Player>, t: PlayerId)
    ensures Lists(SortDesc(Unsorted(votes, players)), t) <==> Voted(votes, t)
  {
    var u := Unsorted(votes, players);
    var s := SortDesc(u);
    SortPermutation(u);
    if t in Targets(votes) {
      var i :| 0 <= i < |Targets(votes)| && Targets(votes)[i] == t;
      assert u[i] in multiset(s);
    }
    if r :| r in s && r.targetId == t {
      assert r in multiset(u);
    }
  }

  /** A tally is sorted by count, descending; results with equal counts stay in the order of
      the first vote for their target. */
  lemma TallyOrder(votes: seq<Vote>, players: map<PlayerId, Player>, c: nat)
    ensures SortedDesc(SortDesc(Unsorted(votes, players)))
    ensures WithCount(SortDesc(Unsorted(votes, players)), c) == WithCount(Unsorted(votes, players), c)
  {
    SortSorted(Unsorted(votes, players));
    SortStable(Unsorted(votes, players), c);
  }

  /** The targets of a list of results, in order. */
  function TargetIds(rs: seq<VotingResult>): seq<PlayerId> {
    if rs == [] then [] else [rs[0].targetId] + TargetIds(rs[1..])
  }

  /** The counts of a list of results added up. */
  function SumCounts(rs: seq<VotingResult>): nat {
    if rs == [] then 0 else rs[0].voteCount + SumCounts(rs[1..])
  }

  lemma {:induction false} TargetIdsAppend(a: seq<VotingResult>, b: seq<VotingResult>)
    ensures TargetIds(a + b) == TargetIds(a) + TargetIds(b)
    ensures SumCounts(a + b) == SumCounts(a) + SumCounts(b)
  {
    if a == [] {
      assert a + b == b;
    } else {
      assert (a + b)[1..] == a[1..] + b;
      TargetIdsAppend(a[1..], b);
    }
  }

  /** Inserting a result adds its target to the targets and its count to the total. */
  lemma {:induction false} InsertTargets(x: VotingResult, s: seq<VotingResult>)
    ensures multiset(TargetIds(Insert(x, s))) == multiset(TargetIds(s)) + multiset{x.targetId}
    ensures SumCounts(Insert(x, s)) == SumCounts(s) + x.voteCount
  {
    if s != [] && s[0].voteCount >= x.voteCount {
      InsertTargets(x, s[1..]);
      assert ([s[0]] + Insert(x, s[1..]))[1..] == Insert(x, s[1..]);
    } else if s != [] {
      assert ([x] + s)[1..] == s;
    }
  }

  /** Sorting keeps the targets, as a multiset, and the total count. */
  lemma {:induction false} SortTargets(s: seq<VotingResult>)
    ensures multiset(TargetIds(SortDesc(s))) == multiset(TargetIds(s))
    ensures SumCounts(SortDesc(s)) == SumCounts(s)
  {
    if s != [] {
      var prefix := s[..|s| - 1];
      var x := s[|s| - 1];
      var sorted := SortDesc(prefix);
      assert SortDesc(s) == Insert(x, sorted);
      SortTargets(prefix);
      InsertTargets(x, sorted);
      assert s == prefix + [x];
      TargetIdsAppend(prefix, [x]);
      assert TargetIds([x]) == [x.targetId] && SumCounts([x]) == x.voteCount by {
        assert [x][1..] == [];
      }
    }
  }

  /** Results that follow `ts` one to one, each counting its target's voters, list exactly
      `ts` and add up to the votes of `ts`. */
  lemma {:induction false} ResultsFollowTargets(votes: seq<Vote>, ts: seq<PlayerId>, u: seq<VotingResult>)
    requires |u| == |ts|
    requires forall i :: 0 <= i < |u| ==> u[i].targetId == ts[i] && u[i].voteCount == |VotersFor(votes, ts[i])|
    ensures TargetIds(u) == ts
    ensures SumCounts(u) == VotesFor(votes, ts)
  {
    if u != [] {
      ResultsFollowTargets(votes, ts[1..], u[1..]);
    }
  }

  /** A tally names every target once, and its counts add up to the number of votes cast. */
  lemma TallySum(votes: seq<Vote>, players: map<PlayerId, Player>)
    ensures Distinct(TargetIds(SortDesc(Unsorted(votes, players))))
    ensures SumCounts(SortDesc(Unsorted(votes, players))) == |votes|
  {
    var u := Unsorted(votes, players);
    ResultsFollowTargets(votes, Targets(votes), u);
    AllVotesCounted(votes);
    SortTargets(u);
    Base.PermutationKeepsDistinct(Targets(votes), TargetIds(SortDesc(u)));
  }

  /** The live counts of `getVotingView`: votes per target, for the targets with a vote. */
  method CountVotes(votes: seq<Vote>) returns (counts: map<PlayerId, nat>)
    ensures forall t :: t in counts <==> exists i :: 0 <= i < |votes| && votes[i].targetId == t
    ensures forall t :: t in counts ==> counts[t] == |VotersFor(votes, t)|
  {
    counts := map[];
    var i := 0;
    while i < |votes|
      invariant 0 <= i <= |votes|
      invariant forall t :: t in counts <==> t in Targets(votes[..i])
      invariant forall t :: t in counts ==> counts[t] == |VotersFor(votes[..i], t)|
    {
      var t := votes[i].targetId;
      assert votes[..i + 1][..i] == votes[..i];
      if t !in counts {
        NoVotersOutsideTargets(votes[..i], t);
      }
      counts := counts[t := (if t in counts then counts[t] else 0) + 1];
      i := i + 1;
    }
    assert votes[..i] == votes;
  }
}
