/** How many players hold each role after role assignment, whatever order the shuffle
    produced; and the alibi assignment as its code is written, which can leave two culprits. */
module Roles {
  import opened Types
  import opened Variants
  import Base
  import Alibi

  /** How many of the positions `from .. n-1` of `n` shuffled players the variant gives `role`. */
  function PositionsWith(k: GameKind, n: nat, from: nat, role: Role): nat
    decreases n - from
  {
    if from >= n then 0
    else (if RoleAt(k, from, n) == role then 1 else 0) + PositionsWith(k, n, from + 1, role)
  }

  lemma {:induction false} CountRoleAppend(players: map<PlayerId, Player>, a: seq<PlayerId>, b: seq<PlayerId>, role: Role)
    ensures CountRole(players, a + b, role) == CountRole(players, a, role) + CountRole(players, b, role)
  {
    if a == [] {
      assert a + b == b;
    } else {
      assert (a + b)[1..] == a[1..] + b;
      CountRoleAppend(players, a[1..], b, role);
    }
  }

  /** Counting only looks at the non-hosts, so it may as well count the filtered list. */
  lemma {:induction false} CountRoleNonHosts(players: map<PlayerId, Player>, ids: seq<PlayerId>, role: Role)
    ensures CountRole(players, ids, role) == CountRole(players, NonHosts(players, ids), role)
  {
    if ids != [] {
      var head := if ids[0] in players && !players[ids[0]].isHost then [ids[0]] else [];
      CountRoleNonHosts(players, ids[1..], role);
      CountRoleAppend(players, head, NonHosts(players, ids[1..]), role);
    }
  }

  /** Taking the element at `j` out of `b`. */
  lemma RemoveAt(players: map<PlayerId, Player>, b: seq<PlayerId>, j: nat, role: Role)
    requires j < |b|
    ensures multiset(b[..j] + b[j + 1..]) == multiset(b) - multiset{b[j]}
    ensures CountRole(players, b, role) == CountRole(players, [b[j]], role) + CountRole(players, b[..j] + b[j + 1..], role)
  {
    assert b == b[..j] + [b[j]] + b[j + 1..];
    CountRoleAppend(players, b[..j] + [b[j]], b[j + 1..], role);
    CountRoleAppend(players, b[..j], [b[j]], role);
    CountRoleAppend(players, b[..j], b[j + 1..], role);
  }

  /** Counting does not depend on the order of the ids. */
  lemma {:induction false} CountRolePermutation(players: map<PlayerId, Player>, a: seq<PlayerId>, b: seq<PlayerId>, role: Role)
    requires multiset(a) == multiset(b)
    ensures CountRole(players, a, role) == CountRole(players, b, role)
    decreases |a|
  {
    if a == [] {
      assert |b| == |multiset(b)| == 0;
    } else {
      var x := a[0];
      assert a == [x] + a[1..];
      assert x in multiset(b);
      var j :| 0 <= j < |b| && b[j] == x;
      RemoveAt(players, b, j, role);
      assert multiset(a[1..]) == multiset(a) - multiset{x};
      CountRolePermutation(players, a[1..], b[..j] + b[j + 1..], role);
      assert CountRole(players, a, role) == CountRole(players, [x], role) + CountRole(players, a[1..], role) by {
        CountRoleAppend(players, [x], a[1..], role);
      }
    }
  }

  /** Two tables with the same keys and the same hosts have the same non-hosts. */
  lemma {:induction false} NonHostsSameHosts(p: map<PlayerId, Player>, q: map<PlayerId, Player>, ids: seq<PlayerId>)
    requires p.Keys == q.Keys
    requires forall id :: id in p ==> q[id].isHost == p[id].isHost
    ensures NonHosts(p, ids) == NonHosts(q, ids)
  {
    if ids != [] {
      NonHostsSameHosts(p, q, ids[1..]);
    }
  }

  /** Over the shuffled positions from `from` on, the roles written are counted position by
      position. */
  lemma {:induction false} CountShuffled(k: GameKind, c: AIContent, before: map<PlayerId, Player>, after: map<PlayerId, Player>,
                                         shuffled: seq<PlayerId>, levelDraw: nat -> nat, from: nat, role: Role)
    requires Base.IsAssignment(k, c, before, after, shuffled, levelDraw)
    requires |shuffled| >= MinEligible(k)
    requires forall id :: id in shuffled ==> id in before && !before[id].isHost
    requires from <= |shuffled|
    ensures CountRole(after, shuffled[from..], role) == PositionsWith(k, |shuffled|, from, role)
    decreases |shuffled| - from
  {
    if from < |shuffled| {
      var id := shuffled[from];
      var slot := SlotAt(k, c, from, |shuffled|, levelDraw(from));
      assert after[id] == Apply(before[id], slot);
      assert after[id].role == RoleAt(k, from, |shuffled|) && !after[id].isHost;
      assert shuffled[from..][1..] == shuffled[from + 1..];
      CountShuffled(k, c, before, after, shuffled, levelDraw, from + 1, role);
    }
  }

  /** Past the second position, every position is normal. */
  lemma {:induction false} PositionsPastSecond(k: GameKind, n: nat, from: nat, role: Role)
    requires from >= 2
    ensures PositionsWith(k, n, from, role) == if role == Normal && from < n then n - from else 0
    decreases n - from
  {
    if from < n {
      PositionsPastSecond(k, n, from + 1, role);
    }
  }

  /** The first two positions: the special role, then the alibi's accomplice when there are
      four or more players and a normal player otherwise. */
  lemma FirstPositions(k: GameKind, n: nat, role: Role)
    requires n >= 1
    ensures PositionsWith(k, n, 0, role) ==
      (if SpecialRole(k) == role then 1 else 0) +
      (if n >= 2 && RoleAt(k, 1, n) == role then 1 else 0) +
      (if role == Normal then n - 2 + (if n == 1 then 1 else 0) else 0)
  {
    assert PositionsWith(k, n, 0, role) == (if SpecialRole(k) == role then 1 else 0) + PositionsWith(k, n, 1, role);
    if n >= 2 {
      assert PositionsWith(k, n, 1, role) == (if RoleAt(k, 1, n) == role then 1 else 0) + PositionsWith(k, n, 2, role);
      PositionsPastSecond(k, n, 2, role);
    }
  }

  /** The roles of the `n` shuffled players: one special role, the alibi's accomplice when
      there are four or more, and normal players for the rest. */
  lemma PositionCounts(k: GameKind, n: nat)
    requires n >= 1
    ensures PositionsWith(k, n, 0, SpecialRole(k)) == 1
    ensures PositionsWith(k, n, 0, Accomplice) == if k == GameKind.Alibi && n >= 4 then 1 else 0
    ensures PositionsWith(k, n, 0, Normal) == n - 1 - PositionsWith(k, n, 0, Accomplice)
  {
    FirstPositions(k, n, SpecialRole(k));
    FirstPositions(k, n, Accomplice);
    FirstPositions(k, n, Normal);
  }

  /** The number of players holding `role` after an assignment is the number of shuffled
      positions given `role`, whatever the order of the shuffle. */
  lemma CountAfterAssignment(k: GameKind, c: AIContent, before: map<PlayerId, Player>, after: map<PlayerId, Player>,
                             roster: seq<PlayerId>, shuffled: seq<PlayerId>, levelDraw: nat -> nat, role: Role)
    requires multiset(shuffled) == multiset(NonHosts(before, roster))
    requires Base.IsAssignment(k, c, before, after, shuffled, levelDraw)
    requires |shuffled| >= MinEligible(k)
    ensures CountRole(after, roster, role) == PositionsWith(k, |shuffled|, 0, role)
  {
    forall id | id in shuffled ensures id in before && !before[id].isHost {
      assert id in multiset(NonHosts(before, roster));
    }
    forall id | id in before ensures after[id].isHost == before[id].isHost {
      if id in shuffled {
        var i :| 0 <= i < |shuffled| && shuffled[i] == id;
        assert after[id] == Apply(before[id], SlotAt(k, c, i, |shuffled|, levelDraw(i)));
      }
    }
    CountRoleNonHosts(after, roster, role);
    NonHostsSameHosts(before, after, roster);
    CountRolePermutation(after, NonHosts(before, roster), shuffled, role);
    CountShuffled(k, c, before, after, shuffled, levelDraw, 0, role);
    assert shuffled[0..] == shuffled;
  }

  /** With at least the variant's minimum of non-hosts, role assignment leaves exactly one
      player with the special role (culprit, saboteur, liar or spy), exactly one accomplice
      in an alibi game of four or more non-hosts and none otherwise, and every other non-host
      normal; this holds for every order the shuffle can produce. */
  lemma RoleCounts(k: GameKind, c: AIContent, before: map<PlayerId, Player>, after: map<PlayerId, Player>,
                   roster: seq<PlayerId>, shuffled: seq<PlayerId>, levelDraw: nat -> nat)
    requires multiset(shuffled) == multiset(NonHosts(before, roster))
    requires Base.IsAssignment(k, c, before, after, shuffled, levelDraw)
    requires |NonHosts(before, roster)| >= MinEligible(k)
    ensures CountRole(after, roster, SpecialRole(k)) == 1
    ensures CountRole(after, roster, Accomplice) == if k == GameKind.Alibi && |NonHosts(before, roster)| >= 4 then 1 else 0
    ensures CountRole(after, roster, Normal) == |NonHosts(before, roster)| - 1 - CountRole(after, roster, Accomplice)
  {
    assert |shuffled| == |multiset(shuffled)| == |NonHosts(before, roster)|;
    PositionCounts(k, |shuffled|);
    CountAfterAssignment(k, c, before, after, roster, shuffled, levelDraw, SpecialRole(k));
    CountAfterAssignment(k, c, before, after, roster, shuffled, levelDraw, Accomplice);
    CountAfterAssignment(k, c, before, after, roster, shuffled, levelDraw, Normal);
  }

  /** Below the variant's minimum, role assignment changes nothing. */
  lemma NothingBelowMinimum(k: GameKind, c: AIContent, before: map<PlayerId, Player>, after: map<PlayerId, Player>,
                            shuffled: seq<PlayerId>, levelDraw: nat -> nat)
    requires Base.IsAssignment(k, c, before, after, shuffled, levelDraw)
    requires |shuffled| < MinEligible(k)
    ensures after == before
  {
    forall id | id in before ensures after[id] == before[id] {
      if id in shuffled {
        var i :| 0 <= i < |shuffled| && shuffled[i] == id;
        assert SlotAt(k, c, i, |shuffled|, levelDraw(i)).None?;
      }
    }
  }

  /** Role assignment never touches the host's record. */
  lemma HostUntouched(k: GameKind, c: AIContent, before: map<PlayerId, Player>, after: map<PlayerId, Player>,
                      roster: seq<PlayerId>, shuffled: seq<PlayerId>, levelDraw: nat -> nat, host: PlayerId)
    requires multiset(shuffled) == multiset(NonHosts(before, roster))
    requires Base.IsAssignment(k, c, before, after, shuffled, levelDraw)
    requires host in before && before[host].isHost
    ensures host in after && after[host] == before[host]
  {
    assert host !in multiset(NonHosts(before, roster));
    assert host !in shuffled by {
      assert host !in multiset(shuffled);
    }
  }

  /** From the variant's minimum on, every shuffled non-host is dealt the role of its
      position and that role's private note: the special note first, then the alibi
      accomplice's constraint, and the variant's normal note (with its own level draw in the
      two-layer game) for everyone else. Name, host flag and messages stay as they were. */
  lemma DealtNotes(k: GameKind, c: AIContent, before: map<PlayerId, Player>, after: map<PlayerId, Player>,
                   shuffled: seq<PlayerId>, levelDraw: nat -> nat)
    requires Base.IsAssignment(k, c, before, after, shuffled, levelDraw)
    requires |shuffled| >= MinEligible(k)
    ensures forall i :: 0 <= i < |shuffled| ==>
      after[shuffled[i]].role == RoleAt(k, i, |shuffled|) &&
      after[shuffled[i]].privateInfo ==
        (if i == 0 then Some(SpecialInfo(k, c))
         else if RoleAt(k, i, |shuffled|) == Accomplice then Some(Alibi.AccompliceInfo(c))
         else NormalInfo(k, c, levelDraw(i)))
    ensures forall i :: 0 <= i < |shuffled| ==>
      after[shuffled[i]].(role := before[shuffled[i]].role, privateInfo := before[shuffled[i]].privateInfo) == before[shuffled[i]]
  {
    forall i | 0 <= i < |shuffled|
      ensures after[shuffled[i]].role == RoleAt(k, i, |shuffled|)
      ensures after[shuffled[i]].privateInfo ==
        (if i == 0 then Some(SpecialInfo(k, c))
         else if RoleAt(k, i, |shuffled|) == Accomplice then Some(Alibi.AccompliceInfo(c))
         else NormalInfo(k, c, levelDraw(i)))
      ensures after[shuffled[i]].(role := before[shuffled[i]].role, privateInfo := before[shuffled[i]].privateInfo) == before[shuffled[i]]
    {
      var slot := SlotAt(k, c, i, |shuffled|, levelDraw(i));
      assert slot.Some?;
    }
  }

  /** Alibi role assignment as its code is written, applied to the shuffled players from
      position `i` on. */
  function AlibiAssignAsWritten(c: AIContent, players: map<PlayerId, Player>, shuffled: seq<PlayerId>, i: nat): map<PlayerId, Player>
    requires i <= |shuffled|
    decreases |shuffled| - i
  {
    if i == |shuffled| then players
    else
      var id := shuffled[i];
      var next := if id in players then players[id := Apply(players[id], Alibi.SlotAsWritten(c, i, |shuffled|))] else players;
      AlibiAssignAsWritten(c, next, shuffled, i + 1)
  }

  /** Three non-hosts, the second of whom is still the culprit of an earlier round: the
      assignment as written names a new culprit and leaves the old one in place. */
  lemma AlibiAsWrittenTwoCulprits(c: AIContent)
    ensures var before := map[
        "h" := Player("h", "Host", true, Normal, None, []),
        "a" := Player("a", "An", false, Normal, None, []),
        "b" := Player("b", "Binh", false, Culprit, Some("old"), []),
        "d" := Player("d", "Dung", false, Normal, None, [])];
      CountRole(AlibiAssignAsWritten(c, before, ["a", "b", "d"], 0), ["h", "a", "b", "d"], Culprit) == 2
  {
    var before := map[
        "h" := Player("h", "Host", true, Normal, None, []),
        "a" := Player("a", "An", false, Normal, None, []),
        "b" := Player("b", "Binh", false, Culprit, Some("old"), []),
        "d" := Player("d", "Dung", false, Normal, None, [])];
    var s := ["a", "b", "d"];
    assert Alibi.SlotAsWritten(c, 0, 3) == Some(Slot(Culprit, Some(Alibi.CulpritInfo(c))));
    assert Alibi.SlotAsWritten(c, 1, 3) == None;
    assert Alibi.SlotAsWritten(c, 2, 3) == Some(Slot(Normal, None));
    var p1 := before["a" := Apply(before["a"], Alibi.SlotAsWritten(c, 0, 3))];
    var p2 := p1["b" := Apply(p1["b"], Alibi.SlotAsWritten(c, 1, 3))];
    var p3 := p2["d" := Apply(p2["d"], Alibi.SlotAsWritten(c, 2, 3))];
    assert AlibiAssignAsWritten(c, before, s, 0) == AlibiAssignAsWritten(c, p1, s, 1);
    assert AlibiAssignAsWritten(c, p1, s, 1) == AlibiAssignAsWritten(c, p2, s, 2);
    assert AlibiAssignAsWritten(c, p2, s, 2) == AlibiAssignAsWritten(c, p3, s, 3) == p3;
    assert p3["a"].role == Culprit && p3["b"].role == Culprit && p3["d"].role == Normal && p3["h"].isHost;
    assert CountRole(p3, ["d"], Culprit) == 0 by {
      assert CountRole(p3, ["d"][1..], Culprit) == 0;
    }
    assert CountRole(p3, ["b", "d"], Culprit) == 1 by {
      assert ["b", "d"][1..] == ["d"];
    }
    assert CountRole(p3, ["a", "b", "d"], Culprit) == 2 by {
      assert ["a", "b", "d"][1..] == ["b", "d"];
    }
    assert ["h", "a", "b", "d"][1..] == ["a", "b", "d"];
  }
}
