/** What every game variant shares: the Fisher–Yates shuffle, the random choice of players,
    role assignment over the shuffled non-hosts, and the live game with its message log.

    Player records live in the room's player table. A game keeps only `roster`, the ids of
    the table it was set up with; every player it reads or writes is looked up in the table
    the caller passes, so a role or message it writes lands on the room's own record. */
module Base {
  import opened Text
  import opened Types
  import Variants
  import AnswerFilter

  function Min(a: nat, b: nat): nat {
    if a <= b then a else b
  }

  /** How often `x` occurs in a sequence without repetitions: at most once. */
  lemma {:induction false} DistinctCount<T>(s: seq<T>, x: T)
    requires Distinct(s)
    ensures multiset(s)[x] <= 1
  {
    if s != [] {
      assert s == [s[0]] + s[1..];
      assert Distinct(s[1..]) by {
        forall i, j | 0 <= i < j < |s[1..]| ensures s[1..][i] != s[1..][j] {
          assert s[1..][i] == s[i + 1] && s[1..][j] == s[j + 1];
        }
      }
      DistinctCount(s[1..], x);
      if s[0] == x {
        assert x !in s[1..] by {
          forall k | 0 <= k < |s[1..]| ensures s[1..][k] != x {
            assert s[1..][k] == s[k + 1];
          }
        }
      }
    }
  }

  /** Two positions of one sequence contribute two occurrences of the first one's element
      whenever they hold the same element. */
  lemma TwoPositions<T>(r: seq<T>, i: nat, j: nat)
    requires i < j < |r|
    ensures multiset(r)[r[i]] >= 1 + (if r[j] == r[i] then 1 else 0)
  {
    assert r == r[..i] + [r[i]] + r[i + 1..j] + [r[j]] + r[j + 1..];
  }

  /** A rearrangement of a sequence without repetitions has none either. */
  lemma PermutationKeepsDistinct<T>(s: seq<T>, r: seq<T>)
    requires Distinct(s) && multiset(r) == multiset(s)
    ensures Distinct(r)
  {
    forall i, j | 0 <= i < j < |r| ensures r[i] != r[j] {
      DistinctCount(s, r[i]);
      TwoPositions(r, i, j);
    }
  }

  /** Filtering keeps a sequence free of repetitions. */
  lemma {:induction false} NonHostsDistinct(players: map<PlayerId, Player>, ids: seq<PlayerId>)
    requires Distinct(ids)
    ensures Distinct(NonHosts(players, ids))
  {
    if ids != [] {
      assert Distinct(ids[1..]) by {
        forall i, j | 0 <= i < j < |ids[1..]| ensures ids[1..][i] != ids[1..][j] {
          assert ids[1..][i] == ids[i + 1] && ids[1..][j] == ids[j + 1];
        }
      }
      NonHostsDistinct(players, ids[1..]);
      var rest := NonHosts(players, ids[1..]);
      assert ids[0] !in rest by {
        assert ids[0] !in ids[1..] by {
          forall k | 0 <= k < |ids[1..]| ensures ids[1..][k] != ids[0] {
            assert ids[1..][k] == ids[k + 1];
          }
        }
      }
    }
  }

  /** `shuffleArray`: a Fisher–Yates shuffle of a copy of `s`. `draw(i)` stands for the random
      draw of step `i`, taken modulo `i + 1` so that it picks a position in `[0, i]`. The
      result holds the same elements, each as often; `s` itself is a value and so unchanged. */
  method Shuffle<T>(s: seq<T>, draw: nat -> nat) returns (r: seq<T>)
    ensures |r| == |s|
    ensures multiset(r) == multiset(s)
  {
    var a := new T[|s|](k requires 0 <= k < |s| => s[k]);
    assert a[..] == s;
    var i := |s|;
    while i > 1
      invariant 0 <= i <= |s| == a.Length
      invariant multiset(a[..]) == multiset(s)
    {
      i := i - 1;
      var j := draw(i) % (i + 1);
      a[i], a[j] := a[j], a[i];
    }
    r := a[..];
  }

  /** The players `selectRandomPlayers` draws from: the non-hosts of `ids` when the host is
      excluded, every id otherwise. */
  function Eligible(players: map<PlayerId, Player>, ids: seq<PlayerId>, excludeHost: bool): seq<PlayerId> {
    if excludeHost then NonHosts(players, ids) else ids
  }

  /** `selectRandomPlayers`: the first `count` of a shuffle of the eligible players. It only
      returns eligible players, never one twice, and all of them when `count` is at least
      their number. */
  method SelectRandomPlayers(players: map<PlayerId, Player>, ids: seq<PlayerId>, count: nat, excludeHost: bool, draw: nat -> nat)
    returns (r: seq<PlayerId>)
    ensures |r| == Min(count, |Eligible(players, ids, excludeHost)|)
    ensures multiset(r) <= multiset(Eligible(players, ids, excludeHost))
    ensures count >= |Eligible(players, ids, excludeHost)| ==> multiset(r) == multiset(Eligible(players, ids, excludeHost))
    ensures excludeHost ==> forall id :: id in r ==> id in players && !players[id].isHost
  {
    var eligible := Eligible(players, ids, excludeHost);
    var shuffled := Shuffle(eligible, draw);
    var m := Min(count, |shuffled|);
    assert shuffled == shuffled[..m] + shuffled[m..];
    r := shuffled[..m];
    forall id | id in r ensures id in eligible {
      assert id in multiset(r);
      assert multiset(r) <= multiset(shuffled);
      assert id in multiset(eligible);
    }
  }

  /** `after` is `before` once role assignment has written, into the player at each position
      `i` of `shuffled`, what the variant assigns there; `levelDraw(i)` is the random draw of
      that position. Every other player is unchanged. */
  predicate IsAssignment(k: GameKind, c: AIContent, before: map<PlayerId, Player>, after: map<PlayerId, Player>,
                         shuffled: seq<PlayerId>, levelDraw: nat -> nat)
  {
    after.Keys == before.Keys &&
    (forall i :: 0 <= i < |shuffled| ==>
      shuffled[i] in before &&
      after[shuffled[i]] == Apply(before[shuffled[i]], Variants.SlotAt(k, c, i, |shuffled|, levelDraw(i)))) &&
    (forall id :: id in before && id !in shuffled ==> after[id] == before[id])
  }

  /** `after` is `before` with `slots[i]` written into the player at position `i` of
      `shuffled`; every other player is unchanged. */
  predicate Writes(before: map<PlayerId, Player>, after: map<PlayerId, Player>, shuffled: seq<PlayerId>,
                   slots: seq<Option<Slot>>)
  {
    |slots| == |shuffled| && after.Keys == before.Keys &&
    (forall i :: 0 <= i < |shuffled| ==> shuffled[i] in before && after[shuffled[i]] == Apply(before[shuffled[i]], slots[i])) &&
    (forall id :: id in before && id !in shuffled ==> after[id] == before[id])
  }

  /** Write `slots[i]`, the role and note the variant gives position `i`, into the player at
      each position of `shuffled`. */
  method WriteSlots(players: map<PlayerId, Player>, shuffled: seq<PlayerId>, slots: seq<Option<Slot>>)
    returns (after: map<PlayerId, Player>)
    requires Distinct(shuffled) && |slots| == |shuffled|
    requires forall id :: id in shuffled ==> id in players
    ensures Writes(players, after, shuffled, slots)
  {
    after := players;
    var i := 0;
    while i < |shuffled|
      invariant 0 <= i <= |shuffled|
      invariant after.Keys == players.Keys
      invariant forall j :: 0 <= j < i ==> after[shuffled[j]] == Apply(players[shuffled[j]], slots[j])
      invariant forall id :: id in players && id !in shuffled[..i] ==> after[id] == players[id]
    {
      var id := shuffled[i];
      assert id !in shuffled[..i] by {
        forall j | 0 <= j < i ensures shuffled[..i][j] != id {
          assert shuffled[..i][j] == shuffled[j];
        }
      }
      after := after[id := Apply(after[id], slots[i])];
      assert shuffled[..i + 1] == shuffled[..i] + [id];
      i := i + 1;
    }
    assert shuffled[..i] == shuffled;
  }

  /** `assignRoles`: shuffle every non-host of `roster` and write the variant's role and note
      into each by position. `shuffled` is the order the shuffle produced. */
  method AssignRoles(k: GameKind, c: AIContent, players: map<PlayerId, Player>, roster: seq<PlayerId>,
                     shuffleDraw: nat -> nat, levelDraw: nat -> nat)
    returns (after: map<PlayerId, Player>, shuffled: seq<PlayerId>)
    requires Distinct(roster)
    ensures multiset(shuffled) == multiset(NonHosts(players, roster))
    ensures Distinct(shuffled)
    ensures IsAssignment(k, c, players, after, shuffled, levelDraw)
  {
    shuffled := SelectRandomPlayers(players, roster, |roster|, true, shuffleDraw);
    NonHostsDistinct(players, roster);
    PermutationKeepsDistinct(NonHosts(players, roster), shuffled);
    var n := |shuffled|;
    var slots := seq(n, i requires 0 <= i < n => Variants.SlotAt(k, c, i, n, levelDraw(i)));
    after := WriteSlots(players, shuffled, slots);
  }

  /** A live game: its variant, its content, the ids it was set up with, its message log and
      its counters. */
  class Game {
    const kind: GameKind
    const content: AIContent
    var roster: seq<PlayerId>
    var messages: seq<Message>
    var round: nat
    var currentTurn: nat

    /** A fresh game stores the content it is given, starts at round 1 and turn 0, and has an
        empty log. */
    constructor (kind: GameKind, content: AIContent)
      ensures this.kind == kind && this.content == content
      ensures roster == [] && messages == [] && round == 1 && currentTurn == 0
      ensures State() == GameState(kind, 1, 0, [])
    {
      this.kind := kind;
      this.content := content;
      roster := [];
      messages := [];
      round := 1;
      currentTurn := 0;
    }

    /** `getState` */
    function State(): GameState
      reads this
    {
      GameState(kind, round, currentTurn, messages)
    }

    /** The game's view of `id` in the table `players`: known when it was set up with it. */
    function Lookup(players: map<PlayerId, Player>, id: PlayerId): Option<Player>
      reads this
    {
      if id in roster && id in players then Some(players[id]) else None
    }

    /** `getPlayers`: the game's own table, the records of the ids it was set up with. */
    function Players(players: map<PlayerId, Player>): (r: map<PlayerId, Player>)
      reads this
      ensures forall id :: id in r <==> id in roster && id in players
      ensures forall id :: id in r ==> r[id] == players[id]
    {
      map id | id in players && id in roster :: players[id]
    }

    /** `setup`: take the ids of the room's table, in its order, then assign roles to them.
        The table keeps its keys, and what is written lands on the room's own records. */
    method Setup(players: map<PlayerId, Player>, order: seq<PlayerId>, shuffleDraw: nat -> nat, levelDraw: nat -> nat)
      returns (after: map<PlayerId, Player>, shuffled: seq<PlayerId>)
      requires IsOrderOf(order, players)
      modifies this
      ensures roster == order
      ensures messages == old(messages) && round == old(round) && currentTurn == old(currentTurn)
      ensures multiset(shuffled) == multiset(NonHosts(players, order)) && Distinct(shuffled)
      ensures IsAssignment(kind, content, players, after, shuffled, levelDraw)
    {
      roster := order;
      after, shuffled := AssignRoles(kind, content, players, order, shuffleDraw, levelDraw);
    }

    /** `validateMessage` of the game's variant, for the author as the game knows it. */
    function ValidateMessage(players: map<PlayerId, Player>, id: PlayerId, text: string): Validation
      reads this
    {
      Variants.Validate(kind, content, Lookup(players, id), text)
    }

    /** The message `handleMessage` records for `id`: the trimmed text with its verdict. */
    function Composed(players: map<PlayerId, Player>, id: PlayerId, text: string, msgId: MessageId): Message
      reads this
      requires id in players
    {
      var v := ValidateMessage(players, id, text);
      Message(msgId, id, players[id].name, Trim(text), v.valid, v.violations, None)
    }

    /** Whether `handleMessage` accepts a message from `id`: a non-host the game knows. */
    predicate MaySpeak(players: map<PlayerId, Player>, id: PlayerId)
      reads this
    {
      id in roster && id in players && !players[id].isHost
    }

    /** `handleMessage`: a message from an unknown author or the host is refused and nothing
        changes. Otherwise the trimmed text, checked as sent, is appended to the game's log and
        to the author's own log, and the turn advances by one. `msgId` is the fresh id. */
    method HandleMessage(players: map<PlayerId, Player>, id: PlayerId, text: string, msgId: MessageId)
      returns (msg: Option<Message>, after: map<PlayerId, Player>)
      modifies this
      ensures roster == old(roster) && round == old(round)
      ensures !old(MaySpeak(players, id)) ==>
        msg.None? && after == players && messages == old(messages) && currentTurn == old(currentTurn)
      ensures old(MaySpeak(players, id)) ==>
        var m := old(Composed(players, id, text, msgId));
        msg == Some(m) &&
        messages == old(messages) + [m] &&
        currentTurn == old(currentTurn) + 1 &&
        after == players[id := players[id].(messages := players[id].messages + [m])]
    {
      if !MaySpeak(players, id) {
        return None, players;
      }
      var m := Composed(players, id, text, msgId);
      messages := messages + [m];
      after := players[id := players[id].(messages := players[id].messages + [m])];
      currentTurn := currentTurn + 1;
      msg := Some(m);
    }

    /** `getPlayerInfo`: nothing for the host or a player the game does not know. */
    function PlayerInfo(players: map<PlayerId, Player>, id: PlayerId): (r: Option<PlayerGameInfo>)
      reads this
      ensures r.Some? <==> MaySpeak(players, id)
    {
      if MaySpeak(players, id) then Some(Variants.PlayerInfo(kind, content, players[id])) else None
    }

    /** `getHostInfo`: one entry per non-host the game knows, in table order, with its role and
        note; the secret; the rule of every role the variant hands out. */
    function HostInfo(players: map<PlayerId, Player>): (r: HostGameInfo)
      reads this
      ensures forall e :: e in r.allRoles ==>
        e.playerId in players && !players[e.playerId].isHost && e.playerId in roster &&
        e == RoleEntry(e.playerId, players[e.playerId].name, players[e.playerId].role, players[e.playerId].privateInfo)
      ensures forall id :: id in roster && id in players && !players[id].isHost ==>
        exists e :: e in r.allRoles && e.playerId == id
      ensures forall role :: role in GameRoles(kind) ==> role in r.constraints
    {
      var ids := NonHosts(players, roster);
      var entries := seq(|ids|, i requires 0 <= i < |ids| =>
        RoleEntry(ids[i], players[ids[i]].name, players[ids[i]].role, players[ids[i]].privateInfo));
      assert forall id :: id in ids ==> exists e :: e in entries && e.playerId == id by {
        forall id | id in ids ensures exists e :: e in entries && e.playerId == id {
          var i :| 0 <= i < |ids| && ids[i] == id;
          assert entries[i] in entries;
        }
      }
      HostGameInfo(entries, Variants.Secret(kind, content), Variants.Constraints(kind, content))
    }

    /** The answer recorded for `question`: the host's own, else the filter's verdict. */
    function Decide(answer: Option<bool>, question: string, coin: bool): bool
      reads this
    {
      if answer.Some? then answer.value else AnswerFilter.Evaluate(content, question, coin)
    }

    /** `answerQuestion` of the answer-filter game: when the log holds a message with id
        `messageId`, the first such message gets the host's answer, or the automatic answer
        when none is given (`coin` is its random fallback), and so does the author's copy;
        otherwise nothing changes and the call reports failure. */
    method AnswerQuestion(players: map<PlayerId, Player>, messageId: MessageId, answer: Option<bool>, coin: bool)
      returns (found: bool, after: map<PlayerId, Player>)
      requires kind == AnswerFilter
      modifies this
      ensures roster == old(roster) && round == old(round) && currentTurn == old(currentTurn)
      ensures found <==> AnswerFilter.FindMessage(old(messages), messageId).Some?
      ensures !found ==> messages == old(messages) && after == players
      ensures found ==>
        var k := AnswerFilter.FindMessage(old(messages), messageId).value;
        var a := Decide(answer, old(messages)[k].content, coin);
        messages == old(messages)[k := old(messages)[k].(hostAnswer := Some(a))] &&
        after == SetAnswer(players, old(messages)[k].playerId, messageId, a)
    {
      var pos := AnswerFilter.FindMessage(messages, messageId);
      if pos.None? {
        return false, players;
      }
      var k := pos.value;
      var a := Decide(answer, messages[k].content, coin);
      after := SetAnswer(players, messages[k].playerId, messageId, a);
      messages := messages[k := messages[k].(hostAnswer := Some(a))];
      found := true;
    }

    /** `getUnansweredQuestions` of the answer-filter game. */
    function UnansweredQuestions(): (r: seq<Message>)
      requires kind == AnswerFilter
      reads this
      ensures forall m :: m in r <==> m in messages && AnswerFilter.Unanswered(m)
    {
      AnswerFilter.UnansweredQuestions(messages)
    }
  }

  /** Answering the messages of `log` with id `id`: each keeps its id, author and text,
      those with id `id` now carry the answer `a`, and every other message is untouched. */
  function AnswerInLog(log: seq<Message>, id: MessageId, a: bool): (r: seq<Message>)
    ensures |r| == |log|
    ensures forall i :: 0 <= i < |log| ==>
      r[i].id == log[i].id && r[i].playerId == log[i].playerId && r[i].content == log[i].content
    ensures forall i :: 0 <= i < |log| && log[i].id == id ==> r[i].hostAnswer == Some(a)
    ensures forall i :: 0 <= i < |log| && log[i].id != id ==> r[i] == log[i]
  {
    seq(|log|, i requires 0 <= i < |log| => if log[i].id == id then log[i].(hostAnswer := Some(a)) else log[i])
  }

  /** The messages of `ms` whose id is not `id`, in order. */
  function WithoutId(ms: seq<Message>, id: MessageId): (r: seq<Message>)
    ensures forall m :: m in r <==> m in ms && m.id != id
    ensures |r| <= |ms|
  {
    if ms == [] then []
    else
      var rest := WithoutId(ms[1..], id);
      assert forall m :: m in ms <==> m == ms[0] || m in ms[1..];
      if ms[0].id != id then [ms[0]] + rest else rest
  }

  /** Answering a message takes exactly the messages with its id off the list of unanswered
      questions, and leaves the rest of that list, and its order, as it was. */
  lemma {:induction false} AnswerLeavesUnanswered(log: seq<Message>, id: MessageId, a: bool)
    ensures AnswerFilter.UnansweredQuestions(AnswerInLog(log, id, a)) == WithoutId(AnswerFilter.UnansweredQuestions(log), id)
  {
    if log != [] {
      var r := AnswerInLog(log, id, a);
      assert r[1..] == AnswerInLog(log[1..], id, a);
      AnswerLeavesUnanswered(log[1..], id, a);
    }
  }

  /** The author's copy of an answered message: the same message object sits in the game's
      log and in its author's log, so the author's log is updated too. */
  function SetAnswer(players: map<PlayerId, Player>, author: PlayerId, id: MessageId, a: bool): (r: map<PlayerId, Player>)
    ensures r.Keys == players.Keys
    ensures forall p :: p in players && p != author ==> r[p] == players[p]
    ensures author in players ==> r[author] == players[author].(messages := AnswerInLog(players[author].messages, id, a))
  {
    if author in players then players[author := players[author].(messages := AnswerInLog(players[author].messages, id, a))]
    else players
  }
}
