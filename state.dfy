/** The room manager: the registry of rooms by code, the live game of each started room,
    and every request a client can make of a room. Each request checks its guards in a
    fixed order and answers with the first failing guard's message, changing nothing; a
    request that passes updates the room where it stands. */
module Engine {
  import opened Text
  import opened Types
  import Variants
  import Base
  import Roles
  import Voting
  import Factory
  import AnswerFilter

  // The error messages of the manager, as clients display them.
  const RoomNotFound := "Phòng không tồn tại"
  const GameAlreadyStarted := "Game đã bắt đầu"
  const NameTaken := "Tên đã được sử dụng"
  const OnlyHostSelects := "Chỉ host mới có thể chọn game"
  const OnlyHostSetsUp := "Chỉ host mới có thể thiết lập game"
  const OnlyHostStarts := "Chỉ host mới có thể bắt đầu game"
  const NoGameType := "Chưa chọn loại game"
  const NoContent := "Chưa thiết lập nội dung game"
  const TooFewPlayers := "Cần ít nhất 4 người (1 host + 3 người chơi)"
  const GameNotStarted := "Game chưa bắt đầu"
  const NotPlaying := "Game không ở trạng thái chơi"
  const CannotSend := "Không thể gửi tin nhắn"
  const OnlyHostAnswers := "Chỉ host mới có thể trả lời câu hỏi"
  const AnswerFilterOnly := "Chỉ Answer Filter game mới có tính năng này"
  const CannotAnswer := "Game không hỗ trợ trả lời câu hỏi"
  const QuestionNotFound := "Không tìm thấy câu hỏi"
  const OnlyHostEnds := "Chỉ host mới có thể kết thúc game"
  const OnlyHostResets := "Chỉ host mới có thể reset phòng"
  const OnlyHostStartsVote := "Chỉ host mới có thể bắt đầu vote"
  const VoteNeedsPlaying := "Game phải đang chơi để bắt đầu vote"
  const VotingInactive := "Voting không hoạt động"
  const OnlyPlayersVote := "Chỉ người chơi mới có thể vote"
  const InvalidTarget := "Không thể vote người này"
  const NoSelfVote := "Không thể vote chính mình"
  const OnlyHostEndsVote := "Chỉ host mới có thể kết thúc vote"
  const NoVoteSession := "Không có phiên vote nào"

  /** The room code: the first eight characters of a fresh uuid, upper-cased. */
  function RoomCode(uuid: string): (r: RoomId)
    ensures |uuid| >= 8 ==> |r| == 8
    ensures |r| <= 8 && |r| <= |uuid|
    ensures forall i :: 0 <= i < |r| ==> r[i] == UpperChar(uuid[i])
  {
    Upper(uuid[..if |uuid| < 8 then |uuid| else 8])
  }

  /** A new room: waiting, with its host as its only player and nothing chosen yet. */
  function NewRoom(code: RoomId, hostId: PlayerId, hostName: string): Room {
    Room(code, hostId, None, Waiting, map[hostId := Player(hostId, hostName, true, Normal, None, [])], [hostId],
         None, None, None)
  }

  /** No two non-host players of a table have the same name, ignoring case. */
  predicate UniqueNames(players: map<PlayerId, Player>) {
    forall a, b :: a in players && b in players && a != b && !players[a].isHost && !players[b].isHost ==>
      Lower(players[a].name) != Lower(players[b].name)
  }

  /** Every vote is by a non-host of the room for another non-host of the room. */
  predicate VotesWellFormed(votes: seq<Vote>, players: map<PlayerId, Player>) {
    forall v :: v in votes ==>
      v.voterId in players && !players[v.voterId].isHost &&
      v.targetId in players && !players[v.targetId].isHost &&
      v.voterId != v.targetId
  }

  /** What holds of every registered room: it carries its own code; its order lists its
      players, each under its own id; exactly its host is flagged as host; non-host names
      are unique; and each player has at most one well-formed vote. */
  predicate RoomOk(code: RoomId, room: Room) {
    room.id == code &&
    IsOrderOf(room.order, room.players) &&
    room.hostId in room.players &&
    (forall id :: id in room.players ==>
      room.players[id].id == id && (room.players[id].isHost <==> id == room.hostId)) &&
    UniqueNames(room.players) &&
    (room.voting.Some? ==>
      Voting.VotersDistinct(room.voting.value.votes) && VotesWellFormed(room.voting.value.votes, room.players))
  }

  /** Every room of the registry is well formed. */
  predicate RoomsOk(rooms: map<RoomId, Room>) {
    forall code :: code in rooms ==> RoomOk(code, rooms[code])
  }

  /** Storing a well-formed room keeps the registry well formed. */
  lemma RoomsOkStore(rooms: map<RoomId, Room>, code: RoomId, room: Room)
    requires RoomsOk(rooms) && RoomOk(code, room)
    ensures RoomsOk(rooms[code := room])
  {
  }

  /** Two records of the same player: same id, name and host flag. */
  predicate SameIdentity(a: Player, b: Player) {
    a.id == b.id && a.name == b.name && a.isHost == b.isHost
  }

  /** `after` holds the same players as `before`, possibly with other roles, notes or logs. */
  predicate KeepsIdentities(before: map<PlayerId, Player>, after: map<PlayerId, Player>) {
    after.Keys == before.Keys && forall id :: id in before ==> SameIdentity(before[id], after[id])
  }

  /** Rewriting roles, notes or logs keeps a room well formed. */
  lemma IdentitiesKeepRoom(code: RoomId, room: Room, players: map<PlayerId, Player>)
    requires RoomOk(code, room) && KeepsIdentities(room.players, players)
    ensures RoomOk(code, room.(players := players))
  {
    var r := room.(players := players);
    assert forall id :: id in players ==> SameIdentity(room.players[id], players[id]);
  }

  /** Role assignment changes roles and notes only. */
  lemma AssignmentKeepsIdentities(k: GameKind, c: AIContent, before: map<PlayerId, Player>,
                                  after: map<PlayerId, Player>, shuffled: seq<PlayerId>, levelDraw: nat -> nat)
    requires Base.IsAssignment(k, c, before, after, shuffled, levelDraw)
    ensures KeepsIdentities(before, after)
  {
    forall id | id in before ensures SameIdentity(before[id], after[id]) {
      if id in shuffled {
        var i :| 0 <= i < |shuffled| && shuffled[i] == id;
        assert after[id] == Apply(before[id], Variants.SlotAt(k, c, i, |shuffled|, levelDraw(i)));
      }
    }
  }

  /** Recording an answer changes message logs only, so the room stays well formed. */
  function Answered(room: Room, author: PlayerId, id: MessageId, a: bool, snapshot: GameState): Room {
    room.(players := Base.SetAnswer(room.players, author, id, a), gameState := Some(snapshot))
  }

  lemma AnswerKeepsRoom(code: RoomId, room: Room, author: PlayerId, id: MessageId, a: bool, snapshot: GameState)
    requires RoomOk(code, room)
    ensures RoomOk(code, Answered(room, author, id, a, snapshot))
  {
    assert KeepsIdentities(room.players, Base.SetAnswer(room.players, author, id, a));
    IdentitiesKeepRoom(code, room.(gameState := Some(snapshot)), Base.SetAnswer(room.players, author, id, a));
  }

  lemma AnswerKeepsRooms(rooms: map<RoomId, Room>, code: RoomId, author: PlayerId, id: MessageId, a: bool, snapshot: GameState)
    requires RoomsOk(rooms) && code in rooms
    ensures RoomsOk(rooms[code := Answered(rooms[code], author, id, a, snapshot)])
  {
    AnswerKeepsRoom(code, rooms[code], author, id, a, snapshot);
    RoomsOkStore(rooms, code, Answered(rooms[code], author, id, a, snapshot));
  }

  /** Appending to a player's own log keeps the room well formed. */
  function Posted(room: Room, author: PlayerId, m: Message, snapshot: GameState): Room
    requires author in room.players
  {
    room.(players := room.players[author := room.players[author].(messages := room.players[author].messages + [m])],
          gameState := Some(snapshot))
  }

  lemma PostKeepsRoom(code: RoomId, room: Room, author: PlayerId, m: Message, snapshot: GameState)
    requires RoomOk(code, room) && author in room.players
    ensures RoomOk(code, Posted(room, author, m, snapshot))
  {
    var players := room.players[author := room.players[author].(messages := room.players[author].messages + [m])];
    assert KeepsIdentities(room.players, players);
    IdentitiesKeepRoom(code, room.(gameState := Some(snapshot)), players);
  }

  lemma PostKeepsRooms(rooms: map<RoomId, Room>, code: RoomId, author: PlayerId, m: Message, snapshot: GameState)
    requires RoomsOk(rooms) && code in rooms && author in rooms[code].players
    ensures RoomsOk(rooms[code := Posted(rooms[code], author, m, snapshot)])
  {
    PostKeepsRoom(code, rooms[code], author, m, snapshot);
    RoomsOkStore(rooms, code, Posted(rooms[code], author, m, snapshot));
  }

  /** A new room is well formed, waiting, and its host is its only player. */
  lemma NewRoomOk(code: RoomId, hostId: PlayerId, hostName: string)
    ensures RoomOk(code, NewRoom(code, hostId, hostName))
    ensures NewRoom(code, hostId, hostName).status == Waiting
    ensures NewRoom(code, hostId, hostName).players.Keys == {hostId}
    ensures NonHosts(NewRoom(code, hostId, hostName).players, NewRoom(code, hostId, hostName).order) == []
  {
    var room := NewRoom(code, hostId, hostName);
    assert NonHosts(room.players, room.order[1..]) == [];
  }

  /** `createRoom` as written: the room is stored under its code whether or not the code is
      in use, so a live room whose code comes up again is replaced. */
  function CreateRoomAsWritten(rooms: map<RoomId, Room>, uuid: string, hostId: PlayerId, hostName: string)
    : (r: map<RoomId, Room>)
    ensures RoomCode(uuid) in r && r[RoomCode(uuid)] == NewRoom(RoomCode(uuid), hostId, hostName)
  {
    rooms[RoomCode(uuid) := NewRoom(RoomCode(uuid), hostId, hostName)]
  }

  /** A code that comes up again wipes out a live game: its players and the game snapshot
      are gone, and the room is back to waiting. */
  lemma CodeCollisionReplacesRoom()
    ensures
      var host := Player("h", "An", true, Normal, None, []);
      var p := Player("p", "Binh", false, Spy, Some("secret"), []);
      var room := Room("12345678", "h", Some(Perspective), Playing, map["h" := host, "p" := p], ["h", "p"],
                       Some(GameState(Perspective, 1, 0, [])), None, None);
      var before := map["12345678" := room];
      var after := CreateRoomAsWritten(before, "12345678-9abc", "h2", "Chi");
      RoomOk("12345678", room) && RoomCode("12345678-9abc") in before &&
      "p" in before["12345678"].players && "p" !in after["12345678"].players &&
      after["12345678"].gameState.None? && after["12345678"].status == Waiting
  {
    var code := RoomCode("12345678-9abc");
    assert code == "12345678";
  }

  /** `!p.isHost && p.name.toLowerCase() === name.toLowerCase()`, and with an id to exclude,
      `p.id !== except`. */
  predicate NameMatch(p: Player, name: string, except: Option<PlayerId>) {
    !p.isHost && Lower(p.name) == Lower(name) && (except.None? || p.id != except.value)
  }

  /** The position, in table order, of the first player whose name matches. */
  function FindByName(players: map<PlayerId, Player>, order: seq<PlayerId>, name: string, except: Option<PlayerId>)
    : (r: Option<nat>)
    requires forall id :: id in order ==> id in players
    ensures r.Some? ==> r.value < |order| && NameMatch(players[order[r.value]], name, except)
    ensures r.Some? ==> forall j :: 0 <= j < r.value ==> !NameMatch(players[order[j]], name, except)
    ensures r.None? ==> forall j :: 0 <= j < |order| ==> !NameMatch(players[order[j]], name, except)
  {
    if order == [] then None
    else if NameMatch(players[order[0]], name, except) then Some(0)
    else
      match FindByName(players, order[1..], name, except)
      case None => None
      case Some(j) => Some(j + 1)
  }

  /** Whether a reconnecting id was supplied: present and not empty. */
  predicate Given(existing: Option<PlayerId>) {
    existing.Some? && existing.value != ""
  }

  /** The guard of `startGame` that fails first, if any: the caller must be the host, a
      variant and its content must be chosen, at least three non-hosts must have joined, and
      the factory must know the variant. */
  function StartCheck(room: Room, hostId: PlayerId): Option<string> {
    if room.hostId != hostId then Some(OnlyHostStarts)
    else if room.gameType.None? then Some(NoGameType)
    else if room.aiContent.None? then Some(NoContent)
    else if |NonHosts(room.players, room.order)| < 3 then Some(TooFewPlayers)
    else if !Factory.Supported(room.gameType.value) then Some(Factory.UnknownKind(room.gameType.value))
    else None
  }

  /** The success path of `startGame` up to registration: the factory builds the room's
      variant around its content, and the new game is set up on the room's table. */
  method Launch(code: RoomId, room: Room, shuffleDraw: nat -> nat, levelDraw: nat -> nat)
    returns (game: Base.Game, players: map<PlayerId, Player>)
    requires RoomOk(code, room) && StartCheck(room, room.hostId).None?
    ensures fresh(game)
    ensures game.kind == room.gameType.value && game.content == room.aiContent.value && game.roster == room.order
    ensures game.State() == GameState(room.gameType.value, 1, 0, [])
    ensures RoomOk(code, room.(players := players, status := Playing, gameState := Some(game.State())))
    ensures Started(room, players, levelDraw)
  {
    var k := room.gameType.value;
    var c := room.aiContent.value;
    var created := Factory.CreateGame(k, c);
    game := created.value;
    var shuffled;
    players, shuffled := game.Setup(room.players, room.order, shuffleDraw, levelDraw);
    Roles.RoleCounts(k, c, room.players, players, room.order, shuffled, levelDraw);
    AssignmentKeepsIdentities(k, c, room.players, players, shuffled, levelDraw);
    IdentitiesKeepRoom(code, room.(status := Playing, gameState := Some(game.State())), players);
  }

  /** The table `players` is the room's table after its game was set up: the non-hosts got
      their roles by some shuffle; exactly one holds the variant's special role; the alibi
      game has an accomplice exactly when at least four non-hosts play; the other non-hosts
      are normal. */
  ghost predicate Started(room: Room, players: map<PlayerId, Player>, levelDraw: nat -> nat)
    requires room.gameType.Some? && room.aiContent.Some?
  {
    var k := room.gameType.value;
    var n := |NonHosts(room.players, room.order)|;
    (exists shuffled :: multiset(shuffled) == multiset(NonHosts(room.players, room.order)) &&
      Base.IsAssignment(k, room.aiContent.value, room.players, players, shuffled, levelDraw)) &&
    CountRole(players, room.order, Variants.SpecialRole(k)) == 1 &&
    CountRole(players, room.order, Accomplice) == (if k == Alibi && n >= 4 then 1 else 0) &&
    CountRole(players, room.order, Normal) == n - 1 - CountRole(players, room.order, Accomplice)
  }

  /** A player after `resetRoom`: normal, without a note, with an empty log. */
  function Cleared(p: Player): Player {
    p.(role := Normal, privateInfo := None, messages := [])
  }

  /** The loop of `resetRoom` over the table, in its order, clearing each player. */
  method ClearPlayers(players: map<PlayerId, Player>, order: seq<PlayerId>) returns (after: map<PlayerId, Player>)
    requires IsOrderOf(order, players)
    ensures after.Keys == players.Keys
    ensures forall id :: id in players ==> after[id] == Cleared(players[id])
  {
    after := players;
    var i := 0;
    while i < |order|
      invariant 0 <= i <= |order|
      invariant after.Keys == players.Keys
      invariant forall id :: id in players ==> after[id] == if id in order[..i] then Cleared(players[id]) else players[id]
    {
      assert order[i] !in order[..i];
      assert order[..i + 1] == order[..i] + [order[i]];
      after := after[order[i] := Cleared(after[order[i]])];
      i := i + 1;
    }
    assert order[..i] == order;
  }

  /** A reset keeps the room well formed, keeps its host, and leaves every player normal,
      without a note and without messages. */
  lemma ClearedRoomOk(code: RoomId, room: Room, players: map<PlayerId, Player>)
    requires RoomOk(code, room)
    requires players.Keys == room.players.Keys
    requires forall id :: id in players ==> players[id] == Cleared(room.players[id])
    ensures RoomOk(code, room.(players := players, voting := None))
    ensures players[room.hostId].isHost && players[room.hostId].name == room.players[room.hostId].name
    ensures forall id :: id in players ==>
      players[id].role == Normal && players[id].privateInfo.None? && players[id].messages == []
  {
    assert KeepsIdentities(room.players, players);
    IdentitiesKeepRoom(code, room.(voting := None), players);
  }

  /** The room `resetRoom` leaves: cleared players, waiting, with no game, content or vote. */
  function Reset(room: Room, players: map<PlayerId, Player>): Room {
    room.(players := players, status := Waiting, gameType := None, aiContent := None, gameState := None, voting := None)
  }

  lemma ResetKeepsRooms(rooms: map<RoomId, Room>, code: RoomId, players: map<PlayerId, Player>)
    requires RoomsOk(rooms) && code in rooms
    requires players.Keys == rooms[code].players.Keys
    requires forall id :: id in players ==> players[id] == Cleared(rooms[code].players[id])
    ensures RoomsOk(rooms[code := Reset(rooms[code], players)])
  {
    ClearedRoomOk(code, rooms[code], players);
    RoomsOkStore(rooms, code, Reset(rooms[code], players));
  }

  /** A row of the player list every player sees: no role and no note. */
  function PublicRow(p: Player): PublicPlayer {
    PublicPlayer(p.id, p.name, p.isHost, |p.messages| > 0)
  }

  /** A row of the player list the host sees. */
  function HostRowOf(p: Player): HostRow {
    HostRow(p.id, p.name, p.isHost, p.role, p.privateInfo, |p.messages| > 0)
  }

  function PublicRows(players: map<PlayerId, Player>, order: seq<PlayerId>): seq<PublicPlayer>
    requires forall id :: id in order ==> id in players
  {
    seq(|order|, i requires 0 <= i < |order| => PublicRow(players[order[i]]))
  }

  function HostRows(players: map<PlayerId, Player>, order: seq<PlayerId>): seq<HostRow>
    requires forall id :: id in order ==> id in players
  {
    seq(|order|, i requires 0 <= i < |order| => HostRowOf(players[order[i]]))
  }

  /** The player list of a well-formed room names every player once, in joining order, and
      says which of them have spoken. */
  lemma RowsFollowOrder(code: RoomId, room: Room)
    requires RoomOk(code, room)
    ensures |PublicRows(room.players, room.order)| == |room.order|
    ensures forall i, j :: 0 <= i < j < |room.order| ==>
      PublicRows(room.players, room.order)[i].id != PublicRows(room.players, room.order)[j].id
    ensures forall i :: 0 <= i < |room.order| ==>
      PublicRows(room.players, room.order)[i].id == room.order[i] &&
      (PublicRows(room.players, room.order)[i].hasSpoken <==> room.players[room.order[i]].messages != [])
    ensures forall id :: id in room.players <==> exists i :: 0 <= i < |room.order| && PublicRows(room.players, room.order)[i].id == id
  {
    var rows := PublicRows(room.players, room.order);
    forall id | id in room.players
      ensures exists i :: 0 <= i < |room.order| && rows[i].id == id
    {
      var i :| 0 <= i < |room.order| && room.order[i] == id;
      assert rows[i].id == id;
    }
  }

  /** What the voting panel shows `playerId`: whether voting is open, the player's own vote,
      and for each player with a vote the number of votes. */
  ghost predicate ShowsVotes(view: VotingView, s: VotingState, playerId: PlayerId) {
    view.isActive == s.isActive &&
    view.hasVoted == Voting.VoteOf(s.votes, playerId).Some? &&
    view.myVote == (if Voting.VoteOf(s.votes, playerId).Some? then Some(Voting.VoteOf(s.votes, playerId).value.targetId) else None) &&
    (forall t :: t in view.voteCounts <==> Voting.Voted(s.votes, t)) &&
    (forall t :: t in view.voteCounts ==> view.voteCounts[t] == |Voting.VotersFor(s.votes, t)|)
  }

  /** The rooms and their live games. */
  class GameStateManager {
    var rooms: map<RoomId, Room>
    var instances: map<RoomId, Base.Game>

    /** Every room is well formed, every live game belongs to a registered room, and no two
        rooms share a game object. */
    predicate Valid()
      reads this
    {
      RoomsOk(rooms) && instances.Keys <= rooms.Keys &&
      forall a, b :: a in instances && b in instances && a != b ==> instances[a] != instances[b]
    }

    /** No rooms. */
    constructor ()
      ensures Valid() && rooms == map[] && instances == map[]
    {
      rooms := map[];
      instances := map[];
    }

    /** `getRoom` */
    function GetRoom(roomId: RoomId): (r: Option<Room>)
      reads this
      ensures r.Some? <==> roomId in rooms
      ensures r.Some? ==> r.value == rooms[roomId]
    {
      if roomId in rooms then Some(rooms[roomId]) else None
    }

    /** `createRoom`, with the code taken from `uuid` and the host's id `hostId`: a new waiting
        room with the host as its only player. A code already in use is refused and nothing
        changes. */
    method CreateRoom(uuid: string, hostId: PlayerId, hostName: string) returns (r: Option<(RoomId, PlayerId)>)
      requires Valid()
      modifies this
      ensures Valid() && instances == old(instances)
      ensures RoomCode(uuid) in old(rooms) ==> r.None? && rooms == old(rooms)
      ensures RoomCode(uuid) !in old(rooms) ==>
        r == Some((RoomCode(uuid), hostId)) &&
        rooms == old(rooms)[RoomCode(uuid) := NewRoom(RoomCode(uuid), hostId, hostName)]
    {
      var code := RoomCode(uuid);
      if code in rooms {
        return None;
      }
      NewRoomOk(code, hostId, hostName);
      RoomsOkStore(rooms, code, NewRoom(code, hostId, hostName));
      rooms := rooms[code := NewRoom(code, hostId, hostName)];
      r := Some((code, hostId));
    }

    /** `joinRoom`. Only a waiting or set-up room accepts joins. A supplied id that belongs to
        the room reconnects that player; without an id, a non-host with the same name
        (ignoring case) reconnects. Otherwise the name must not be a non-host's already, and a
        new non-host player is added at the end, under the supplied id or `freshId`. */
    method JoinRoom(roomId: RoomId, name: string, existing: Option<PlayerId>, freshId: PlayerId)
      returns (r: Result<Player>)
      requires Valid()
      requires roomId in rooms ==> freshId !in rooms[roomId].players
      modifies this
      ensures Valid() && instances == old(instances)
      ensures roomId !in old(rooms) ==> r == Err(RoomNotFound) && rooms == old(rooms)
      ensures roomId in old(rooms) && old(rooms[roomId]).status !in {Waiting, Setup} ==>
        r == Err(GameAlreadyStarted) && rooms == old(rooms)
      ensures roomId in old(rooms) && old(rooms[roomId]).status in {Waiting, Setup} ==>
        var room := old(rooms[roomId]);
        var byName := FindByName(room.players, room.order, name, None);
        var conflict := FindByName(room.players, room.order, name, if Given(existing) then existing else None);
        if Given(existing) && existing.value in room.players then
          r == Ok(room.players[existing.value]) && rooms == old(rooms)
        else if !Given(existing) && byName.Some? then
          r == Ok(room.players[room.order[byName.value]]) && rooms == old(rooms)
        else if conflict.Some? then
          r == Err(NameTaken) && rooms == old(rooms)
        else
          var id := if Given(existing) then existing.value else freshId;
          r == Ok(Player(id, name, false, Normal, None, [])) &&
          rooms == old(rooms)[roomId := room.(players := room.players[id := r.value], order := room.order + [id])]
    {
      if roomId !in rooms {
        return Err(RoomNotFound);
      }
      var room := rooms[roomId];
      if room.status != Waiting && room.status != Setup {
        return Err(GameAlreadyStarted);
      }
      if Given(existing) && existing.value in room.players {
        return Ok(room.players[existing.value]);
      }
      if !Given(existing) {
        var byName := FindByName(room.players, room.order, name, None);
        if byName.Some? {
          return Ok(room.players[room.order[byName.value]]);
        }
      }
      var conflict := FindByName(room.players, room.order, name, if Given(existing) then existing else None);
      if conflict.Some? {
        return Err(NameTaken);
      }
      var id := if Given(existing) then existing.value else freshId;
      var p := Player(id, name, false, Normal, None, []);
      JoinKeepsRoom(roomId, room, name, existing, id, p);
      RoomsOkStore(rooms, roomId, room.(players := room.players[id := p], order := room.order + [id]));
      rooms := rooms[roomId := room.(players := room.players[id := p], order := room.order + [id])];
      r := Ok(p);
    }

    /** `setGameType`: the host picks the variant, from any status, and the room is set up. */
    method SetGameType(roomId: RoomId, hostId: PlayerId, kind: GameKind) returns (r: Result<()>)
      requires Valid()
      modifies this
      ensures Valid() && instances == old(instances)
      ensures roomId !in old(rooms) ==> r == Err(RoomNotFound) && rooms == old(rooms)
      ensures roomId in old(rooms) && old(rooms[roomId]).hostId != hostId ==> r == Err(OnlyHostSelects) && rooms == old(rooms)
      ensures roomId in old(rooms) && old(rooms[roomId]).hostId == hostId ==>
        r == Ok(()) && rooms == old(rooms)[roomId := old(rooms[roomId]).(gameType := Some(kind), status := Setup)]
    {
      if roomId !in rooms {
        return Err(RoomNotFound);
      }
      if rooms[roomId].hostId != hostId {
        return Err(OnlyHostSelects);
      }
      RoomsOkStore(rooms, roomId, rooms[roomId].(gameType := Some(kind), status := Setup));
      rooms := rooms[roomId := rooms[roomId].(gameType := Some(kind), status := Setup)];
      r := Ok(());
    }

    /** `setAIContent`: the host sets the game content, from any status. */
    method SetAIContent(roomId: RoomId, hostId: PlayerId, content: AIContent) returns (r: Result<()>)
      requires Valid()
      modifies this
      ensures Valid() && instances == old(instances)
      ensures roomId !in old(rooms) ==> r == Err(RoomNotFound) && rooms == old(rooms)
      ensures roomId in old(rooms) && old(rooms[roomId]).hostId != hostId ==> r == Err(OnlyHostSetsUp) && rooms == old(rooms)
      ensures roomId in old(rooms) && old(rooms[roomId]).hostId == hostId ==>
        r == Ok(()) && rooms == old(rooms)[roomId := old(rooms[roomId]).(aiContent := Some(content))]
    {
      if roomId !in rooms {
        return Err(RoomNotFound);
      }
      if rooms[roomId].hostId != hostId {
        return Err(OnlyHostSetsUp);
      }
      RoomsOkStore(rooms, roomId, rooms[roomId].(aiContent := Some(content)));
      rooms := rooms[roomId := rooms[roomId].(aiContent := Some(content))];
      r := Ok(());
    }

    /** `startGame`: when every guard passes, a fresh game of the room's variant is set up on
        the room's players and registered; the room plays, with the new game's snapshot.
        Exactly one player gets the variant's special role, the alibi game has an accomplice
        exactly when at least four non-hosts play, and everyone else of the non-hosts is
        normal. A failing guard changes nothing. */
    method StartGame(roomId: RoomId, hostId: PlayerId, shuffleDraw: nat -> nat, levelDraw: nat -> nat)
      returns (r: Result<()>)
      requires Valid()
      modifies this
      ensures Valid()
      ensures roomId in old(rooms) ==> roomId in rooms
      ensures roomId !in old(rooms) ==> r == Err(RoomNotFound) && rooms == old(rooms) && instances == old(instances)
      ensures roomId in old(rooms) && StartCheck(old(rooms[roomId]), hostId).Some? ==>
        r == Err(StartCheck(old(rooms[roomId]), hostId).value) && rooms == old(rooms) && instances == old(instances)
      ensures roomId in old(rooms) && StartCheck(old(rooms[roomId]), hostId).None? ==>
        var room := old(rooms[roomId]);
        var k := room.gameType.value;
        var c := room.aiContent.value;
        var players := rooms[roomId].players;
        r == Ok(()) && roomId in instances && fresh(instances[roomId]) &&
        instances == old(instances)[roomId := instances[roomId]] &&
        instances[roomId].kind == k && instances[roomId].content == c && instances[roomId].roster == room.order &&
        instances[roomId].State() == GameState(k, 1, 0, []) &&
        rooms == old(rooms)[roomId := room.(players := players, status := Playing, gameState := Some(GameState(k, 1, 0, [])))] &&
        Started(room, players, levelDraw)
    {
      if roomId !in rooms {
        return Err(RoomNotFound);
      }
      var room := rooms[roomId];
      var check := StartCheck(room, hostId);
      if check.Some? {
        return Err(check.value);
      }
      var game, players := Launch(roomId, room, shuffleDraw, levelDraw);
      instances := instances[roomId := game];
      RoomsOkStore(rooms, roomId, room.(players := players, status := Playing, gameState := Some(game.State())));
      rooms := rooms[roomId := room.(players := players, status := Playing, gameState := Some(game.State()))];
      r := Ok(());
    }

    /** `addMessage`: a message reaches the room's live game only while the room plays and
        only from a non-host the game knows; the game's snapshot is refreshed. `msgId` is the
        fresh message id. */
    method AddMessage(roomId: RoomId, playerId: PlayerId, content: string, msgId: MessageId)
      returns (r: Result<Message>)
      requires Valid()
      modifies this, if roomId in instances then {instances[roomId]} else {}
      ensures Valid() && instances == old(instances)
      ensures roomId !in old(rooms) ==> r == Err(RoomNotFound) && rooms == old(rooms)
      ensures roomId in old(rooms) && roomId !in instances ==> r == Err(GameNotStarted) && rooms == old(rooms)
      ensures roomId in old(rooms) && roomId in instances && old(rooms[roomId]).status != Playing ==>
        r == Err(NotPlaying) && rooms == old(rooms) && unchanged(instances[roomId])
      ensures roomId in old(rooms) && roomId in instances && old(rooms[roomId]).status == Playing ==>
        var room := old(rooms[roomId]);
        var g := instances[roomId];
        if !old(g.MaySpeak(room.players, playerId)) then
          r == Err(CannotSend) && rooms == old(rooms) && g.messages == old(g.messages) && g.currentTurn == old(g.currentTurn)
        else
          var m := old(g.Composed(room.players, playerId, content, msgId));
          r == Ok(m) &&
          g.messages == old(g.messages) + [m] && g.currentTurn == old(g.currentTurn) + 1 &&
          g.round == old(g.round) && g.roster == old(g.roster) &&
          rooms == old(rooms)[roomId := Posted(room, playerId, m, g.State())]
    {
      if roomId !in rooms {
        return Err(RoomNotFound);
      }
      if roomId !in instances {
        return Err(GameNotStarted);
      }
      if rooms[roomId].status != Playing {
        return Err(NotPlaying);
      }
      r := Post(roomId, playerId, content, msgId);
    }

    /** The playing path of `addMessage`: the live game takes the message or refuses it, and
        the room's table and snapshot follow. */
    method Post(roomId: RoomId, playerId: PlayerId, content: string, msgId: MessageId) returns (r: Result<Message>)
      requires Valid() && roomId in rooms && roomId in instances && rooms[roomId].status == Playing
      modifies this, instances[roomId]
      ensures Valid() && instances == old(instances)
      ensures
        var room := old(rooms[roomId]);
        var g := instances[roomId];
        if !old(g.MaySpeak(room.players, playerId)) then
          r == Err(CannotSend) && rooms == old(rooms) && g.messages == old(g.messages) && g.currentTurn == old(g.currentTurn)
        else
          var m := old(g.Composed(room.players, playerId, content, msgId));
          r == Ok(m) &&
          g.messages == old(g.messages) + [m] && g.currentTurn == old(g.currentTurn) + 1 &&
          g.round == old(g.round) && g.roster == old(g.roster) &&
          rooms == old(rooms)[roomId := Posted(room, playerId, m, g.State())]
    {
      var room := rooms[roomId];
      var game := instances[roomId];
      var msg, players := game.HandleMessage(room.players, playerId, content, msgId);
      if msg.None? {
        return Err(CannotSend);
      }
      PostKeepsRooms(rooms, roomId, playerId, msg.value, game.State());
      rooms := rooms[roomId := Posted(room, playerId, msg.value, game.State())];
      r := Ok(msg.value);
    }

    /** `answerQuestion`: the host answers a question of the room's answer-filter game. The
        room must have that variant selected and its live game must be of that variant; the
        first logged message with the id gets the answer, and so does its author's copy. */
    method AnswerQuestion(roomId: RoomId, hostId: PlayerId, messageId: MessageId, answer: bool)
      returns (r: Result<()>)
      requires Valid()
      modifies this, if roomId in instances then {instances[roomId]} else {}
      ensures Valid() && instances == old(instances)
      ensures roomId !in old(rooms) ==> r == Err(RoomNotFound) && rooms == old(rooms)
      ensures roomId in old(rooms) && old(rooms[roomId]).hostId != hostId ==>
        r == Err(OnlyHostAnswers) && rooms == old(rooms)
      ensures roomId in old(rooms) && old(rooms[roomId]).hostId == hostId && roomId !in instances ==>
        r == Err(GameNotStarted) && rooms == old(rooms)
      ensures roomId in old(rooms) && old(rooms[roomId]).hostId == hostId && roomId in instances ==>
        var room := old(rooms[roomId]);
        var g := instances[roomId];
        var pos := AnswerFilter.FindMessage(old(g.messages), messageId);
        if room.gameType != Some(AnswerFilter) then
          r == Err(AnswerFilterOnly) && rooms == old(rooms) && g.messages == old(g.messages) && g.currentTurn == old(g.currentTurn)
        else if g.kind != AnswerFilter then
          r == Err(CannotAnswer) && rooms == old(rooms) && g.messages == old(g.messages) && g.currentTurn == old(g.currentTurn)
        else if pos.None? then
          r == Err(QuestionNotFound) && rooms == old(rooms) && g.messages == old(g.messages)
        else
          var m := old(g.messages)[pos.value];
          r == Ok(()) &&
          g.messages == old(g.messages)[pos.value := m.(hostAnswer := Some(answer))] &&
          rooms == old(rooms)[roomId := Answered(room, m.playerId, messageId, answer, g.State())]
    {
      if roomId !in rooms {
        return Err(RoomNotFound);
      }
      var room := rooms[roomId];
      if room.hostId != hostId {
        return Err(OnlyHostAnswers);
      }
      if roomId !in instances {
        return Err(GameNotStarted);
      }
      if room.gameType != Some(AnswerFilter) {
        return Err(AnswerFilterOnly);
      }
      if instances[roomId].kind != AnswerFilter {
        return Err(CannotAnswer);
      }
      r := Answer(roomId, messageId, answer);
    }

    /** The answering path of `answerQuestion`, on a live answer-filter game: the first logged
        message with the id gets the answer, as does its author's copy, and the snapshot is
        refreshed; without such a message nothing changes. */
    method Answer(roomId: RoomId, messageId: MessageId, answer: bool) returns (r: Result<()>)
      requires Valid() && roomId in rooms && roomId in instances && instances[roomId].kind == AnswerFilter
      modifies this, instances[roomId]
      ensures Valid() && instances == old(instances)
      ensures
        var room := old(rooms[roomId]);
        var g := instances[roomId];
        var pos := AnswerFilter.FindMessage(old(g.messages), messageId);
        if pos.None? then
          r == Err(QuestionNotFound) && rooms == old(rooms) && g.messages == old(g.messages)
        else
          var m := old(g.messages)[pos.value];
          r == Ok(()) &&
          g.messages == old(g.messages)[pos.value := m.(hostAnswer := Some(answer))] &&
          rooms == old(rooms)[roomId := Answered(room, m.playerId, messageId, answer, g.State())]
    {
      var room := rooms[roomId];
      var game := instances[roomId];
      var before := game.messages;
      var pos := AnswerFilter.FindMessage(before, messageId);
      var found, players := game.AnswerQuestion(room.players, messageId, Some(answer), false);
      if !found {
        return Err(QuestionNotFound);
      }
      var author := before[pos.value].playerId;
      AnswerKeepsRooms(rooms, roomId, author, messageId, answer, game.State());
      rooms := rooms[roomId := Answered(room, author, messageId, answer, game.State())];
      r := Ok(());
    }

    /** `getVotingView`: nothing without a voting session or for an id not in the room. */
    method GetVotingView(roomId: RoomId, playerId: PlayerId) returns (v: Option<VotingView>)
      ensures v.Some? <==> roomId in rooms && rooms[roomId].voting.Some? && playerId in rooms[roomId].players
      ensures v.Some? ==> ShowsVotes(v.value, rooms[roomId].voting.value, playerId)
    {
      if roomId !in rooms || rooms[roomId].voting.None? || playerId !in rooms[roomId].players {
        return None;
      }
      var s := rooms[roomId].voting.value;
      var mine := Voting.VoteOf(s.votes, playerId);
      var counts := Voting.CountVotes(s.votes);
      v := Some(VotingView(s.isActive, mine.Some?, if mine.Some? then Some(mine.value.targetId) else None, counts));
    }

    /** `getPlayerView`: every player of the room by id, name, host flag and whether they
        have spoken, in joining order; the caller's own role and note; the caller's game
        information and the game log while a game is live; the caller's voting panel. */
    method GetPlayerView(roomId: RoomId, playerId: PlayerId) returns (v: Option<PlayerView>)
      requires Valid()
      ensures v.None? <==> roomId !in rooms
      ensures v.Some? ==>
        var room := rooms[roomId];
        var live := roomId in instances && playerId in room.players;
        v.value.roomId == roomId && v.value.gameType == room.gameType && v.value.status == room.status &&
        v.value.players == PublicRows(room.players, room.order) &&
        v.value.currentPlayer == (if playerId in room.players then Some(OwnPlayer(playerId, room.players[playerId].name,
                                    room.players[playerId].role, room.players[playerId].privateInfo)) else None) &&
        v.value.gameInfo == (if live then instances[roomId].PlayerInfo(room.players, playerId) else None) &&
        v.value.messages == (if live then instances[roomId].messages else []) &&
        (v.value.votingView.Some? <==> room.voting.Some? && playerId in room.players) &&
        (v.value.votingView.Some? ==> ShowsVotes(v.value.votingView.value, room.voting.value, playerId))
    {
      if roomId !in rooms {
        return None;
      }
      var room := rooms[roomId];
      var info: Option<PlayerGameInfo> := None;
      var messages: seq<Message> := [];
      if roomId in instances && playerId in room.players {
        info := instances[roomId].PlayerInfo(room.players, playerId);
        messages := instances[roomId].messages;
      }
      var voting := GetVotingView(roomId, playerId);
      var me := if playerId in room.players then
        Some(OwnPlayer(room.players[playerId].id, room.players[playerId].name, room.players[playerId].role,
                       room.players[playerId].privateInfo))
      else None;
      v := Some(PlayerView(room.id, room.gameType, room.status, PublicRows(room.players, room.order), me, info, messages, voting));
    }

    /** `getHostView`: nothing unless the caller is the room's host; otherwise every player
        with role and note, the content, the host's game information and the game log while a
        game is live, and the host's voting panel. */
    method GetHostView(roomId: RoomId, hostId: PlayerId) returns (v: Option<HostView>)
      requires Valid()
      ensures v.None? <==> roomId !in rooms || rooms[roomId].hostId != hostId
      ensures v.Some? ==>
        var room := rooms[roomId];
        v.value.roomId == roomId && v.value.gameType == room.gameType && v.value.status == room.status &&
        v.value.players == HostRows(room.players, room.order) && v.value.aiContent == room.aiContent &&
        v.value.gameInfo == (if roomId in instances then Some(instances[roomId].HostInfo(room.players)) else None) &&
        v.value.messages == (if roomId in instances then instances[roomId].messages else []) &&
        v.value.votingView.Some? == room.voting.Some? &&
        (v.value.votingView.Some? ==> ShowsVotes(v.value.votingView.value, room.voting.value, hostId))
    {
      if roomId !in rooms || rooms[roomId].hostId != hostId {
        return None;
      }
      var room := rooms[roomId];
      var info: Option<HostGameInfo> := None;
      var messages: seq<Message> := [];
      if roomId in instances {
        info := Some(instances[roomId].HostInfo(room.players));
        messages := instances[roomId].messages;
      }
      var voting := GetVotingView(roomId, hostId);
      v := Some(HostView(room.id, room.gameType, room.status, HostRows(room.players, room.order), room.aiContent,
                         info, messages, voting));
    }

    /** `endGame`: the host ends the game from any status. The live game is dropped; the
        snapshot and any voting session stay. */
    method EndGame(roomId: RoomId, hostId: PlayerId) returns (r: Result<()>)
      requires Valid()
      modifies this
      ensures Valid()
      ensures roomId !in old(rooms) ==> r == Err(RoomNotFound) && rooms == old(rooms) && instances == old(instances)
      ensures roomId in old(rooms) && old(rooms[roomId]).hostId != hostId ==>
        r == Err(OnlyHostEnds) && rooms == old(rooms) && instances == old(instances)
      ensures roomId in old(rooms) && old(rooms[roomId]).hostId == hostId ==>
        r == Ok(()) && rooms == old(rooms)[roomId := old(rooms[roomId]).(status := Ended)] &&
        instances == old(instances) - {roomId}
    {
      if roomId !in rooms {
        return Err(RoomNotFound);
      }
      if rooms[roomId].hostId != hostId {
        return Err(OnlyHostEnds);
      }
      RoomsOkStore(rooms, roomId, rooms[roomId].(status := Ended));
      rooms := rooms[roomId := rooms[roomId].(status := Ended)];
      instances := instances - {roomId};
      r := Ok(());
    }

    /** `resetRoom`: the host brings the room back to waiting with the same players, each
        normal, without a note and without messages; variant, content, snapshot, voting and
        live game are dropped. */
    method ResetRoom(roomId: RoomId, hostId: PlayerId) returns (r: Result<()>)
      requires Valid()
      modifies this
      ensures Valid()
      ensures roomId !in old(rooms) ==> r == Err(RoomNotFound) && rooms == old(rooms) && instances == old(instances)
      ensures roomId in old(rooms) && old(rooms[roomId]).hostId != hostId ==>
        r == Err(OnlyHostResets) && rooms == old(rooms) && instances == old(instances)
      ensures roomId in old(rooms) ==> roomId in rooms
      ensures roomId in old(rooms) && old(rooms[roomId]).hostId == hostId ==>
        var room := old(rooms[roomId]);
        var players := rooms[roomId].players;
        r == Ok(()) &&
        players.Keys == room.players.Keys && (forall id :: id in players ==> players[id] == Cleared(room.players[id])) &&
        rooms == old(rooms)[roomId := Reset(room, players)] &&
        instances == old(instances) - {roomId}
    {
      if roomId !in rooms {
        return Err(RoomNotFound);
      }
      var room := rooms[roomId];
      if room.hostId != hostId {
        return Err(OnlyHostResets);
      }
      var players := ClearPlayers(room.players, room.order);
      ResetKeepsRooms(rooms, roomId, players);
      rooms := rooms[roomId := Reset(room, players)];
      instances := instances - {roomId};
      r := Ok(());
    }

    /** `startVoting`: the host opens an empty, active vote on a playing room. */
    method StartVoting(roomId: RoomId, hostId: PlayerId) returns (r: Result<()>)
      requires Valid()
      modifies this
      ensures Valid() && instances == old(instances)
      ensures roomId !in old(rooms) ==> r == Err(RoomNotFound) && rooms == old(rooms)
      ensures roomId in old(rooms) && old(rooms[roomId]).hostId != hostId ==> r == Err(OnlyHostStartsVote) && rooms == old(rooms)
      ensures roomId in old(rooms) && old(rooms[roomId]).hostId == hostId && old(rooms[roomId]).status != Playing ==>
        r == Err(VoteNeedsPlaying) && rooms == old(rooms)
      ensures roomId in old(rooms) && old(rooms[roomId]).hostId == hostId && old(rooms[roomId]).status == Playing ==>
        r == Ok(()) &&
        rooms == old(rooms)[roomId := old(rooms[roomId]).(status := Voting, voting := Some(VotingState([], true)))]
    {
      if roomId !in rooms {
        return Err(RoomNotFound);
      }
      var room := rooms[roomId];
      if room.hostId != hostId {
        return Err(OnlyHostStartsVote);
      }
      if room.status != Playing {
        return Err(VoteNeedsPlaying);
      }
      RoomsOkStore(rooms, roomId, room.(status := Voting, voting := Some(VotingState([], true))));
      rooms := rooms[roomId := room.(status := Voting, voting := Some(VotingState([], true)))];
      r := Ok(());
    }

    /** `castVote`: while the room votes and its vote is open, a non-host votes for another
        non-host; a repeated vote replaces the voter's earlier one. */
    method CastVote(roomId: RoomId, voterId: PlayerId, targetId: PlayerId) returns (r: Result<()>)
      requires Valid()
      modifies this
      ensures Valid() && instances == old(instances)
      ensures r.Err? ==> rooms == old(rooms)
      ensures r == (if roomId !in old(rooms) then Err(RoomNotFound)
                    else VoteCheck(old(rooms[roomId]), voterId, targetId))
      ensures r.Ok? ==>
        var room := old(rooms[roomId]);
        var s := room.voting.value;
        rooms == old(rooms)[roomId := room.(voting := Some(s.(votes := Voting.Recast(s.votes,
                   Vote(voterId, room.players[voterId].name, targetId)))))]
    {
      if roomId !in rooms {
        return Err(RoomNotFound);
      }
      var room := rooms[roomId];
      r := VoteCheck(room, voterId, targetId);
      if r.Err? {
        return;
      }
      var s := room.voting.value;
      var vote := Vote(voterId, room.players[voterId].name, targetId);
      var votes := Voting.Recast(s.votes, vote);
      RecastWellFormed(s.votes, vote, room.players);
      RoomsOkStore(rooms, roomId, room.(voting := Some(s.(votes := votes))));
      rooms := rooms[roomId := room.(voting := Some(s.(votes := votes)))];
    }

    /** `endVoting`: the host closes the vote, whatever the status, which stays as it is; the
        answer is the tally of the votes. */
    method EndVoting(roomId: RoomId, hostId: PlayerId) returns (r: Result<seq<VotingResult>>)
      requires Valid()
      modifies this
      ensures Valid() && instances == old(instances)
      ensures roomId !in old(rooms) ==> r == Err(RoomNotFound) && rooms == old(rooms)
      ensures roomId in old(rooms) && old(rooms[roomId]).hostId != hostId ==> r == Err(OnlyHostEndsVote) && rooms == old(rooms)
      ensures roomId in old(rooms) && old(rooms[roomId]).hostId == hostId && old(rooms[roomId]).voting.None? ==>
        r == Err(NoVoteSession) && rooms == old(rooms)
      ensures roomId in old(rooms) && old(rooms[roomId]).hostId == hostId && old(rooms[roomId]).voting.Some? ==>
        var room := old(rooms[roomId]);
        var s := room.voting.value;
        r == Ok(Voting.SortDesc(Voting.Unsorted(s.votes, room.players))) &&
        rooms == old(rooms)[roomId := room.(voting := Some(s.(isActive := false)))]
    {
      if roomId !in rooms {
        return Err(RoomNotFound);
      }
      var room := rooms[roomId];
      if room.hostId != hostId {
        return Err(OnlyHostEndsVote);
      }
      if room.voting.None? {
        return Err(NoVoteSession);
      }
      var s := room.voting.value;
      RoomsOkStore(rooms, roomId, room.(voting := Some(s.(isActive := false))));
      rooms := rooms[roomId := room.(voting := Some(s.(isActive := false)))];
      var results := Voting.Tally(s.votes, room.players);
      r := Ok(results);
    }

    /** `removeRoom`: the room and its live game are gone. */
    method RemoveRoom(roomId: RoomId)
      requires Valid()
      modifies this
      ensures Valid()
      ensures rooms == old(rooms) - {roomId} && instances == old(instances) - {roomId}
    {
      rooms := rooms - {roomId};
      instances := instances - {roomId};
    }
  }

  /** The guards of `castVote` on a registered room, in order: the room votes and its vote is
      open; the voter is a non-host of the room; so is the target; they differ. */
  function VoteCheck(room: Room, voterId: PlayerId, targetId: PlayerId): (r: Result<()>)
    ensures r.Ok? ==>
      room.status == Voting && room.voting.Some? && room.voting.value.isActive &&
      voterId in room.players && !room.players[voterId].isHost &&
      targetId in room.players && !room.players[targetId].isHost && voterId != targetId
  {
    if room.status != Voting || room.voting.None? || !room.voting.value.isActive then Err(VotingInactive)
    else if voterId !in room.players || room.players[voterId].isHost then Err(OnlyPlayersVote)
    else if targetId !in room.players || room.players[targetId].isHost then Err(InvalidTarget)
    else if voterId == targetId then Err(NoSelfVote)
    else Ok(())
  }

  /** A vote by a non-host for another non-host keeps the votes well formed. */
  lemma RecastWellFormed(votes: seq<Vote>, v: Vote, players: map<PlayerId, Player>)
    requires VotesWellFormed(votes, players)
    requires v.voterId in players && !players[v.voterId].isHost
    requires v.targetId in players && !players[v.targetId].isHost && v.voterId != v.targetId
    ensures VotesWellFormed(Voting.Recast(votes, v), players)
  {
    Voting.RecastHolds(votes, v);
  }

  /** A join keeps the room well formed: the new id is new, and the new name is not a
      non-host's already. */
  lemma JoinKeepsRoom(code: RoomId, room: Room, name: string, existing: Option<PlayerId>, id: PlayerId, p: Player)
    requires RoomOk(code, room)
    requires id !in room.players
    requires p == Player(id, name, false, Normal, None, [])
    requires Given(existing) ==> id == existing.value
    requires FindByName(room.players, room.order, name, if Given(existing) then existing else None).None?
    ensures RoomOk(code, room.(players := room.players[id := p], order := room.order + [id]))
  {
    var players := room.players[id := p];
    var order := room.order + [id];
    var except := if Given(existing) then existing else None;
    forall q | q in room.players && !room.players[q].isHost
      ensures Lower(room.players[q].name) != Lower(name)
    {
      var j :| 0 <= j < |room.order| && room.order[j] == q;
      assert !NameMatch(room.players[room.order[j]], name, except);
    }
    assert Distinct(order) by {
      forall i, j | 0 <= i < j < |order| ensures order[i] != order[j] {
        if j == |room.order| {
          assert order[i] in room.order;
        }
      }
    }
    if room.voting.Some? {
      assert VotesWellFormed(room.voting.value.votes, players);
    }
  }
}
