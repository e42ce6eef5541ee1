/** The entities of the game engine: game kinds, roles, room status, players, messages,
    votes, rooms, the secret content a game is played with, the views sent to clients
    and the static table of game descriptions. */
module Types {
  import opened Text

  type PlayerId = string
  type RoomId = string
  type MessageId = string

  datatype Option<T> = None | Some(value: T)

  /** The outcome of an operation that reports failure with a message. */
  datatype Result<T> = Ok(value: T) | Err(error: string)

  /** The eleven game variants. */
  datatype GameKind =
    | Alibi | Perspective | TruthConstraint | Chain | BannedWords | AnswerFilter
    | TwoLayer | ConstraintSpy | CommonGround | Liar20Q | OneFalseDetail

  /** The wire name of each variant. */
  function KindName(k: GameKind): string {
    match k
    case Alibi => "alibi"
    case Perspective => "perspective"
    case TruthConstraint => "truth-constraint"
    case Chain => "chain"
    case BannedWords => "banned-words"
    case AnswerFilter => "answer-filter"
    case TwoLayer => "two-layer"
    case ConstraintSpy => "constraint-spy"
    case CommonGround => "common-ground"
    case Liar20Q => "liar-20q"
    case OneFalseDetail => "one-false-detail"
  }

  /** Reads a wire name back; only the eleven names are accepted. */
  function ParseKind(s: string): (r: Option<GameKind>)
    ensures r.Some? ==> KindName(r.value) == s
  {
    if s == "alibi" then Some(Alibi)
    else if s == "perspective" then Some(Perspective)
    else if s == "truth-constraint" then Some(TruthConstraint)
    else if s == "chain" then Some(Chain)
    else if s == "banned-words" then Some(BannedWords)
    else if s == "answer-filter" then Some(AnswerFilter)
    else if s == "two-layer" then Some(TwoLayer)
    else if s == "constraint-spy" then Some(ConstraintSpy)
    else if s == "common-ground" then Some(CommonGround)
    else if s == "liar-20q" then Some(Liar20Q)
    else if s == "one-false-detail" then Some(OneFalseDetail)
    else None
  }

  /** Every variant's name reads back as that variant, so the eleven names are distinct. */
  lemma KindNameRoundTrip(k: GameKind)
    ensures ParseKind(KindName(k)) == Some(k)
  {
  }

  datatype Role = Normal | Spy | Culprit | Accomplice | Saboteur | Liar

  datatype Status = Waiting | Setup | Playing | Voting | Ended

  /** A chat message. `hostAnswer` is `None` while unanswered (the field absent or null). */
  datatype Message = Message(
    id: MessageId,
    playerId: PlayerId,
    playerName: string,
    content: string,
    isValid: bool,
    violations: seq<string>,
    hostAnswer: Option<bool>)

  datatype Player = Player(
    id: PlayerId,
    name: string,
    isHost: bool,
    role: Role,
    privateInfo: Option<string>,
    messages: seq<Message>)

  datatype Vote = Vote(voterId: PlayerId, voterName: string, targetId: PlayerId)

  /** The votes in the insertion order of the voter-keyed map: at most one per voter. */
  datatype VotingState = VotingState(votes: seq<Vote>, isActive: bool)

  /** The snapshot `getState` returns and the room keeps. */
  datatype GameState = GameState(kind: GameKind, round: nat, currentTurn: nat, messages: seq<Message>)

  datatype ScaleValue = ScaleValue(level: int, description: string)

  /** The off-scale level of the two-layer spy, a number or a text. */
  datatype SpyLevel = LevelNumber(n: int) | LevelText(t: string)

  /** The secret content of a game; every field may be absent. */
  datatype AIContent = AIContent(
    topic: Option<string>,
    hints: Option<seq<string>>,
    promptTemplate: Option<string>,
    // alibi
    scenario: Option<string>,
    stolenItem: Option<string>,
    culpritConstraint: Option<string>,
    accompliceConstraint: Option<string>,
    alibiTemplate: Option<string>,
    // perspective
    mainTopic: Option<string>,
    spyTopic: Option<string>,
    mainPerspective: Option<string>,
    spyPerspective: Option<string>,
    // truth-constraint
    secretFact: Option<string>,
    factExplanation: Option<string>,
    forbiddenWords: Option<seq<string>>,
    // chain
    topicDescription: Option<string>,
    keyLogicPoints: Option<seq<string>>,
    // banned-words
    mainKeyword: Option<string>,
    spyKeyword: Option<string>,
    bannedWords: Option<seq<string>>,
    requiredWord: Option<string>,
    // answer-filter
    secretFilter: Option<string>,
    filterExplanation: Option<string>,
    saboteurHint: Option<string>,
    // two-layer
    scaleMin: Option<int>,
    scaleMax: Option<int>,
    scaleValues: Option<seq<ScaleValue>>,
    spyLevel: Option<SpyLevel>,
    // constraint-spy
    constraintRule: Option<string>,
    ruleExplanation: Option<string>,
    // common-ground
    commonTraits: Option<seq<string>>,
    spyTrait: Option<string>,
    // liar-20q
    mysteryItem: Option<string>,
    itemDescription: Option<string>,
    liarInstruction: Option<string>,
    // one-false-detail
    truthDescription: Option<string>,
    detailCategories: Option<seq<string>>)

  /** `field || fallback` for an optional string: an absent or empty string gives the fallback. */
  function Or(o: Option<string>, fallback: string): (r: string)
    ensures o.Some? && o.value != "" ==> r == o.value
    ensures (o.None? || o.value == "") ==> r == fallback
  {
    if o.Some? && o.value != "" then o.value else fallback
  }

  /** `${field}` for an optional string: an absent field prints as "undefined". */
  function Show(o: Option<string>): string {
    if o.Some? then o.value else "undefined"
  }

  /** `${list?.join(sep)}` */
  function ShowJoin(o: Option<seq<string>>, sep: string): string {
    if o.Some? then Join(o.value, sep) else "undefined"
  }

  /** `list?.join(sep) || fallback` */
  function OrJoin(o: Option<seq<string>>, sep: string, fallback: string): string {
    if o.Some? && Join(o.value, sep) != "" then Join(o.value, sep) else fallback
  }

  /** What role assignment writes into one player: its role and its private note. */
  datatype Slot = Slot(role: Role, info: Option<string>)

  /** A player after role assignment wrote `slot` into it (`None`: left untouched). */
  function Apply(p: Player, slot: Option<Slot>): Player {
    if slot.Some? then p.(role := slot.value.role, privateInfo := slot.value.info) else p
  }

  /** The result of a variant's message check. */
  datatype Validation = Validation(valid: bool, violations: seq<string>)

  /** What a non-host player is told about the game. */
  datatype PlayerGameInfo = PlayerGameInfo(
    promptTemplate: string,
    hints: seq<string>,
    privateConstraint: Option<string>,
    topic: Option<string>)

  datatype RoleEntry = RoleEntry(playerId: PlayerId, playerName: string, role: Role, privateInfo: Option<string>)

  /** What only the host is told: every non-host's role, the secret and the per-role rules. */
  datatype HostGameInfo = HostGameInfo(allRoles: seq<RoleEntry>, secretInfo: string, constraints: map<Role, string>)

  datatype VotingResult = VotingResult(targetId: PlayerId, targetName: string, voteCount: nat, voters: seq<string>)

  datatype VotingView = VotingView(isActive: bool, hasVoted: bool, myVote: Option<PlayerId>, voteCounts: map<PlayerId, nat>)

  /** A row of the player list every player sees. */
  datatype PublicPlayer = PublicPlayer(id: PlayerId, name: string, isHost: bool, hasSpoken: bool)

  /** The calling player's own record. */
  datatype OwnPlayer = OwnPlayer(id: PlayerId, name: string, role: Role, privateInfo: Option<string>)

  /** A row of the player list the host sees. */
  datatype HostRow = HostRow(id: PlayerId, name: string, isHost: bool, role: Role, privateInfo: Option<string>, hasSpoken: bool)

  datatype PlayerView = PlayerView(
    roomId: RoomId,
    gameType: Option<GameKind>,
    status: Status,
    players: seq<PublicPlayer>,
    currentPlayer: Option<OwnPlayer>,
    gameInfo: Option<PlayerGameInfo>,
    messages: seq<Message>,
    votingView: Option<VotingView>)

  datatype HostView = HostView(
    roomId: RoomId,
    gameType: Option<GameKind>,
    status: Status,
    players: seq<HostRow>,
    aiContent: Option<AIContent>,
    gameInfo: Option<HostGameInfo>,
    messages: seq<Message>,
    votingView: Option<VotingView>)

  /** A room. `players` with `order` is the insertion-ordered player map; `gameState` is the
      last snapshot of the live game. */
  datatype Room = Room(
    id: RoomId,
    hostId: PlayerId,
    gameType: Option<GameKind>,
    status: Status,
    players: map<PlayerId, Player>,
    order: seq<PlayerId>,
    gameState: Option<GameState>,
    aiContent: Option<AIContent>,
    voting: Option<VotingState>)

  predicate Distinct<T(==)>(s: seq<T>) {
    forall i, j :: 0 <= i < j < |s| ==> s[i] != s[j]
  }

  /** `order` lists the keys of `players`, each once: the iteration order of a JavaScript Map. */
  predicate IsOrderOf(order: seq<PlayerId>, players: map<PlayerId, Player>) {
    Distinct(order) && (forall id :: id in order ==> id in players) && (forall id :: id in players ==> id in order)
  }

  /** The ids of `ids` whose player is not the host, in order. */
  function NonHosts(players: map<PlayerId, Player>, ids: seq<PlayerId>): (r: seq<PlayerId>)
    ensures forall id :: id in r <==> id in ids && id in players && !players[id].isHost
    ensures |r| <= |ids|
  {
    if ids == [] then []
    else (if ids[0] in players && !players[ids[0]].isHost then [ids[0]] else []) + NonHosts(players, ids[1..])
  }

  /** How many non-host players listed in `ids` hold `role`. */
  function CountRole(players: map<PlayerId, Player>, ids: seq<PlayerId>, role: Role): nat {
    if ids == [] then 0
    else
      var here: nat := if ids[0] in players && !players[ids[0]].isHost && players[ids[0]].role == role then 1 else 0;
      here + CountRole(players, ids[1..], role)
  }

  datatype GameInfoEntry = GameInfoEntry(name: string, description: string, minPlayers: nat, maxPlayers: nat, roles: seq<Role>)

  /** The roles a variant hands out (the `roles` of `GAME_INFO`), the common role first. */
  function GameRoles(k: GameKind): (r: seq<Role>)
    ensures |r| >= 2 && r[0] == Normal && Normal !in r[1..]
  {
    match k
    case Alibi => [Normal, Culprit, Accomplice]
    case Perspective => [Normal, Spy]
    case TruthConstraint => [Normal, Spy]
    case Chain => [Normal, Spy]
    case BannedWords => [Normal, Spy]
    case AnswerFilter => [Normal, Saboteur]
    case TwoLayer => [Normal, Spy]
    case ConstraintSpy => [Normal, Spy]
    case CommonGround => [Normal, Spy]
    case Liar20Q => [Normal, Liar]
    case OneFalseDetail => [Normal, Spy]
  }

  /** The display name of each variant. */
  function GameName(k: GameKind): string {
    match k
    case Alibi => "Alibi 1 câu"
    case Perspective => "Perspective Undercover"
    case TruthConstraint => "Truth-Constraint"
    case Chain => "3-hop Chain"
    case BannedWords => "Từ cấm & Từ bắt buộc"
    case AnswerFilter => "Bộ lọc câu trả lời"
    case TwoLayer => "Từ khóa \"2 lớp\""
    case ConstraintSpy => "Câu nói phải chứa điều kiện"
    case CommonGround => "Hai sự thật chung"
    case Liar20Q => "20 câu hỏi có kẻ phá"
    case OneFalseDetail => "Đúng 1 chi tiết sai"
  }

  /** The one-line rules of each variant shown in the lobby. */
  function GameDescription(k: GameKind): string {
    match k
    case Alibi =>
      "Mỗi người nói 1 câu alibi. Thủ phạm không được nhắc đồ vật, đồng phạm không được nhắc người."
    case Perspective =>
      "Cùng chủ đề nhưng spy có góc nhìn khác. Phát hiện ai \"lệch hệ\"."
    case TruthConstraint =>
      "Nhóm biết 1 fact bí mật, spy không biết. Ai nói sai fact sẽ lộ."
    case Chain =>
      "Nói câu theo chuỗi logic. Spy không biết chủ đề nên dễ đứt mạch."
    case BannedWords =>
      "Có từ cấm và từ bắt buộc. Spy nhận từ khóa khác nên khó tuân thủ."
    case AnswerFilter =>
      "MC có bộ lọc bí mật. Nhóm tìm quy luật, 1 người phá đám."
    case TwoLayer =>
      "Mỗi người nhận 1 mức trên thang (1-5). Điệp viên nhận mức lạc thang. Mô tả đúng mức của mình."
    case ConstraintSpy =>
      "Mọi người biết luật ngôn ngữ bí mật. Ai không biết sẽ tự lộ vì không đáp ứng điều kiện."
    case CommonGround =>
      "Mỗi người nói \"Tôi thuộc nhóm A hoặc B\". Điệp viên cố nói không thuộc cả hai nhưng vẫn giống."
    case Liar20Q =>
      "MC nghĩ 1 vật. Nhóm hỏi Yes/No. 1 người dối đúng 1 lần. Tìm vật và tìm kẻ dối."
    case OneFalseDetail =>
      "MC mô tả 1 địa điểm/vật. Mọi người mô tả, nhưng điệp viên phải sai đúng 1 chi tiết."
  }

  /** The static description of every variant (`GAME_INFO`): every variant is for 4 to 12 people. */
  function GameInfo(k: GameKind): (r: GameInfoEntry)
    ensures r.minPlayers == 4 && r.maxPlayers == 12
    ensures r.roles == GameRoles(k)
  {
    GameInfoEntry(GameName(k), GameDescription(k), 4, 12, GameRoles(k))
  }
}
