/** The variant-specific behaviour of a game, dispatched on its kind: what role assignment
    writes into each shuffled player, what a player and the host are told, and how a
    message is checked. */
module Variants {
  import opened Text
  import opened Types
  import Alibi
  import AnswerFilter
  import BannedWords
  import Chain
  import TruthConstraint
  import Perspective
  import ConstraintSpy
  import TwoLayer
  import Liar20Q
  import CommonGround
  import OneFalseDetail

  /** The role the first shuffled player receives. */
  function SpecialRole(k: GameKind): (r: Role)
    ensures r != Normal && r in GameRoles(k)
  {
    match k
    case Alibi => Culprit
    case AnswerFilter => Saboteur
    case Liar20Q => Liar
    case _ => Spy
  }

  /** The fewest non-host players for which role assignment writes anything. */
  function MinEligible(k: GameKind): nat {
    if k == Alibi then 2 else 1
  }

  /** The private note of the first shuffled player. */
  function SpecialInfo(k: GameKind, c: AIContent): string {
    match k
    case Alibi => Alibi.CulpritInfo(c)
    case Perspective => Perspective.SpyInfo(c)
    case TruthConstraint => TruthConstraint.SpyInfo(c)
    case Chain => Chain.SpyInfo
    case BannedWords => BannedWords.SpyInfo(c)
    case AnswerFilter => AnswerFilter.SaboteurInfo(c)
    case TwoLayer => TwoLayer.SpyInfo(c)
    case ConstraintSpy => ConstraintSpy.SpyInfo
    case CommonGround => CommonGround.SpyInfo(c)
    case Liar20Q => Liar20Q.LiarInfo(c)
    case OneFalseDetail => OneFalseDetail.SpyInfo(c)
  }

  /** The private note of a later shuffled player in a variant other than alibi; `draw` is
      the random draw of the two-layer level. */
  function NormalInfo(k: GameKind, c: AIContent, draw: nat): Option<string> {
    match k
    case Alibi => None
    case Perspective => Some(Perspective.NormalInfo(c))
    case TruthConstraint => Some(TruthConstraint.NormalInfo(c))
    case Chain => Some(Chain.NormalInfo(c))
    case BannedWords => Some(BannedWords.NormalInfo(c))
    case AnswerFilter => Some(AnswerFilter.NormalInfo)
    case TwoLayer => Some(TwoLayer.NormalInfo(c, TwoLayer.PickLevel(c, draw)))
    case ConstraintSpy => Some(ConstraintSpy.NormalInfo(c))
    case CommonGround => Some(CommonGround.NormalInfo(c))
    case Liar20Q => Some(Liar20Q.NormalInfo(c))
    case OneFalseDetail => Some(OneFalseDetail.NormalInfo(c))
  }

  /** The role position `i` of the shuffled non-hosts receives: the special role first, the
      alibi's accomplice second when there are four or more players, normal otherwise. */
  function RoleAt(k: GameKind, i: nat, n: nat): Role {
    if i == 0 then SpecialRole(k) else if k == Alibi && i == 1 && n >= 4 then Accomplice else Normal
  }

  /** What role assignment writes into the player at position `i` of the `n` shuffled
      non-hosts (`None`: left untouched). Nothing is written below the variant's minimum;
      otherwise position 0 gets the special role, the alibi's position 1 the accomplice when
      there are four or more players, and every other position becomes normal. */
  function SlotAt(k: GameKind, c: AIContent, i: nat, n: nat, draw: nat): (r: Option<Slot>)
    requires i < n
    ensures r.None? <==> n < MinEligible(k)
    ensures r.Some? ==> r.value.role in GameRoles(k)
    ensures r.Some? ==> r.value.role == RoleAt(k, i, n)
    ensures r.Some? && i == 0 ==> r.value.info == Some(SpecialInfo(k, c))
    ensures r.Some? && i > 0 ==>
      r.value.info == (if RoleAt(k, i, n) == Accomplice then Some(Alibi.AccompliceInfo(c)) else NormalInfo(k, c, draw))
  {
    if k == Alibi then Alibi.SlotAt(c, i, n)
    else if n < 1 then None
    else if i == 0 then Some(Slot(SpecialRole(k), Some(SpecialInfo(k, c))))
    else Some(Slot(Normal, NormalInfo(k, c, draw)))
  }

  /** What a non-host player is told. */
  function PlayerInfo(k: GameKind, c: AIContent, p: Player): PlayerGameInfo {
    match k
    case Alibi => Alibi.PlayerInfo(c, p)
    case Perspective => Perspective.PlayerInfo(c, p)
    case TruthConstraint => TruthConstraint.PlayerInfo(c, p)
    case Chain => Chain.PlayerInfo(c, p)
    case BannedWords => BannedWords.PlayerInfo(c, p)
    case AnswerFilter => AnswerFilter.PlayerInfo(c, p)
    case TwoLayer => TwoLayer.PlayerInfo(c, p)
    case ConstraintSpy => ConstraintSpy.PlayerInfo(c, p)
    case CommonGround => CommonGround.PlayerInfo(c, p)
    case Liar20Q => Liar20Q.PlayerInfo(c, p)
    case OneFalseDetail => OneFalseDetail.PlayerInfo(c, p)
  }

  /** The secret summary shown to the host. */
  function Secret(k: GameKind, c: AIContent): string {
    match k
    case Alibi => Alibi.Secret(c)
    case Perspective => Perspective.Secret(c)
    case TruthConstraint => TruthConstraint.Secret(c)
    case Chain => Chain.Secret(c)
    case BannedWords => BannedWords.Secret(c)
    case AnswerFilter => AnswerFilter.Secret(c)
    case TwoLayer => TwoLayer.Secret(c)
    case ConstraintSpy => ConstraintSpy.Secret(c)
    case CommonGround => CommonGround.Secret(c)
    case Liar20Q => Liar20Q.Secret(c)
    case OneFalseDetail => OneFalseDetail.Secret(c)
  }

  /** The per-role rules shown to the host; every role the variant hands out has one. */
  function Constraints(k: GameKind, c: AIContent): (r: map<Role, string>)
    ensures forall role :: role in GameRoles(k) ==> role in r
  {
    match k
    case Alibi => Alibi.Constraints(c)
    case Perspective => Perspective.Constraints(c)
    case TruthConstraint => TruthConstraint.Constraints(c)
    case Chain => Chain.Constraints(c)
    case BannedWords => BannedWords.Constraints(c)
    case AnswerFilter => AnswerFilter.Constraints(c)
    case TwoLayer => TwoLayer.Constraints(c)
    case ConstraintSpy => ConstraintSpy.Constraints(c)
    case CommonGround => CommonGround.Constraints(c)
    case Liar20Q => Liar20Q.Constraints(c)
    case OneFalseDetail => OneFalseDetail.Constraints(c)
  }

  /** Whether the variant looks the author up (and rejects an unknown one). */
  predicate ChecksAuthor(k: GameKind) {
    k == Alibi || k == TruthConstraint
  }

  /** The variant's message check. `author` is the author as the game knows it. In every
      variant a message is valid exactly when it has no violation; only the alibi and the
      truth-constraint checks reject an unknown author, and the perspective, common-ground
      and one-false-detail checks accept everything. */
  function Validate(k: GameKind, c: AIContent, author: Option<Player>, text: string): (r: Validation)
    ensures r.valid <==> r.violations == []
    ensures author.None? && ChecksAuthor(k) ==> r == Validation(false, ["Player not found"])
    ensures k in {Perspective, CommonGround, OneFalseDetail} ==> r == Validation(true, [])
  {
    match k
    case Alibi => Alibi.Validate(author, text)
    case Perspective => Perspective.Validate(text)
    case TruthConstraint => TruthConstraint.Validate(c, author, text)
    case Chain => Chain.Validate(text)
    case BannedWords => BannedWords.Validate(c, text)
    case AnswerFilter => AnswerFilter.Validate(text)
    case TwoLayer => TwoLayer.Validate(c, text)
    case ConstraintSpy => ConstraintSpy.Validate(c, author, text)
    case CommonGround => CommonGround.Validate(text)
    case Liar20Q => Liar20Q.Validate(text)
    case OneFalseDetail => OneFalseDetail.Validate(text)
  }

  /** Outside the alibi, truth-constraint and constraint-spy variants, the check does not
      depend on who wrote the message. */
  lemma AuthorIrrelevant(k: GameKind, c: AIContent, a: Option<Player>, b: Option<Player>, text: string)
    requires k !in {Alibi, TruthConstraint, ConstraintSpy}
    ensures Validate(k, c, a, text) == Validate(k, c, b, text)
  {
  }
}
