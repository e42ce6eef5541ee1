/** `createGame`: build the game object of a variant around its content. Only six of the
    eleven variants can be built; the others are refused with an error. */
module Factory {
  import opened Types
  import Base

  /** The variants the factory knows. */
  predicate Supported(k: GameKind) {
    match k
    case Alibi | Perspective | TruthConstraint | Chain | BannedWords | AnswerFilter => true
    case _ => false
  }

  /** The error thrown for a variant the factory does not know. */
  function UnknownKind(k: GameKind): string {
    "Unknown game type: " + KindName(k)
  }

  /** A supported variant gives a fresh game of that variant holding the content as given, at
      round 1 and turn 0 with an empty log and no players; any other variant gives the error
      and builds nothing. */
  method CreateGame(k: GameKind, c: AIContent) returns (r: Result<Base.Game>)
    ensures r.Ok? <==> Supported(k)
    ensures r.Ok? ==>
      fresh(r.value) && r.value.kind == k && r.value.content == c && r.value.roster == [] &&
      r.value.State() == GameState(k, 1, 0, [])
    ensures r.Err? ==> r.error == UnknownKind(k)
  {
    if !Supported(k) {
      return Err(UnknownKind(k));
    }
    var g := new Base.Game(k, c);
    r := Ok(g);
  }

  /** The five variants outside the factory: two-layer, constraint-spy, common-ground,
      liar-20q and one-false-detail. A room may select them, but starting its game fails. */
  lemma UnsupportedKinds(k: GameKind)
    ensures !Supported(k) <==> k in {TwoLayer, ConstraintSpy, CommonGround, Liar20Q, OneFalseDetail}
  {
  }

  /** The message of an unsupported variant names it by its wire name, which reads back as
      that variant. */
  lemma UnknownKindNamesIt(k: GameKind)
    ensures UnknownKind(k)[|"Unknown game type: "|..] == KindName(k)
    ensures ParseKind(UnknownKind(k)[|"Unknown game type: "|..]) == Some(k)
  {
    KindNameRoundTrip(k);
  }
}
