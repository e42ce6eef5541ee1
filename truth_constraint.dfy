/** The truth-constraint variant: the group shares a secret fact the spy does not know. */
module TruthConstraint {
  import opened Text
  import opened Types

  /** The spy's private note names the topic but not the fact. */
  function SpyInfo(c: AIContent): (r: string)
    ensures Contains(r, Show(c.topic))
  {
    var rest := ". Bạn KHÔNG biết fact bí mật!";
    ContainsInfix("Chủ đề: ", Show(c.topic), rest);
    "Chủ đề: " + Show(c.topic) + rest
  }

  /** A normal player's private note carries the secret fact. */
  function NormalInfo(c: AIContent): (r: string)
    ensures Contains(r, Show(c.secretFact))
  {
    ContainsEnd("Fact bí mật: ", Show(c.secretFact));
    "Fact bí mật: " + Show(c.secretFact)
  }

  /** Everyone is told the topic; only a normal player is given the fact as private
      constraint. */
  function PlayerInfo(c: AIContent, p: Player): (r: PlayerGameInfo)
    ensures r.topic == c.topic && |r.hints| == 4
    ensures r.privateConstraint == (if p.role == Spy then None else c.secretFact)
  {
    var prompt := Or(c.promptTemplate, "Mô tả ___ bằng 1 câu");
    if p.role == Spy then
      PlayerGameInfo(prompt, [
        "Bạn là SPY!",
        "Chủ đề: " + Show(c.topic),
        "Bạn KHÔNG biết fact bí mật của nhóm.",
        "Cố gắng nói chung chung để không lộ!"], None, c.topic)
    else
      PlayerGameInfo(prompt, [
        "Chủ đề: " + Show(c.topic),
        "🔒 Fact bí mật: " + Show(c.secretFact),
        Show(c.factExplanation),
        "Tìm người nói mâu thuẫn với fact!"], c.secretFact, c.topic)
  }

  /** The spy's view of the game does not depend on the fact or its explanation. */
  lemma SpyLearnsNoFact(c: AIContent, p: Player, fact: Option<string>, explanation: Option<string>)
    requires p.role == Spy
    ensures PlayerInfo(c, p) == PlayerInfo(c.(secretFact := fact, factExplanation := explanation), p)
    ensures SpyInfo(c) == SpyInfo(c.(secretFact := fact, factExplanation := explanation))
  {
  }

  function Secret(c: AIContent): string {
    "Chủ đề: " + Show(c.topic) + ". Fact bí mật: " + Show(c.secretFact)
  }

  function Constraints(c: AIContent): map<Role, string> {
    map[Normal := "Biết fact: " + Show(c.secretFact), Spy := "Không biết fact bí mật",
        Culprit := "", Accomplice := "", Saboteur := ""]
  }

  /** An unknown author is rejected; the spy gets one violation per forbidden word found in
      the message, case-insensitively; anyone else is always valid. */
  function Validate(c: AIContent, author: Option<Player>, text: string): (r: Validation)
    ensures r.valid <==> r.violations == []
    ensures author.None? ==> r == Validation(false, ["Player not found"])
    ensures author.Some? && author.value.role != Spy ==> r.valid
    ensures author.Some? && author.value.role == Spy ==>
      |r.violations| == (if c.forbiddenWords.Some? then |FoundFolded(Lower(text), c.forbiddenWords.value)| else 0) &&
      (r.valid <==> (c.forbiddenWords.Some? ==> forall w :: w in c.forbiddenWords.value ==> !Contains(Lower(text), Lower(w))))
  {
    if author.None? then Validation(false, ["Player not found"])
    else
      var violations := if author.value.role == Spy && c.forbiddenWords.Some?
        then Quoted("Đã dùng từ vi phạm fact: ", FoundFolded(Lower(text), c.forbiddenWords.value)) else [];
      Validation(violations == [], violations)
  }
}
