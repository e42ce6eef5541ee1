/** The constraint-spy variant: the group follows a secret language rule the spy does not
    know. */
module ConstraintSpy {
  import opened Text
  import opened Types

  const SpyInfo: string := "Bạn là SPY! Bạn không biết luật ràng buộc. Cố gắng nói tự nhiên!"

  /** A normal player's private note states the rule, or its default. */
  function NormalInfo(c: AIContent): (r: string)
    ensures Contains(r, Or(c.constraintRule, "Câu phải có điều kiện đặc biệt"))
  {
    ContainsEnd("Luật: ", Or(c.constraintRule, "Câu phải có điều kiện đặc biệt"));
    "Luật: " + Or(c.constraintRule, "Câu phải có điều kiện đặc biệt")
  }

  /** Everyone is told the topic; only a normal player is given the rule. */
  function PlayerInfo(c: AIContent, p: Player): (r: PlayerGameInfo)
    ensures r.topic == c.topic && |r.hints| == 4
    ensures r.privateConstraint == (if p.role == Spy then None else c.constraintRule)
  {
    var prompt := Or(c.promptTemplate, "Nói 1 câu về chủ đề");
    if p.role == Spy then
      PlayerGameInfo(prompt, [
        "Bạn là SPY!",
        "Chủ đề: " + Show(c.topic),
        "Bạn KHÔNG biết luật ràng buộc",
        "Nói tự nhiên và quan sát người khác!"], None, c.topic)
    else
      PlayerGameInfo(prompt, [
        "Chủ đề: " + Show(c.topic),
        "Luật BẮT BUỘC: " + Show(c.constraintRule),
        Or(c.ruleExplanation, ""),
        "Ai không tuân thủ luật là SPY!"], c.constraintRule, c.topic)
  }

  /** The spy's view of the game does not depend on the rule or its explanation. */
  lemma SpyLearnsNoRule(c: AIContent, p: Player, rule: Option<string>, explanation: Option<string>)
    requires p.role == Spy
    ensures PlayerInfo(c, p) == PlayerInfo(c.(constraintRule := rule, ruleExplanation := explanation), p)
  {
  }

  function Secret(c: AIContent): string {
    "Chủ đề: " + Show(c.topic) + ". Luật: " + Show(c.constraintRule) + ". Spy không biết luật."
  }

  function Constraints(c: AIContent): map<Role, string> {
    map[Normal := "Tuân thủ luật: " + Show(c.constraintRule), Spy := "Không biết luật ràng buộc",
        Culprit := "", Accomplice := "", Saboteur := "", Liar := ""]
  }

  const TimeWords: seq<string> := ["hôm nay", "mai", "hôm qua", "lúc", "khi", "sáng", "tối", "chiều"]
  const CompareWords: seq<string> := ["như", "hơn", "giống", "tương tự", "khác", "nhất"]
  const ContrastWords: seq<string> := ["mặc dù", "nhưng", "tuy nhiên", "song", "còn"]

  /** The lowercased rule text, empty when there is no rule. */
  function RuleText(c: AIContent): string {
    if c.constraintRule.Some? then Lower(c.constraintRule.value) else ""
  }

  predicate AsksTime(rule: string) { Contains(rule, "thời gian") }
  predicate AsksComparison(rule: string) { Contains(rule, "so sánh") }
  predicate AsksContrast(rule: string) { Contains(rule, "đối lập") || Contains(rule, "mặc dù") }

  /** An unknown author and the spy are always valid. For anyone else each kind of rule the
      rule text names (time, comparison, contrast) demands one of its words in the
      lowercased message, with one violation per kind unmet. */
  function Validate(c: AIContent, author: Option<Player>, text: string): (r: Validation)
    ensures r.valid <==> r.violations == []
    ensures author.None? || author.value.role == Spy ==> r == Validation(true, [])
    ensures author.Some? && author.value.role != Spy ==>
      (r.valid <==>
        (AsksTime(RuleText(c)) ==> SomeFound(Lower(text), TimeWords)) &&
        (AsksComparison(RuleText(c)) ==> SomeFound(Lower(text), CompareWords)) &&
        (AsksContrast(RuleText(c)) ==> SomeFound(Lower(text), ContrastWords)))
    ensures |r.violations| <= 3
    ensures !AsksTime(RuleText(c)) && !AsksComparison(RuleText(c)) && !AsksContrast(RuleText(c)) ==> r.valid
  {
    if author.None? || author.value.role == Spy then Validation(true, [])
    else
      var rule := RuleText(c);
      var lower := Lower(text);
      var time := if AsksTime(rule) && !SomeFound(lower, TimeWords) then ["Câu phải có từ chỉ thời gian"] else [];
      var compare := if AsksComparison(rule) && !SomeFound(lower, CompareWords) then ["Câu phải có từ so sánh"] else [];
      var contrast := if AsksContrast(rule) && !SomeFound(lower, ContrastWords) then ["Câu phải có ý đối lập"] else [];
      var violations := time + compare + contrast;
      Validation(violations == [], violations)
  }
}
