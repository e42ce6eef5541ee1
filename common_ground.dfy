/** The common-ground variant: everyone claims to belong to one of two shared groups; the
    spy has a different trait. */
module CommonGround {
  import opened Text
  import opened Types

  /** The spy's private note names the spy trait, or its default. */
  function SpyInfo(c: AIContent): (r: string)
    ensures Contains(r, Or(c.spyTrait, "Đặc điểm khác"))
  {
    var rest := ". Cố nói không thuộc cả hai nhóm nhưng giống họ!";
    ContainsInfix("Bạn là SPY! Đặc điểm của bạn: ", Or(c.spyTrait, "Đặc điểm khác"), rest);
    "Bạn là SPY! Đặc điểm của bạn: " + Or(c.spyTrait, "Đặc điểm khác") + rest
  }

  /** A normal player's private note lists the shared traits joined by ` hoặc `, or the
      default text. */
  function NormalInfo(c: AIContent): (r: string)
    ensures Contains(r, OrJoin(c.commonTraits, " hoặc ", "Nhóm A hoặc B"))
  {
    ContainsEnd("Bạn thuộc: ", OrJoin(c.commonTraits, " hoặc ", "Nhóm A hoặc B"));
    "Bạn thuộc: " + OrJoin(c.commonTraits, " hoặc ", "Nhóm A hoặc B")
  }

  /** The spy gets no topic; a normal player gets the topic and is reminded of its traits. */
  function PlayerInfo(c: AIContent, p: Player): (r: PlayerGameInfo)
    ensures r.topic == (if p.role == Spy then None else c.topic)
    ensures r.privateConstraint.None? && |r.hints| == 4
  {
    var prompt := Or(c.promptTemplate, "Tôi thuộc nhóm ___ hoặc ___");
    if p.role == Spy then
      PlayerGameInfo(prompt, [
        "Bạn là SPY!",
        "Đặc điểm của bạn: " + Show(c.spyTrait),
        "Bạn KHÔNG thuộc các nhóm chung",
        "Cố gắng nói sao cho không bị phát hiện!"], None, None)
    else
      PlayerGameInfo(prompt, [
        "Chủ đề: " + Show(c.topic),
        Show(p.privateInfo),
        "Nói theo format: \"Tôi thuộc nhóm A hoặc B\"",
        "Tìm người \"không khớp\" với đa số!"], None, c.topic)
  }

  /** The spy's view of the game does not depend on the shared traits or the topic. */
  lemma SpyLearnsNoTraits(c: AIContent, p: Player, traits: Option<seq<string>>, topic: Option<string>)
    requires p.role == Spy
    ensures PlayerInfo(c, p) == PlayerInfo(c.(commonTraits := traits, topic := topic), p)
    ensures SpyInfo(c) == SpyInfo(c.(commonTraits := traits, topic := topic))
  {
  }

  function Secret(c: AIContent): string {
    "Chủ đề: " + Show(c.topic) + ". Nhóm: " + ShowJoin(c.commonTraits, ", ") + ". Spy: " + Show(c.spyTrait)
  }

  function Constraints(c: AIContent): map<Role, string> {
    map[Normal := "Thuộc: " + ShowJoin(c.commonTraits, " hoặc "), Spy := "Đặc điểm: " + Show(c.spyTrait),
        Culprit := "", Accomplice := "", Saboteur := "", Liar := ""]
  }

  /** Every message is accepted. */
  function Validate(text: string): (r: Validation)
    ensures r.valid && r.violations == []
  {
    Validation(true, [])
  }
}
