/** The perspective variant: the same theme seen from two angles; the spy holds the other
    angle. */
module Perspective {
  import opened Text
  import opened Types

  /** The spy's private note names the spy topic, or its default. */
  function SpyInfo(c: AIContent): (r: string)
    ensures Contains(r, Or(c.spyTopic, "Cắm trại"))
  {
    var rest := ". Góc nhìn: " + Or(c.spyPerspective, "Tự túc, ngoài trời");
    ContainsInfix("Từ khóa của bạn: ", Or(c.spyTopic, "Cắm trại"), rest);
    "Từ khóa của bạn: " + Or(c.spyTopic, "Cắm trại") + rest
  }

  /** A normal player's private note names the group topic, or its default. */
  function NormalInfo(c: AIContent): (r: string)
    ensures Contains(r, Or(c.mainTopic, "Du lịch"))
  {
    ContainsEnd("Từ khóa: ", Or(c.mainTopic, "Du lịch"));
    "Từ khóa: " + Or(c.mainTopic, "Du lịch")
  }

  /** The spy's topic is the spy topic and everyone else's the group topic. */
  function PlayerInfo(c: AIContent, p: Player): (r: PlayerGameInfo)
    ensures r.topic == (if p.role == Spy then c.spyTopic else c.mainTopic)
    ensures r.privateConstraint.None?
  {
    var prompt := Or(c.promptTemplate, "Tôi quan tâm nhất là ___");
    if p.role == Spy then
      PlayerGameInfo(prompt, [
        "Bạn là SPY!",
        "Từ khóa của bạn: " + Show(c.spyTopic),
        "Góc nhìn: " + Show(c.spyPerspective),
        "Cố gắng blend in với nhóm!"], None, c.spyTopic)
    else
      PlayerGameInfo(prompt, [
        "Từ khóa: " + Show(c.mainTopic),
        "Góc nhìn nhóm: " + Show(c.mainPerspective),
        "Tìm người có góc nhìn \"lệch hệ\"!"], None, c.mainTopic)
  }

  /** The spy's view of the game does not depend on the group's topic or angle. */
  lemma SpyLearnsNoGroupTopic(c: AIContent, p: Player, topic: Option<string>, angle: Option<string>)
    requires p.role == Spy
    ensures PlayerInfo(c, p) == PlayerInfo(c.(mainTopic := topic, mainPerspective := angle), p)
    ensures SpyInfo(c) == SpyInfo(c.(mainTopic := topic, mainPerspective := angle))
  {
  }

  function Secret(c: AIContent): string {
    "Nhóm: \"" + Show(c.mainTopic) + "\" (" + Show(c.mainPerspective) + "). Spy: \""
      + Show(c.spyTopic) + "\" (" + Show(c.spyPerspective) + ")"
  }

  function Constraints(c: AIContent): map<Role, string> {
    map[Normal := "Từ khóa: " + Show(c.mainTopic), Spy := "Từ khóa: " + Show(c.spyTopic),
        Culprit := "", Accomplice := "", Saboteur := ""]
  }

  /** Every message is accepted. */
  function Validate(text: string): (r: Validation)
    ensures r.valid && r.violations == []
  {
    Validation(true, [])
  }
}
