/** The chain variant: each message is a cause-and-effect chain about a topic the spy does
    not know. */
module Chain {
  import opened Text
  import opened Types

  const SpyInfo: string := "Bạn KHÔNG biết chủ đề. Cố gắng nói logic chung chung!"

  /** A normal player's private note names the topic. */
  function NormalInfo(c: AIContent): (r: string)
    ensures Contains(r, Show(c.topic))
  {
    var rest := ". " + Show(c.topicDescription);
    ContainsInfix("Chủ đề: ", Show(c.topic), rest);
    "Chủ đề: " + Show(c.topic) + rest
  }

  /** The spy gets no topic; a normal player gets the topic and, when key logic points are
      configured, one extra hint listing them. */
  function PlayerInfo(c: AIContent, p: Player): (r: PlayerGameInfo)
    ensures r.privateConstraint.None?
    ensures p.role == Spy ==> r.topic.None? && |r.hints| == 4
    ensures p.role != Spy ==> r.topic == c.topic && |r.hints| == (if c.keyLogicPoints.Some? then 5 else 4)
  {
    var prompt := Or(c.promptTemplate, "Vì ___ nên ___, dẫn đến ___");
    if p.role == Spy then
      PlayerGameInfo(prompt, [
        "Bạn là SPY!",
        "Bạn KHÔNG biết chủ đề.",
        "Nói câu logic theo format nhưng đừng quá cụ thể.",
        "Cố blend in với chuỗi logic của nhóm!"], None, None)
    else
      var hints := [
        "📌 Chủ đề: " + Show(c.topic),
        Show(c.topicDescription),
        "Nói chuỗi logic liên quan đến chủ đề.",
        "Tìm người nói mơ hồ hoặc đứt mạch logic!"];
      var extra := if c.keyLogicPoints.Some? then ["💡 Điểm logic: " + Join(c.keyLogicPoints.value, ", ")] else [];
      PlayerGameInfo(prompt, hints + extra, None, c.topic)
  }

  /** The spy's view of the game does not depend on the topic, its description or its key
      points. */
  lemma SpyLearnsNoTopic(c: AIContent, p: Player, topic: Option<string>, description: Option<string>, points: Option<seq<string>>)
    requires p.role == Spy
    ensures PlayerInfo(c, p) == PlayerInfo(c.(topic := topic, topicDescription := description, keyLogicPoints := points), p)
  {
  }

  function Secret(c: AIContent): string {
    "Chủ đề: " + Show(c.topic) + ". " + Show(c.topicDescription)
  }

  function Constraints(c: AIContent): map<Role, string> {
    map[Normal := "Biết chủ đề: " + Show(c.topic), Spy := "Không biết chủ đề",
        Culprit := "", Accomplice := "", Saboteur := "", Liar := ""]
  }

  /** The chain format: a cause marker (`vì` or `Vì`) and an effect marker (`nên`,
      `dẫn đến` or `làm cho`), matched case-sensitively. */
  predicate ChainFormat(text: string) {
    (Contains(text, "vì") || Contains(text, "Vì"))
      && (Contains(text, "nên") || Contains(text, "dẫn đến") || Contains(text, "làm cho"))
  }

  /** Valid exactly when the message has the chain format, whoever wrote it; at most one
      violation. */
  function Validate(text: string): (r: Validation)
    ensures r.valid <==> r.violations == []
    ensures r.valid <==> ChainFormat(text)
    ensures |r.violations| <= 1
  {
    if ChainFormat(text) then Validation(true, [])
    else Validation(false, ["Câu chưa theo format chuỗi logic (Vì... nên... dẫn đến...)"])
  }
}
