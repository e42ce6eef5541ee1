/** The twenty-questions variant: players ask yes/no questions about a secret item, and one
    liar must lie exactly once. */
module Liar20Q {
  import opened Text
  import opened Types

  /** The liar's private note names the secret item, or its default. */
  function LiarInfo(c: AIContent): (r: string)
    ensures Contains(r, Or(c.mysteryItem, "Không rõ"))
  {
    ContainsEnd("Bạn là KẺ DỐI! " + Or(c.liarInstruction, "Phải dối đúng 1 lần trong game") + ". Vật bí mật: ",
      Or(c.mysteryItem, "Không rõ"));
    "Bạn là KẺ DỐI! " + Or(c.liarInstruction, "Phải dối đúng 1 lần trong game") + ". Vật bí mật: "
      + Or(c.mysteryItem, "Không rõ")
  }

  /** A normal player's private note names the secret item, or its default. */
  function NormalInfo(c: AIContent): (r: string)
    ensures Contains(r, Or(c.mysteryItem, "Không rõ"))
  {
    ContainsEnd("Vật bí mật: ", Or(c.mysteryItem, "Không rõ"));
    "Vật bí mật: " + Or(c.mysteryItem, "Không rõ")
  }

  /** The liar gets no topic; a normal player's topic is the secret item. */
  function PlayerInfo(c: AIContent, p: Player): (r: PlayerGameInfo)
    ensures r.topic == (if p.role == Liar then None else c.mysteryItem)
    ensures r.privateConstraint.None? && |r.hints| == 4
  {
    var prompt := Or(c.promptTemplate, "Hỏi câu Yes/No để đoán vật");
    if p.role == Liar then
      PlayerGameInfo(prompt, [
        "Bạn là KẺ DỐI!",
        "Vật bí mật: " + Show(c.mysteryItem),
        Or(c.liarInstruction, "Phải dối đúng 1 lần"),
        "Đừng để lộ mình là kẻ dối!"], None, None)
    else
      PlayerGameInfo(prompt, [
        "Vật bí mật: " + Show(c.mysteryItem),
        "Hỏi câu Yes/No để thu hẹp phạm vi",
        "Tìm mâu thuẫn trong câu trả lời!",
        "Có 1 người sẽ dối 1 lần"], None, c.mysteryItem)
  }

  function Secret(c: AIContent): string {
    "Vật bí mật: " + Show(c.mysteryItem) + ". " + Or(c.itemDescription, "")
  }

  function Constraints(c: AIContent): map<Role, string> {
    map[Normal := "Trả lời trung thực", Liar := "Phải dối đúng 1 lần",
        Spy := "", Culprit := "", Accomplice := "", Saboteur := ""]
  }

  /** A yes/no question: it has a question mark, or its lowercase form starts with `có`,
      `là` or `phải`. */
  predicate YesNoQuestion(text: string) {
    Contains(text, "?") || IsPrefix("có", Lower(text)) || IsPrefix("là", Lower(text)) || IsPrefix("phải", Lower(text))
  }

  /** Valid exactly for a yes/no question, whoever wrote it; at most one violation. */
  function Validate(text: string): (r: Validation)
    ensures r.valid <==> r.violations == []
    ensures r.valid <==> YesNoQuestion(text)
    ensures |r.violations| <= 1
  {
    if YesNoQuestion(text) then Validation(true, []) else Validation(false, ["Phải là câu hỏi Yes/No"])
  }
}
