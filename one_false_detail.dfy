/** The one-false-detail variant: everyone describes the same thing; the spy must get
    exactly one detail wrong. */
module OneFalseDetail {
  import opened Text
  import opened Types

  /** The spy's private note carries the true description, or its default. */
  function SpyInfo(c: AIContent): (r: string)
    ensures Contains(r, Or(c.truthDescription, "Mô tả chung"))
  {
    var rest := ". Bạn phải SAI đúng 1 chi tiết!";
    ContainsInfix("Bạn là SPY! Mô tả: ", Or(c.truthDescription, "Mô tả chung"), rest);
    "Bạn là SPY! Mô tả: " + Or(c.truthDescription, "Mô tả chung") + rest
  }

  /** A normal player's private note carries the true description, or its default. */
  function NormalInfo(c: AIContent): (r: string)
    ensures Contains(r, Or(c.truthDescription, "Mô tả chung"))
  {
    ContainsEnd("Mô tả: ", Or(c.truthDescription, "Mô tả chung"));
    "Mô tả: " + Or(c.truthDescription, "Mô tả chung")
  }

  /** The spy gets no topic but a list of the kinds of detail it may falsify (the configured
      categories, or a default list); a normal player gets the topic. */
  function PlayerInfo(c: AIContent, p: Player): (r: PlayerGameInfo)
    ensures r.topic == (if p.role == Spy then None else c.topic)
    ensures r.privateConstraint.None? && |r.hints| == 4
    ensures p.role == Spy ==> r.hints[3] == "Các loại chi tiết: " + OrJoin(c.detailCategories, ", ", "màu, số, thời gian, vị trí")
  {
    var prompt := Or(c.promptTemplate, "Mô tả địa điểm/vật bằng 1 câu");
    if p.role == Spy then
      PlayerGameInfo(prompt, [
        "Bạn là SPY!",
        "Mô tả chung: " + Show(c.truthDescription),
        "BẮT BUỘC: Sai đúng 1 chi tiết (màu sắc, số lượng, thời gian, vị trí, v.v.)",
        "Các loại chi tiết: " + OrJoin(c.detailCategories, ", ", "màu, số, thời gian, vị trí")], None, None)
    else
      PlayerGameInfo(prompt, [
        "Chủ đề: " + Show(c.topic),
        "Mô tả đúng: " + Show(c.truthDescription),
        "Mô tả chính xác các chi tiết!",
        "Tìm người có 1 chi tiết sai!"], None, c.topic)
  }

  function Secret(c: AIContent): string {
    "Mô tả đúng: " + Show(c.truthDescription) + ". Spy phải sai 1 chi tiết."
  }

  function Constraints(c: AIContent): map<Role, string> {
    map[Normal := "Mô tả chính xác", Spy := "Sai đúng 1 chi tiết",
        Culprit := "", Accomplice := "", Saboteur := "", Liar := ""]
  }

  /** Every message is accepted. */
  function Validate(text: string): (r: Validation)
    ensures r.valid && r.violations == []
  {
    Validation(true, [])
  }
}
