/** The banned-words variant: everyone describes a keyword under a list of banned words and
    one required word; the spy holds a different keyword. */
module BannedWords {
  import opened Text
  import opened Types

  /** The spy's private note names the spy keyword. */
  function SpyInfo(c: AIContent): (r: string)
    ensures Contains(r, Show(c.spyKeyword))
  {
    var rest := ". Từ cấm: " + ShowJoin(c.bannedWords, ", ") + ". Từ bắt buộc: " + Show(c.requiredWord);
    ContainsInfix("Từ khóa của bạn: ", Show(c.spyKeyword), rest);
    "Từ khóa của bạn: " + Show(c.spyKeyword) + rest
  }

  /** A normal player's private note names the group keyword. */
  function NormalInfo(c: AIContent): (r: string)
    ensures Contains(r, Show(c.mainKeyword))
  {
    var rest := ". Từ cấm: " + ShowJoin(c.bannedWords, ", ") + ". Từ bắt buộc: " + Show(c.requiredWord);
    ContainsInfix("Từ khóa: ", Show(c.mainKeyword), rest);
    "Từ khóa: " + Show(c.mainKeyword) + rest
  }

  /** The spy's topic is the spy keyword and everyone else's the group keyword; both see
      the banned and the required words. */
  function PlayerInfo(c: AIContent, p: Player): (r: PlayerGameInfo)
    ensures r.topic == (if p.role == Spy then c.spyKeyword else c.mainKeyword)
    ensures r.privateConstraint.None?
    ensures |r.hints| >= 4 && r.hints[1] == "🚫 Từ CẤM: " + OrJoin(c.bannedWords, ", ", "")
  {
    var common := [
      "🚫 Từ CẤM: " + OrJoin(c.bannedWords, ", ", ""),
      "✅ Từ BẮT BUỘC phải có: " + Or(c.requiredWord, "")];
    var prompt := Or(c.promptTemplate, "Mô tả ___ bằng 1 câu");
    if p.role == Spy then
      PlayerGameInfo(prompt,
        ["Bạn là SPY!"] + common + ["Từ khóa của bạn: " + Show(c.spyKeyword), "Cố gắng không lộ từ khóa khác biệt!"],
        None, c.spyKeyword)
    else
      PlayerGameInfo(prompt,
        ["Từ khóa: " + Show(c.mainKeyword)] + common + ["Tìm người có từ khóa khác hoặc né từ cấm gượng gạo!"],
        None, c.mainKeyword)
  }

  function Secret(c: AIContent): string {
    "Nhóm: \"" + Show(c.mainKeyword) + "\". Spy: \"" + Show(c.spyKeyword) + "\". Cấm: "
      + ShowJoin(c.bannedWords, ", ") + ". Bắt buộc: " + Show(c.requiredWord)
  }

  function Constraints(c: AIContent): map<Role, string> {
    map[Normal := "Từ khóa: " + Show(c.mainKeyword), Spy := "Từ khóa: " + Show(c.spyKeyword),
        Culprit := "", Accomplice := "", Saboteur := "", Liar := ""]
  }

  /** The required word, when one is set (an empty one counts as none). */
  predicate Requires(c: AIContent) {
    c.requiredWord.Some? && c.requiredWord.value != ""
  }

  /** One violation per banned word found in the message, case-insensitively, then one more
      when a required word is set and missing; the author's role plays no part. */
  function Validate(c: AIContent, text: string): (r: Validation)
    ensures r.valid <==> r.violations == []
    ensures |r.violations| ==
      (if c.bannedWords.Some? then |FoundFolded(Lower(text), c.bannedWords.value)| else 0)
      + (if Requires(c) && !Contains(Lower(text), Lower(c.requiredWord.value)) then 1 else 0)
    ensures r.valid <==>
      (c.bannedWords.Some? ==> forall w :: w in c.bannedWords.value ==> !Contains(Lower(text), Lower(w))) &&
      (Requires(c) ==> Contains(Lower(text), Lower(c.requiredWord.value)))
  {
    var lower := Lower(text);
    var banned := if c.bannedWords.Some? then Quoted("Đã dùng từ CẤM: ", FoundFolded(lower, c.bannedWords.value)) else [];
    var missing := if Requires(c) && !Contains(lower, Lower(c.requiredWord.value))
      then ["Thiếu từ BẮT BUỘC: \"" + c.requiredWord.value + "\""] else [];
    var violations := banned + missing;
    Validation(violations == [], violations)
  }
}
