/** The alibi variant: one culprit who may not mention objects and, with four or more
    players, one accomplice who may not mention people. */
module Alibi {
  import opened Text
  import opened Types

  const ObjectPatterns: seq<string> := [
    "cái", "chiếc", "đồ", "vật", "bánh", "túi", "điện thoại", "laptop", "xe", "chai",
    "ly", "cốc", "bút", "sách", "vở", "đồng hồ", "ví", "tiền", "thẻ", "chìa khóa"]

  const PersonPatterns: seq<string> := [
    "ai", "người", "anh", "chị", "em", "ông", "bà", "cô", "chú", "thằng",
    "con", "bạn", "họ", "ta", "mình", "tụi", "nhóm", "đám"]

  /** The culprit's private note: the configured constraint, or the default rule. */
  function CulpritInfo(c: AIContent): (r: string)
    ensures c.culpritConstraint.Some? && c.culpritConstraint.value != "" ==> r == c.culpritConstraint.value
    ensures c.culpritConstraint.None? ==> r == "Không được nhắc đến đồ vật"
  {
    Or(c.culpritConstraint, "Không được nhắc đến đồ vật")
  }

  /** The accomplice's private note: the configured constraint, or the default rule. */
  function AccompliceInfo(c: AIContent): (r: string)
    ensures c.accompliceConstraint.Some? && c.accompliceConstraint.value != "" ==> r == c.accompliceConstraint.value
    ensures c.accompliceConstraint.None? ==> r == "Không được nhắc đến người"
  {
    Or(c.accompliceConstraint, "Không được nhắc đến người")
  }

  /** What role assignment writes into the player at position `i` of `n` shuffled non-hosts,
      as the code is written: nothing below two players; the culprit at position 0; the
      accomplice at position 1 when there are at least four players; a cleared normal player
      from position 2 on. With two or three players, position 1 is left untouched. */
  function SlotAsWritten(c: AIContent, i: nat, n: nat): (r: Option<Slot>)
    requires i < n
    ensures n >= 2 && i == 0 ==> r == Some(Slot(Culprit, Some(CulpritInfo(c))))
    ensures n >= 2 && i == 1 && n < 4 ==> r.None?
  {
    if n < 2 then None
    else if i == 0 then Some(Slot(Culprit, Some(CulpritInfo(c))))
    else if i == 1 then (if n >= 4 then Some(Slot(Accomplice, Some(AccompliceInfo(c)))) else None)
    else Some(Slot(Normal, None))
  }

  /** Role assignment as evidently intended: as written, except that with two or three
      players position 1 becomes a cleared normal player, like every position after the
      special ones. */
  function SlotAt(c: AIContent, i: nat, n: nat): (r: Option<Slot>)
    requires i < n
    ensures n < 2 <==> r.None?
    ensures r.Some? ==> r.value.role == (if i == 0 then Culprit else if i == 1 && n >= 4 then Accomplice else Normal)
    ensures r.Some? && r.value.role == Normal ==> r.value.info.None?
    ensures i != 1 || n >= 4 ==> r == SlotAsWritten(c, i, n)
  {
    if n < 2 then None
    else if i == 0 then Some(Slot(Culprit, Some(CulpritInfo(c))))
    else if i == 1 && n >= 4 then Some(Slot(Accomplice, Some(AccompliceInfo(c))))
    else Some(Slot(Normal, None))
  }

  /** What a non-host player is told. Only the culprit and the accomplice get a private
      constraint; nobody gets a topic. */
  function PlayerInfo(c: AIContent, p: Player): (r: PlayerGameInfo)
    ensures r.topic.None? && |r.hints| == 3
    ensures r.privateConstraint.Some? <==> p.role == Culprit || p.role == Accomplice
  {
    var prompt := Or(c.alibiTemplate, "Tôi ở ___ và thấy ___");
    if p.role == Culprit then
      PlayerGameInfo(prompt, [
        "Bạn là thủ phạm!",
        "Hãy nói alibi mà KHÔNG nhắc đến bất kỳ đồ vật nào.",
        "Cố gắng blend in với người khác."],
        Some(Or(c.culpritConstraint, "Bạn là THỦ PHẠM! Không được nhắc đến đồ vật.")), None)
    else if p.role == Accomplice then
      PlayerGameInfo(prompt, [
        "Bạn là đồng phạm!",
        "Hãy nói alibi mà KHÔNG nhắc đến bất kỳ người nào.",
        "Bảo vệ thủ phạm bằng cách blend in."],
        Some(Or(c.accompliceConstraint, "Bạn là ĐỒNG PHẠM! Không được nhắc đến người.")), None)
    else
      PlayerGameInfo(prompt, [
        "Vụ án: " + Or(c.scenario, "Có vật bị mất"),
        "Quan sát xem ai né từ một cách kỳ lạ.",
        "Thủ phạm sẽ không nhắc đồ vật, đồng phạm không nhắc người."],
        None, None)
  }

  function Secret(c: AIContent): string {
    "Vụ án: " + Or(c.scenario, "Không xác định") + ". Vật bị mất: " + Or(c.stolenItem, "Không xác định")
  }

  function Constraints(c: AIContent): map<Role, string> {
    map[Culprit := Or(c.culpritConstraint, "Không nhắc đồ vật"),
        Accomplice := Or(c.accompliceConstraint, "Không nhắc người"),
        Normal := "Nói bình thường",
        Spy := "",
        Saboteur := ""]
  }

  /** The message check: a culprit may not use an object word and an accomplice may not use
      a person word, each matched as a substring of the lowercased message; there is one
      violation per word found. */
  function Validate(author: Option<Player>, text: string): (r: Validation)
    ensures r.valid <==> r.violations == []
    ensures author.None? ==> r == Validation(false, ["Player not found"])
    ensures author.Some? && author.value.role == Culprit ==>
      |r.violations| == |Found(Lower(text), ObjectPatterns)| &&
      (r.valid <==> forall w :: w in ObjectPatterns ==> !Contains(Lower(text), w))
    ensures author.Some? && author.value.role == Accomplice ==>
      |r.violations| == |Found(Lower(text), PersonPatterns)| &&
      (r.valid <==> forall w :: w in PersonPatterns ==> !Contains(Lower(text), w))
    ensures author.Some? && author.value.role != Culprit && author.value.role != Accomplice ==> r.valid
  {
    if author.None? then Validation(false, ["Player not found"])
    else
      var lower := Lower(text);
      var objects := if author.value.role == Culprit then Quoted("Đã nhắc đến đồ vật: ", Found(lower, ObjectPatterns)) else [];
      var persons := if author.value.role == Accomplice then Quoted("Đã nhắc đến người: ", Found(lower, PersonPatterns)) else [];
      var violations := objects + persons;
      Validation(violations == [], violations)
  }
}
