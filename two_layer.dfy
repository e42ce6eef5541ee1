/** The two-layer variant: each normal player describes a level on a scale without saying
    the number; the spy holds an off-scale level. */
module TwoLayer {
  import opened Text
  import opened Types

  /** `n || fallback` for an optional number: absent or zero gives the fallback. */
  function OrNumber(o: Option<int>, fallback: int): (r: int)
    ensures o.Some? && o.value != 0 ==> r == o.value
    ensures o.None? || o.value == 0 ==> r == fallback
  {
    if o.Some? && o.value != 0 then o.value else fallback
  }

  /** `${n}` for an optional number */
  function ShowNumber(o: Option<int>): string {
    if o.Some? then IntToString(o.value) else "undefined"
  }

  function ShowLevel(o: Option<SpyLevel>): string {
    match o
    case None => "undefined"
    case Some(LevelNumber(n)) => IntToString(n)
    case Some(LevelText(t)) => t
  }

  /** `spyLevel || fallback`: an absent level, the number 0 and the empty text give the
      fallback. */
  function OrLevel(o: Option<SpyLevel>, fallback: string): string {
    match o
    case None => fallback
    case Some(LevelNumber(n)) => if n == 0 then fallback else IntToString(n)
    case Some(LevelText(t)) => if t == "" then fallback else t
  }

  function ScaleMin(c: AIContent): int { OrNumber(c.scaleMin, 1) }
  function ScaleMax(c: AIContent): int { OrNumber(c.scaleMax, 5) }

  /** The levels from the lower to the upper bound of the scale, in order; none when the
      bounds are reversed. */
  function AvailableLevels(c: AIContent): (r: seq<int>)
    ensures |r| == if ScaleMax(c) < ScaleMin(c) then 0 else ScaleMax(c) - ScaleMin(c) + 1
    ensures forall k :: 0 <= k < |r| ==> r[k] == ScaleMin(c) + k
  {
    var n := if ScaleMax(c) < ScaleMin(c) then 0 else ScaleMax(c) - ScaleMin(c) + 1;
    seq(n, k requires 0 <= k < n => ScaleMin(c) + k)
  }

  /** The level dealt to a normal player for the random draw `draw`: a level of the scale,
      or none when the scale is empty. */
  function PickLevel(c: AIContent, draw: nat): (r: Option<int>)
    ensures r.Some? ==> ScaleMin(c) <= r.value <= ScaleMax(c)
    ensures r.None? <==> ScaleMax(c) < ScaleMin(c)
  {
    var levels := AvailableLevels(c);
    if |levels| == 0 then None else Some(levels[draw % |levels|])
  }

  /** Every level of the scale is dealt for some draw. */
  lemma EveryLevelCanBeDealt(c: AIContent, level: int)
    requires ScaleMin(c) <= level <= ScaleMax(c)
    ensures PickLevel(c, level - ScaleMin(c)) == Some(level)
  {
    var levels := AvailableLevels(c);
    var k := level - ScaleMin(c);
    assert 0 <= k < |levels|;
    assert k % |levels| == k;
    assert levels[k] == level;
  }

  function FindScaleValue(values: seq<ScaleValue>, level: Option<int>): (r: Option<ScaleValue>)
    ensures r.Some? ==> r.value in values && Some(r.value.level) == level
  {
    if values == [] then None
    else if Some(values[0].level) == level then Some(values[0])
    else FindScaleValue(values[1..], level)
  }

  /** The description of a level: the configured one when non-empty, else `Mức <level>`. */
  function Describe(c: AIContent, level: Option<int>): string {
    var found := if c.scaleValues.Some? then FindScaleValue(c.scaleValues.value, level) else None;
    if found.Some? && found.value.description != "" then found.value.description
    else "Mức " + ShowNumber(level)
  }

  /** The spy's private note names the spy level, or its default. */
  function SpyInfo(c: AIContent): (r: string)
    ensures Contains(r, OrLevel(c.spyLevel, "Không có mức"))
  {
    ContainsInfix("Bạn là SPY! Mức của bạn: ", OrLevel(c.spyLevel, "Không có mức"), " (lạc thang)");
    "Bạn là SPY! Mức của bạn: " + OrLevel(c.spyLevel, "Không có mức") + " (lạc thang)"
  }

  /** A normal player's private note names the level it was dealt. */
  function NormalInfo(c: AIContent, level: Option<int>): (r: string)
    ensures Contains(r, ShowNumber(level))
  {
    var rest := " - " + Describe(c, level);
    ContainsInfix("Mức của bạn: ", ShowNumber(level), rest);
    "Mức của bạn: " + ShowNumber(level) + rest
  }

  /** The spy gets no topic; a normal player gets the topic. Both are reminded of their own
      private note. */
  function PlayerInfo(c: AIContent, p: Player): (r: PlayerGameInfo)
    ensures r.topic == (if p.role == Spy then None else c.topic)
    ensures r.privateConstraint.None?
    ensures Show(p.privateInfo) in r.hints
  {
    var prompt := Or(c.promptTemplate, "Mô tả mức độ của bạn bằng 1 câu (không nói số)");
    if p.role == Spy then
      PlayerGameInfo(prompt, [
        "Bạn là SPY!",
        Show(p.privateInfo),
        "Cố gắng mô tả sao cho giống nhóm nhưng đừng quá rõ ràng!"], None, None)
    else
      PlayerGameInfo(prompt, [
        "Chủ đề: " + Show(c.topic),
        Show(p.privateInfo),
        "Mô tả đúng mức của bạn, không nói số!",
        "Tìm người mô tả \"lệch hệ\"!"], None, c.topic)
  }

  function Secret(c: AIContent): string {
    "Chủ đề: " + Show(c.topic) + ". Thang: " + ShowNumber(c.scaleMin) + "-" + ShowNumber(c.scaleMax)
      + ". Spy: " + ShowLevel(c.spyLevel)
  }

  function Constraints(c: AIContent): map<Role, string> {
    map[Normal := "Mô tả đúng mức của mình", Spy := "Mức lạc thang - cố blend in",
        Culprit := "", Accomplice := "", Saboteur := "", Liar := ""]
  }

  /** The levels `from..to` that the message says as a standalone number, in order. */
  function MentionedLevels(text: string, from: int, to: int): (r: seq<int>)
    ensures forall k :: k in r <==> (from <= k <= to && StandaloneOccurs(text, IntToString(k)))
    decreases if to < from then 0 else to - from + 1
  {
    if to < from then []
    else
      var rest := MentionedLevels(text, from + 1, to);
      var r := if StandaloneOccurs(text, IntToString(from)) then [from] + rest else rest;
      assert forall k :: k in r <==> (k == from && StandaloneOccurs(text, IntToString(from))) || k in rest;
      r
  }

  /** One violation for each level of the scale the message says as a standalone number,
      whoever wrote it. */
  function Validate(c: AIContent, text: string): (r: Validation)
    ensures r.valid <==> r.violations == []
    ensures |r.violations| == |MentionedLevels(text, ScaleMin(c), ScaleMax(c))|
    ensures r.valid <==> forall k :: ScaleMin(c) <= k <= ScaleMax(c) ==> !StandaloneOccurs(text, IntToString(k))
  {
    var said := MentionedLevels(text, ScaleMin(c), ScaleMax(c));
    var violations := seq(|said|, i requires 0 <= i < |said| => "Không được nói số mức (" + IntToString(said[i]) + ")");
    assert said != [] ==> said[0] in said;
    Validation(violations == [], violations)
  }
}
