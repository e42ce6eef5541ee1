/** The answer-filter variant: players ask yes/no questions, the host answers by a secret
    rule, and one saboteur muddies the search. */
module AnswerFilter {
  import opened Text
  import opened Types

  function SaboteurInfo(c: AIContent): (r: string)
    ensures Contains(r, Or(c.saboteurHint, "Đưa câu hỏi gây nhiễu nhưng đừng lộ."))
  {
    ContainsEnd("Bạn là KẺ PHÁ! ", Or(c.saboteurHint, "Đưa câu hỏi gây nhiễu nhưng đừng lộ."));
    "Bạn là KẺ PHÁ! " + Or(c.saboteurHint, "Đưa câu hỏi gây nhiễu nhưng đừng lộ.")
  }

  const NormalInfo: string := "Hãy đặt câu hỏi Yes/No để tìm ra quy luật filter!"

  /** Every non-host is told the topic; the saboteur additionally gets the saboteur hint. */
  function PlayerInfo(c: AIContent, p: Player): (r: PlayerGameInfo)
    ensures r.topic == c.topic && r.privateConstraint.None?
    ensures p.role == Saboteur <==> |r.hints| == 4
  {
    var topicLine := "Chủ đề: " + Show(c.topic);
    if p.role == Saboteur then
      PlayerGameInfo("Đặt câu hỏi Yes/No về chủ đề", [
        "Bạn là KẺ PHÁ!",
        topicLine,
        Or(c.saboteurHint, "Đưa câu hỏi gây nhiễu."),
        "Đừng để bị phát hiện!"], None, c.topic)
    else
      PlayerGameInfo("Đặt câu hỏi Yes/No về chủ đề", [
        topicLine,
        "MC sẽ trả lời Có/Không theo một quy luật bí mật.",
        "Tìm ra quy luật đó!"], None, c.topic)
  }

  function Secret(c: AIContent): string {
    "Chủ đề: " + Show(c.topic) + ". Filter: " + Show(c.secretFilter) + ". " + Show(c.filterExplanation)
  }

  function Constraints(c: AIContent): map<Role, string> {
    map[Normal := "Tìm quy luật filter", Saboteur := "Gây nhiễu", Spy := "", Culprit := "", Accomplice := ""]
  }

  /** A message must be a question: it is valid exactly when it contains a question mark,
      whoever wrote it. */
  function Validate(text: string): (r: Validation)
    ensures r.valid <==> r.violations == []
    ensures r.valid <==> Contains(text, "?")
    ensures |r.violations| <= 1
  {
    if Contains(text, "?") then Validation(true, []) else Validation(false, ["Phải là câu hỏi (có dấu ?)"])
  }

  /** The rules the host's automatic answer recognises in the secret filter, in the order
      they are tried. */
  datatype FilterRule = LetterM | HasNumber | WordKhong | EvenWordCount | EndsWithVowel | Unrecognised

  function RuleOf(filter: string): FilterRule {
    var f := Lower(filter);
    if Contains(f, "có chữ \"m\"") || Contains(f, "chứa chữ m") then LetterM
    else if Contains(f, "có số") then HasNumber
    else if Contains(f, "có từ \"không\"") then WordKhong
    else if Contains(f, "số từ chẵn") || Contains(f, "số chẵn") then EvenWordCount
    else if Contains(f, "kết thúc bằng nguyên âm") then EndsWithVowel
    else Unrecognised
  }

  const Vowels: string := "aeiouáàảãạăắằẳẵặâấầẩẫậéèẻẽẹêếềểễệíìỉĩịóòỏõọôốồổỗộơớờởỡợúùủũụưứừửữựýỳỷỹỵ"

  predicate IsPunct(ch: char) {
    ch == '?' || ch == '!' || ch == '.' || ch == ','
  }

  /** `s.replace(/[?!.,]/g, '')` */
  function StripPunct(s: string): (r: string)
    ensures |r| <= |s|
    ensures forall i :: 0 <= i < |r| ==> !IsPunct(r[i])
  {
    if s == [] then []
    else (if IsPunct(s[0]) then [] else [s[0]]) + StripPunct(s[1..])
  }

  /** `s.slice(-1)` */
  function LastChar(s: string): (r: string)
    ensures |r| == (if s == [] then 0 else 1)
  {
    if s == [] then [] else [s[|s| - 1]]
  }

  /** The host's automatic answer to `question`. `coin` stands for the random answer the code
      falls back on when there is no filter or it is not recognised. */
  function Evaluate(c: AIContent, question: string, coin: bool): (r: bool)
    ensures (c.secretFilter.None? || c.secretFilter.value == "") ==> r == coin
  {
    if c.secretFilter.None? || c.secretFilter.value == "" then coin
    else
      var q := Lower(question);
      match RuleOf(c.secretFilter.value)
      case LetterM => Contains(q, "m")
      case HasNumber => HasDigit(q)
      case WordKhong => Contains(q, "không")
      case EvenWordCount => SplitCount(q) % 2 == 0
      case EndsWithVowel => Contains(Vowels, LastChar(Trim(StripPunct(q))))
      case Unrecognised => coin
  }

  /** The coin decides only when there is no filter or it is not recognised: a recognised
      rule answers the same whatever the coin. */
  lemma EvaluateIgnoresCoin(c: AIContent, question: string)
    requires c.secretFilter.Some? && c.secretFilter.value != "" && RuleOf(c.secretFilter.value) != Unrecognised
    ensures Evaluate(c, question, true) == Evaluate(c, question, false)
  {
  }

  /** The answer does not depend on the case of the question. */
  lemma EvaluateIgnoresCase(c: AIContent, question: string, coin: bool)
    ensures Evaluate(c, Lower(question), coin) == Evaluate(c, question, coin)
  {
    LowerIdempotent(question);
  }

  /** A logged question the host has not answered yet. */
  predicate Unanswered(m: Message) {
    Contains(m.content, "?") && m.hostAnswer.None?
  }

  /** The unanswered questions of a log, in log order. */
  function UnansweredQuestions(log: seq<Message>): (r: seq<Message>)
    ensures forall m :: m in r <==> m in log && Unanswered(m)
    ensures |r| <= |log|
  {
    if log == [] then []
    else
      var rest := UnansweredQuestions(log[1..]);
      assert forall m :: m in log <==> m == log[0] || m in log[1..];
      if Unanswered(log[0]) then [log[0]] + rest else rest
  }

  /** Selecting unanswered questions distributes over concatenation, so it keeps log order. */
  lemma {:induction false} UnansweredAppend(a: seq<Message>, b: seq<Message>)
    ensures UnansweredQuestions(a + b) == UnansweredQuestions(a) + UnansweredQuestions(b)
  {
    if a != [] {
      assert (a + b)[1..] == a[1..] + b;
      UnansweredAppend(a[1..], b);
    } else {
      assert a + b == b;
    }
  }

  /** The position of the first message of the log with id `id`, if any (`find`). */
  function FindMessage(log: seq<Message>, id: MessageId): (r: Option<nat>)
    ensures r.None? <==> forall k :: 0 <= k < |log| ==> log[k].id != id
    ensures r.Some? ==> r.value < |log| && log[r.value].id == id
    ensures r.Some? ==> forall k :: 0 <= k < r.value ==> log[k].id != id
  {
    if log == [] then None
    else if log[0].id == id then Some(0)
    else
      match FindMessage(log[1..], id)
      case None => None
      case Some(k) => Some(k + 1)
  }
}
