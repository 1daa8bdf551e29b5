/** The pure helpers of the task page: status labels and colours, and the records built
    for a new task from the quick-add box and from the detailed form. */
module IndexPage {
  import opened Wrappers
  import opened Digits
  import opened IsoDate
  import opened Api

  const TaskTypes: seq<string> := ["פיתוח", "עיצוב", "בדיקה", "תיעוד", "אחר"]
  const TaskStatuses: seq<string> := ["pending", "in-progress", "completed", "cancelled"]

  /** The type given to a quick task ("other"). */
  const OtherType := "אחר"

  const DefaultColor := "bg-gray-100 text-gray-800"

  /** `getStatusColor`: one colour class per known status, grey for anything else. */
  function StatusColor(status: string): (r: string)
    ensures r == DefaultColor <==> status !in TaskStatuses
  {
    match status
    case "pending" => "bg-amber-100 text-amber-800"
    case "in-progress" => "bg-blue-100 text-blue-800"
    case "completed" => "bg-green-100 text-green-800"
    case "cancelled" => "bg-red-100 text-red-800"
    case _ => DefaultColor
  }

  /** `getStatusText`: the Hebrew label of a known status; any other status is shown as
      it is. */
  function StatusText(status: string): (r: string)
    ensures r == status <==> status !in TaskStatuses
  {
    match status
    case "pending" => "ממתין"
    case "in-progress" => "בביצוע"
    case "completed" => "הושלם"
    case "cancelled" => "בוטל"
    case _ => status
  }

  /** The four statuses have four different labels. */
  lemma StatusTextsDistinct(a: string, b: string)
    requires a in TaskStatuses && b in TaskStatuses && a != b
    ensures StatusText(a) != StatusText(b)
  {
  }

  /** The four statuses have four different colours. */
  lemma StatusColorsDistinct(a: string, b: string)
    requires a in TaskStatuses && b in TaskStatuses && a != b
    ensures StatusColor(a) != StatusColor(b)
  {
  }

  /** The characters `String.prototype.trim` removes: ECMAScript WhiteSpace (including
      every Unicode space separator) and LineTerminator. */
  predicate IsJsWhitespace(c: char) {
    || c == '\t' || c == '\n' || c == '\U{000B}' || c == '\U{000C}' || c == '\r' || c == ' '
    || c == '\U{00A0}' || c == '\U{1680}' || '\U{2000}' <= c <= '\U{200A}'
    || c == '\U{2028}' || c == '\U{2029}' || c == '\U{202F}' || c == '\U{205F}'
    || c == '\U{3000}' || c == '\U{FEFF}'
  }

  predicate IsBlank(s: string) {
    forall i :: 0 <= i < |s| ==> IsJsWhitespace(s[i])
  }

  /** `s.trimStart()`: the suffix left after the leading whitespace. */
  function TrimStart(s: string): (r: string)
    ensures |r| <= |s| && r == s[|s| - |r|..]
    ensures IsBlank(s[..|s| - |r|])
    ensures r == [] || !IsJsWhitespace(r[0])
    decreases |s|
  {
    if s != [] && IsJsWhitespace(s[0]) then
      var r := TrimStart(s[1..]);
      assert s[..|s| - |r|] == [s[0]] + s[1..][..|s| - 1 - |r|];
      r
    else s
  }

  /** `s.trimEnd()`: the prefix left before the trailing whitespace. */
  function TrimEnd(s: string): (r: string)
    ensures |r| <= |s| && r == s[..|r|]
    ensures IsBlank(s[|r|..])
    ensures r == [] || !IsJsWhitespace(r[|r| - 1])
    decreases |s|
  {
    if s != [] && IsJsWhitespace(s[|s| - 1]) then
      var r := TrimEnd(s[..|s| - 1]);
      assert s[|r|..] == s[..|s| - 1][|r|..] + [s[|s| - 1]];
      r
    else s
  }

  /** `r` is `s[a..b]`, and everything outside that slice is whitespace. */
  predicate CutAt(s: string, r: string, a: nat, b: nat) {
    a <= b <= |s| && r == s[a..b] && IsBlank(s[..a]) && IsBlank(s[b..])
  }

  /** `s.trim()`: the middle of `s` left once leading and trailing whitespace is cut off. */
  function Trim(s: string): (r: string)
    ensures exists a: nat, b: nat :: CutAt(s, r, a, b)
    ensures r == [] || (!IsJsWhitespace(r[0]) && !IsJsWhitespace(r[|r| - 1]))
  {
    var t := TrimStart(s);
    var r := TrimEnd(t);
    SliceOfSuffix(s, |s| - |t|, |r|);
    assert CutAt(s, r, |s| - |t|, |s| - |t| + |r|);
    r
  }

  /** Cutting `s[a..]` at `n` cuts `s` at `a + n`. */
  lemma SliceOfSuffix(s: string, a: nat, n: nat)
    requires a + n <= |s|
    ensures s[a..][..n] == s[a..a + n] && s[a..][n..] == s[a + n..]
  {
  }

  /** A string trims to the empty string exactly when it is all whitespace. */
  lemma TrimEmptyIffBlank(s: string)
    ensures Trim(s) == [] <==> IsBlank(s)
  {
  }

  /** `` `T-${tasks.length + 1}` ``: the automatic code for the next task. */
  function TaskCode(count: nat): (code: string)
    ensures |code| >= 3 && code[..2] == "T-" && AllDigits(code[2..])
    ensures DecimalValue(code[2..]) == count + 1
    ensures code[2] != '0'
  {
    var code := "T-" + Decimal(count + 1);
    assert code[2..] == Decimal(count + 1);
    DecimalRoundTrip(count + 1);
    code
  }

  /** Different task counts give different codes. */
  lemma TaskCodeInjective(m: nat, n: nat)
    requires TaskCode(m) == TaskCode(n)
    ensures m == n
  {
  }

  /** `addQuickTask`: nothing for blank text; otherwise a pending task of type "other"
      whose title is the text as typed (untrimmed), starting now, with no end date and an
      automatic code. `now` is the clock reading of `new Date()`. */
  function QuickTask(text: string, count: nat, now: JsDate): (r: Option<TaskData>)
    ensures r.None? <==> IsBlank(text)
    ensures r.Some? ==>
      && r.value.code == TaskCode(count) && r.value.title == text
      && r.value.description == "" && r.value.taskType == OtherType && OtherType in TaskTypes
      && r.value.startDate == Some(now) && r.value.endDate == None
      && r.value.status == "pending" && r.value.status in TaskStatuses
  {
    TrimEmptyIffBlank(text);
    if Trim(text) == "" then None
    else Some(TaskData(TaskCode(count), text, "", OtherType, Some(now), None, "pending"))
  }

  /** `addDetailedTask`: nothing when the title is blank; otherwise the form as filled in,
      with the automatic code only when the code field is empty. */
  function DetailedTask(form: TaskData, count: nat): (r: Option<TaskData>)
    ensures r.None? <==> IsBlank(form.title)
    ensures r.Some? ==> r.value.(code := form.code) == form
    ensures r.Some? ==> r.value.code != ""
    ensures r.Some? && form.code != "" ==> r.value.code == form.code
    ensures r.Some? && form.code == "" ==> r.value.code == TaskCode(count)
  {
    TrimEmptyIffBlank(form.title);
    if Trim(form.title) == "" then None
    else Some(form.(code := if form.code != "" then form.code else TaskCode(count)))
  }
}
