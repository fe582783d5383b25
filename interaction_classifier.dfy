/**
 * `InteractionClassifier` (jarvis-web/backend/interaction_classifier.py):
 * an ordered cascade of keyword and pattern tests over a reply text that
 * decides the question type, its risk level, whether and when it times
 * out, and what happens by default.
 *
 * The keyword lists are literal substrings of the lowercased text. The
 * regular expressions are written out as scans over the string; `\w` and
 * `\s` are restricted to ASCII word characters and the Latin-1 spaces.
 */
module InteractionClassifier {
  import opened Common
  import opened TextScan

  datatype RiskLevel = Low | Medium | High | Critical
  datatype QuestionType = Approval | Information | Choice | Confirmation | OpenEnded
  datatype ExecutionMode = Autonomous | Supervised | Interactive | ApprovalRequired

  /** The fixed disclaimer texts; only the financial one depends on the input. */
  datatype Disclaimer = MedicalNotice | FinancialNotice(amount: real) | LegalNotice | IrreversibleNotice

  /** `QuestionClassification`. */
  datatype Classification = Classification(
    qtype: QuestionType,
    risk: RiskLevel,
    timeoutMs: Option<nat>,
    defaultAction: Option<string>,
    requireExplicit: bool,
    suggestedActions: seq<string>,
    disclaimer: Option<Disclaimer>,
    warningLevel: Option<string>,
    amount: Option<real>,
    domain: Option<string>)

  function RiskRank(r: RiskLevel): nat
  {
    match r
    case Low => 0
    case Medium => 1
    case High => 2
    case Critical => 3
  }

  // ------------------------------------------------------ domain tests

  const FinancialWords: seq<string> :=
    ["invest", "purchase", "buy", "spend", "cost", "payment", "transaction", "transfer",
     "stock", "bond", "account", "withdraw", "deposit"]
  const MedicalWords: seq<string> :=
    ["medication", "surgery", "treatment", "doctor", "hospital", "prescription", "diagnosis",
     "symptom", "disease", "medical", "health", "therapy", "procedure"]
  const DestructiveWords: seq<string> :=
    ["delete", "remove", "cancel", "terminate", "destroy", "erase", "wipe", "drop", "purge"]
  const LegalWords: seq<string> :=
    ["contract", "agreement", "legal", "lawsuit", "court", "attorney", "liability",
     "compliance", "regulation"]

  /** `\$\d+`: a dollar sign directly followed by a digit. */
  predicate DollarDigitAt(t: string, i: nat)
  {
    i + 1 < |t| && t[i] == '$' && IsDigit(t[i + 1])
  }

  predicate IsMedical(t: string) { ContainsAny(t, MedicalWords) }

  predicate IsFinancial(t: string)
  {
    (exists i: nat | i < |t| :: DollarDigitAt(t, i)) || ContainsAny(t, FinancialWords)
  }

  predicate IsLegal(t: string) { ContainsAny(t, LegalWords) }

  predicate IsDestructive(t: string) { ContainsAny(t, DestructiveWords) }

  /** `reply ['"]?yes['"]? to <action>` with every choice of optional quote. */
  function ReplyYes(action: string): (r: seq<string>)
    ensures |r| == 9
  {
    var quotes := ["", "'", "\""];
    seq(9, k requires 0 <= k < 9 => "reply " + quotes[k / 3] + "yes" + quotes[k % 3] + " to " + action)
  }

  const ApprovalPhrases: seq<string> :=
    ReplyYes("proceed") + ReplyYes("confirm") + ["approve", "confirm", "proceed?", "continue?"]

  predicate IsApprovalRequest(t: string) { ContainsAny(t, ApprovalPhrases) }

  const InformationPhrases: seq<string> :=
    ["what date", "what time", "what when", "what where", "what who",
     "which option", "which choice", "which one",
     "how many", "how much", "how long",
     "please provide", "please specify", "please enter", "please give"]

  predicate IsInformationRequest(t: string) { ContainsAny(t, InformationPhrases) }

  // ------------------------------------------------------- list items

  const Bullets: set<char> := {'•', '-', '*'}

  /** Where the text after a list marker ending before `a` starts (`\s+`), if it does. */
  function AfterMarker(s: string, a: nat): (b: nat)
    requires a <= |s|
    ensures a <= b <= |s|
  {
    SkipSpaces(s, a)
  }

  /** The start of the list marker at `p`'s text: `\d+\.` or one bullet character. */
  function MarkerEnd(s: string, p: nat, numbered: bool): (r: Option<nat>)
    requires p < |s|
    ensures r.Some? ==> p < r.value <= |s|
  {
    if numbered then
      if IsDigit(s[p]) then
        var q := DigitsEnd(s, p);
        if q < |s| && s[q] == '.' then Some(q + 1) else None
      else None
    else if s[p] in Bullets then Some(p + 1)
    else None
  }

  /** `\d+\.\s+\w` (or `[•\-\*]\s+\w`) starts at `p`; the word character is at `WordAt`. */
  predicate ItemAt(s: string, p: nat, numbered: bool)
  {
    p < |s| &&
    var m := MarkerEnd(s, p, numbered);
    m.Some? && AfterMarker(s, m.value) > m.value && AfterMarker(s, m.value) < |s| &&
    IsWordChar(s[AfterMarker(s, m.value)])
  }

  function WordAt(s: string, p: nat, numbered: bool): (w: nat)
    requires ItemAt(s, p, numbered)
    ensures p < w < |s|
  {
    AfterMarker(s, MarkerEnd(s, p, numbered).value)
  }

  predicate NoNewline(s: string, i: nat, j: nat)
    requires i <= j <= |s|
  {
    forall k :: i <= k < j ==> s[k] != '\n'
  }

  /** `\d+\.\s+\w+.*\d+\.\s+\w+`: two items with no line feed between the first's word and the second's marker. */
  predicate HasTwoItems(s: string, numbered: bool)
  {
    exists p1: nat, p2: nat | p1 < p2 < |s| ::
      ItemAt(s, p1, numbered) && ItemAt(s, p2, numbered) &&
      WordAt(s, p1, numbered) < p2 && NoNewline(s, WordAt(s, p1, numbered), p2)
  }

  /** `\w\s+or\s+\w` with the `w` before the spaces at `i`, case-insensitively. */
  predicate OrAt(s: string, i: nat)
  {
    i + 1 < |s| && IsWordChar(s[i]) &&
    var j := SkipSpaces(s, i + 1);
    j > i + 1 && j + 2 <= |s| && Lower(s[j]) == 'o' && Lower(s[j + 1]) == 'r' &&
    var k := SkipSpaces(s, j + 2);
    k > j + 2 && k < |s| && IsWordChar(s[k])
  }

  predicate HasOr(s: string) { exists i: nat | i < |s| :: OrAt(s, i) }

  predicate IsChoiceRequest(t: string)
  {
    HasTwoItems(t, true) || HasTwoItems(t, false) || HasOr(t)
  }

  // ------------------------------------------------------ extraction

  /**
   * The `[^\n\r]+` capture after the `\s+` that starts at `a` and would run
   * to `b`: the greedy end if a character follows, otherwise the latest
   * start, backtracking into the spaces, whose character is not a line break.
   */
  function CaptureStart(s: string, lo: nat, b: nat): (r: Option<nat>)
    requires lo <= b <= |s|
    ensures r.Some? ==> lo <= r.value < |s| && r.value <= b && !IsLineBreak(s[r.value])
    decreases b
  {
    if b < |s| && !IsLineBreak(s[b]) then Some(b)
    else if b == lo then None
    else CaptureStart(s, lo, b - 1)
  }

  /** The first `\d+\.\s+([^\n\r]+)` (or bullet) match starting exactly at `p`: the capture's bounds. */
  function ItemCapture(s: string, p: nat, numbered: bool): (r: Option<(nat, nat)>)
    requires p < |s|
    ensures r.Some? ==> p < r.value.0 < r.value.1 <= |s|
    ensures r.Some? ==> var m := MarkerEnd(s, p, numbered);
      m.Some? && m.value < r.value.0 && (forall k :: m.value <= k < r.value.0 ==> IsSpace(s[k])) &&
      (r.value.1 == |s| || IsLineBreak(s[r.value.1]))
  {
    var m := MarkerEnd(s, p, numbered);
    if m.None? then None
    else
      var a := m.value;
      var b := SkipSpaces(s, a);
      if b == a then None
      else
        var c := CaptureStart(s, a + 1, b);
        if c.None? then None else Some((c.value, LineEnd(s, c.value + 1)))
  }

  /**
   * `item` is the text of a list item of `s`: it starts after a marker
   * (`\d+\.` or a bullet) at some `p` and at least one space, and runs to
   * the end of its line.
   */
  ghost predicate ItemText(s: string, item: string, numbered: bool)
  {
    exists p: nat, c: nat | p < c && c + |item| <= |s| ::
      ItemTextAt(s, item, numbered, p, c)
  }

  ghost predicate ItemTextAt(s: string, item: string, numbered: bool, p: nat, c: nat)
    requires p < c && c + |item| <= |s|
  {
    var m := MarkerEnd(s, p, numbered);
    m.Some? && m.value < c && (forall k :: m.value <= k < c ==> IsSpace(s[k])) &&
    s[c..c + |item|] == item && (c + |item| == |s| || IsLineBreak(s[c + |item|]))
  }

  /** `re.findall` of the item pattern from position `p` on. */
  function FindItems(s: string, p: nat, numbered: bool): (r: seq<string>)
    requires p <= |s|
    ensures forall i :: 0 <= i < |r| ==> |r[i]| > 0 && forall k :: 0 <= k < |r[i]| ==> !IsLineBreak(r[i][k])
    ensures forall i :: 0 <= i < |r| ==> ItemText(s, r[i], numbered)
    decreases |s| - p
  {
    if p == |s| then []
    else
      var cap := ItemCapture(s, p, numbered);
      if cap.Some? then
        var (c, e) := cap.value;
        var rest := FindItems(s, e, numbered);
        assert ItemTextAt(s, s[c..e], numbered, p, c);
        [s[c..e]] + rest
      else FindItems(s, p + 1, numbered)
  }

  /** The end of `\w+(?:\s+\w+)*` from the word character at `p`. */
  function RunEnd(s: string, p: nat): (e: nat)
    requires p < |s| && IsWordChar(s[p])
    ensures p < e <= |s|
    decreases |s| - p
  {
    var w := WordEnd(s, p);
    var b := SkipSpaces(s, w);
    if b > w && b < |s| && IsWordChar(s[b]) then RunEnd(s, b) else w
  }

  /** A whole token `or` at `o`, inside the run `[p, e)`, with a token before and after it. */
  predicate OrTokenAt(s: string, p: nat, e: nat, o: nat)
    requires p < e <= |s|
  {
    p + 1 < o && o + 2 < e && IsSpace(s[o - 1]) && Lower(s[o]) == 'o' && Lower(s[o + 1]) == 'r' &&
    IsSpace(s[o + 2]) && SkipSpaces(s, o + 2) < e
  }

  /** The last `or` token in the run (the greedy first group backtracks to it). */
  function LastOrToken(s: string, p: nat, e: nat, hi: nat): (r: Option<nat>)
    requires p < e <= |s| && hi <= e
    ensures r.Some? ==> r.value < hi && OrTokenAt(s, p, e, r.value)
    ensures r.None? ==> forall o: nat :: o < hi ==> !OrTokenAt(s, p, e, o)
    decreases hi
  {
    if hi == 0 then None
    else if OrTokenAt(s, p, e, hi - 1) then Some(hi - 1)
    else LastOrToken(s, p, e, hi - 1)
  }

  /** The start of the run of spaces that ends just before `o`. */
  function SpacesBefore(s: string, lo: nat, o: nat): (w: nat)
    requires lo <= o <= |s|
    ensures lo <= w <= o
    ensures forall k :: w <= k < o ==> IsSpace(s[k])
    ensures o > lo && IsSpace(s[o - 1]) ==> w < o
    decreases o
  {
    if o > lo && IsSpace(s[o - 1]) then SpacesBefore(s, lo, o - 1) else o
  }

  /**
   * `x`, spaces, `or` in any case, spaces and `y` stand next to each other
   * in `s`, from `i` on; `x` starts with a word character, `y` right
   * after the spaces.
   */
  ghost predicate OrPairAt(s: string, x: string, y: string, i: nat, o: nat)
  {
    0 < |x| && 0 < |y| && i + |x| < o && o + 2 < |s| &&
    s[i..i + |x|] == x && IsWordChar(x[0]) &&
    (forall k :: i + |x| <= k < o ==> IsSpace(s[k])) &&
    Lower(s[o]) == 'o' && Lower(s[o + 1]) == 'r' &&
    var k := SkipSpaces(s, o + 2);
    k > o + 2 && k + |y| <= |s| && s[k..k + |y|] == y
  }

  ghost predicate OrPair(s: string, x: string, y: string)
  {
    exists i: nat, o: nat | i < o < |s| :: OrPairAt(s, x, y, i, o)
  }

  /** An `or` token inside a run starting with a word character splits it into an `or` pair. */
  lemma OrTokenPair(s: string, p: nat, e: nat, o: nat)
    requires p < e <= |s| && IsWordChar(s[p]) && OrTokenAt(s, p, e, o)
    ensures var w := SpacesBefore(s, p, o); var k := SkipSpaces(s, o + 2);
      p < w && k < e && |s[p..w]| > 0 && |s[k..e]| > 0 && OrPair(s, s[p..w], s[k..e])
  {
    assert !IsSpace(s[p]);
    var w := SpacesBefore(s, p, o);
    var k := SkipSpaces(s, o + 2);
    var x, y := s[p..w], s[k..e];
    assert w < o;
    assert p < w;
    assert |x| == w - p && x[0] == s[p];
    assert s[p..p + |x|] == x;
    assert s[k..k + |y|] == y;
    assert OrPairAt(s, x, y, p, o);
  }

  /** The run start, `or` token and run end of the first `\w+(?:\s+\w+)*\s+or\s+\w+(?:\s+\w+)*` match at or after `p`. */
  function OrMatch(s: string, p: nat): (r: Option<(nat, nat, nat)>)
    requires p <= |s|
    ensures r.Some? ==> var (a, o, e) := r.value;
      p <= a < e <= |s| && IsWordChar(s[a]) && OrTokenAt(s, a, e, o)
    decreases |s| - p
  {
    if p == |s| then None
    else if IsWordChar(s[p]) then
      var e := RunEnd(s, p);
      var o := LastOrToken(s, p, e, e);
      if o.Some? then Some((p, o.value, e)) else OrMatch(s, p + 1)
    else OrMatch(s, p + 1)
  }

  /** The two groups of the first `(\w+(?:\s+\w+)*)\s+or\s+(\w+(?:\s+\w+)*)` match at or after `p`. */
  function OrChoices(s: string, p: nat): (r: Option<(string, string)>)
    requires p <= |s|
    ensures r.Some? ==> |r.value.0| > 0 && |r.value.1| > 0
    ensures r.Some? ==> OrPair(s, r.value.0, r.value.1)
  {
    match OrMatch(s, p)
    case None => None
    case Some((a, o, e)) =>
      OrTokenPair(s, a, e, o);
      Some((s[a..SpacesBefore(s, a, o)], s[SkipSpaces(s, o + 2)..e]))
  }

  /**
   * `_extract_choices`: the first five numbered items' texts, else the
   * first five bullet items' texts, else the two sides of the first `or`,
   * else nothing.
   */
  function ExtractChoices(text: string): (r: seq<string>)
    ensures |r| <= 5
    ensures forall i :: 0 <= i < |r| ==> |r[i]| > 0
    ensures var n := FindItems(text, 0, true);
      |n| > 0 ==>
        |r| == (if |n| < 5 then |n| else 5) && r == n[..|r|] &&
        forall i :: 0 <= i < |r| ==> ItemText(text, r[i], true)
    ensures var n := FindItems(text, 0, true); var b := FindItems(text, 0, false);
      |n| == 0 && |b| > 0 ==>
        |r| == (if |b| < 5 then |b| else 5) && r == b[..|r|] &&
        forall i :: 0 <= i < |r| ==> ItemText(text, r[i], false)
    ensures |FindItems(text, 0, true)| == 0 && |FindItems(text, 0, false)| == 0 ==>
      (OrChoices(text, 0).Some? ==> |r| == 2 && OrPair(text, r[0], r[1])) &&
      (OrChoices(text, 0).None? ==> r == [])
  {
    var numbered := FindItems(text, 0, true);
    if |numbered| > 0 then Take(numbered, 5)
    else
      var bulleted := FindItems(text, 0, false);
      if |bulleted| > 0 then Take(bulleted, 5)
      else
        var or := OrChoices(text, 0);
        if or.Some? then [or.value.0, or.value.1] else []
  }

  // ---------------------------------------------------------- amounts

  predicate IsAmountChar(c: char) { IsDigit(c) || c == ',' }

  function AmountEnd(s: string, i: nat): (j: nat)
    requires i <= |s|
    ensures i <= j <= |s|
    ensures forall k :: i <= k < j ==> IsAmountChar(s[k])
    decreases |s| - i
  {
    if i < |s| && IsAmountChar(s[i]) then AmountEnd(s, i + 1) else i
  }

  function WithoutCommas(s: string): (r: string)
    requires forall k :: 0 <= k < |s| ==> IsAmountChar(s[k])
    ensures forall k :: 0 <= k < |r| ==> IsDigit(r[k])
  {
    if |s| == 0 then ""
    else
      var rest := WithoutCommas(s[1..]);
      if s[0] == ',' then rest
      else
        assert IsAmountChar(s[0]);
        [s[0]] + rest
  }

  /** `\$\s*[0-9,]` matches at `i`. */
  predicate AmountAt(s: string, i: nat)
  {
    i < |s| && s[i] == '$' && SkipSpaces(s, i + 1) < |s| && IsAmountChar(s[SkipSpaces(s, i + 1)])
  }

  function FirstAmountAt(s: string, i: nat): (r: Option<nat>)
    requires i <= |s|
    ensures r.Some? ==> i <= r.value < |s| && AmountAt(s, r.value)
    ensures r.Some? ==> forall k :: i <= k < r.value ==> !AmountAt(s, k)
    ensures r.None? ==> forall k :: i <= k < |s| ==> !AmountAt(s, k)
    decreases |s| - i
  {
    if i == |s| then None
    else if AmountAt(s, i) then Some(i)
    else FirstAmountAt(s, i + 1)
  }

  /**
   * `_extract_amount`: the first `\$\s*([0-9,]+(?:\.\d{2})?)` match, commas
   * removed and read as a number. A capture of commas only is empty once
   * the commas go and does not parse, unless two cents digits follow it
   * (`",.50"` reads as `.50`).
   */
  function ExtractAmount(text: string): (r: Option<real>)
    ensures r.Some? ==> r.value >= 0.0
    ensures (forall i :: 0 <= i < |text| ==> text[i] != '$') ==> r.None?
  {
    var at := FirstAmountAt(text, 0);
    if at.None? then None else ReadAmount(text, SkipSpaces(text, at.value + 1))
  }

  /** The number captured from `a` on: `[0-9,]+`, then `.dd` if two digits follow a dot. */
  function ReadAmount(text: string, a: nat): (r: Option<real>)
    requires a <= |text|
    ensures r.Some? ==> r.value >= 0.0
  {
    var e := AmountEnd(text, a);
    AmountOf(WithoutCommas(text[a..e]), CentsAt(text, e))
  }

  /** `(?:\.\d{2})?` at `e`: the two cents digits' value, if they are there. */
  function CentsAt(text: string, e: nat): Option<nat>
  {
    if e + 2 < |text| && text[e] == '.' && IsDigit(text[e + 1]) && IsDigit(text[e + 2])
    then Some(DigitsValue(text[e + 1..e + 3]))
    else None
  }

  /** `float(...)` of the captured digits and cents; nothing at all does not parse. */
  function AmountOf(digits: string, cents: Option<nat>): (r: Option<real>)
    requires forall k :: 0 <= k < |digits| ==> IsDigit(digits[k])
    ensures r.Some? ==> r.value >= 0.0
  {
    if |digits| == 0 && cents.None? then None
    else Some(Dollars(DigitsValue(digits), if cents.Some? then cents.value else 0))
  }

  /** Whole dollars and cents as one number. */
  function Dollars(whole: nat, cents: nat): (r: real)
    ensures r >= 0.0
  {
    whole as real + cents as real / 100.0
  }

  /** A capture of commas followed by cents reads as the cents alone. */
  lemma CommasThenCents()
    ensures ExtractAmount("$,.50") == Some(0.5)
  {
    var t := "$,.50";
    assert AmountAt(t, 0) by { assert SkipSpaces(t, 1) == 1; }
    assert SkipSpaces(t, 1) == 1;
    assert AmountEnd(t, 1) == 2 by { assert AmountEnd(t, 2) == 2; }
    assert WithoutCommas(t[1..2]) == "" by { assert t[1..2] == ","; }
    assert t[3..5] == "50";
    assert DigitsValue("50") == 50 by { assert "50"[..1] == "5"; assert "5"[..0] == ""; }
  }

  // --------------------------------------------------- classifications

  function ClassifyMedical(): Classification
  {
    Classification(Confirmation, Critical, None, None, true,
                   ["I understand and want to continue", "Cancel this request"],
                   Some(MedicalNotice), Some("critical"), None, Some("medical"))
  }

  /** The risk grade of a financial question by its amount (`amount and amount >= …`). */
  function FinancialRisk(amount: Option<real>): RiskLevel
  {
    if amount.Some? && amount.value != 0.0 && amount.value >= 1000.0 then Critical
    else if amount.Some? && amount.value != 0.0 && amount.value >= 100.0 then High
    else Medium
  }

  function ClassifyFinancial(text: string): Classification
  {
    var amount := ExtractAmount(text);
    var risk := FinancialRisk(amount);
    var explicit := risk != Medium;
    Classification(Approval, risk, if explicit then None else Some(120000),
                   Some(if explicit then "cancel" else "ask_again"), explicit,
                   ["Approve", "Cancel", "Tell me more"],
                   if risk == Critical then Some(FinancialNotice(amount.value)) else None,
                   None, amount, Some("financial"))
  }

  function ClassifyLegal(): Classification
  {
    Classification(Confirmation, Critical, None, None, true,
                   ["I understand and proceed", "Cancel", "Consult attorney"],
                   Some(LegalNotice), None, None, Some("legal"))
  }

  function ClassifyDestructive(): Classification
  {
    Classification(Confirmation, High, None, None, true, ["Yes, I'm sure", "No, cancel"],
                   Some(IrreversibleNotice), Some("high"), None, None)
  }

  /** `(\d+)\s+<word>` at `i` (the digits' last character at `i`). */
  predicate CountOfAt(t: string, i: nat, word: string)
  {
    i < |t| && IsDigit(t[i]) && SkipSpaces(t, i + 1) > i + 1 && StartsWith(t[SkipSpaces(t, i + 1)..], word)
  }

  /** `(\d+)\s+api\s+calls?` at `i`. */
  predicate ApiCallsAt(t: string, i: nat)
  {
    CountOfAt(t, i, "api") &&
    var j := SkipSpaces(t, i + 1) + 3;
    j <= |t| && SkipSpaces(t, j) > j && StartsWith(t[SkipSpaces(t, j)..], "call")
  }

  predicate MentionsPlanSize(text: string)
  {
    var t := LowerStr(text);
    (exists i: nat | i < |t| :: CountOfAt(t, i, "step")) || (exists i: nat | i < |t| :: ApiCallsAt(t, i))
  }

  function ClassifyApproval(text: string): Classification
  {
    if MentionsPlanSize(text) then
      Classification(Approval, Medium, Some(120000), Some("cancel"), false,
                     ["Yes, proceed", "No, cancel", "Modify plan"], None, None, None, None)
    else
      Classification(Approval, Low, Some(60000), Some("yes"), false, ["Yes", "No"], None, None, None, None)
  }

  /** The expected kind of answer, from the lowercased text. */
  function InputType(t: string): string
  {
    if Contains(t, "date") || Contains(t, "when") then "date"
    else if Contains(t, "name") || Contains(t, "who") then "text"
    else if Contains(t, "how many") || Contains(t, "how much") then "number"
    else "text"
  }

  function ClassifyInformation(text: string): Classification
  {
    Classification(Information, Low, Some(30000), Some("skip"), false, ["Submit", "Skip"],
                   None, None, None, Some(InputType(LowerStr(text))))
  }

  function ClassifyChoice(text: string): Classification
  {
    var choices := ExtractChoices(text);
    Classification(Choice, Low, Some(60000), Some("first"), false,
                   if |choices| > 0 then choices else ["Option 1", "Option 2", "Other"],
                   None, None, None, None)
  }

  function ClassifyOpenEnded(): Classification
  {
    Classification(OpenEnded, Medium, Some(120000), Some("skip"), false, ["Submit", "Skip"],
                   None, None, None, None)
  }

  /**
   * `classify`: medical, financial, legal, destructive, approval,
   * information, choice, and otherwise open-ended; the first test that
   * holds on the lowercased text decides.
   */
  function Classify(text: string): (r: Classification)
    ensures r.requireExplicit <==> r.timeoutMs.None?
    ensures r.risk == Critical ==> r.requireExplicit && r.disclaimer.Some?
    ensures r.defaultAction.None? ==> r.requireExplicit && r.qtype == Confirmation
    ensures r.qtype == Choice ==> 0 < |r.suggestedActions| <= 5
    ensures r.timeoutMs.Some? ==> r.timeoutMs.value in {30000, 60000, 120000}
  {
    var t := LowerStr(text);
    if IsMedical(t) then ClassifyMedical()
    else if IsFinancial(t) then ClassifyFinancial(text)
    else if IsLegal(t) then ClassifyLegal()
    else if IsDestructive(t) then ClassifyDestructive()
    else if IsApprovalRequest(t) then ClassifyApproval(text)
    else if IsInformationRequest(t) then ClassifyInformation(text)
    else if IsChoiceRequest(t) then ClassifyChoice(text)
    else ClassifyOpenEnded()
  }

  // ------------------------------------------------------------ lemmas

  /** Financial risk never decreases as the amount grows (for amounts that parse). */
  lemma FinancialRiskMonotone(a: real, b: real)
    requires 0.0 < a <= b
    ensures RiskRank(FinancialRisk(Some(a))) <= RiskRank(FinancialRisk(Some(b)))
  {
  }

  /**
   * The grading of a financial question: CRITICAL from 1000 up, HIGH from
   * 100, otherwise (no amount, or zero) MEDIUM with a two-minute timeout;
   * only the explicit grades default to "cancel".
   */
  lemma FinancialGrades(text: string)
    requires var t := LowerStr(text); !IsMedical(t) && IsFinancial(t)
    ensures var r := Classify(text); var a := ExtractAmount(text);
      r.qtype == Approval && r.amount == a && r.domain == Some("financial") &&
      (a.Some? && a.value >= 1000.0 ==>
         r.risk == Critical && r.timeoutMs.None? && r.requireExplicit && r.disclaimer == Some(FinancialNotice(a.value))) &&
      (a.Some? && 100.0 <= a.value < 1000.0 ==>
         r.risk == High && r.timeoutMs.None? && r.requireExplicit && r.disclaimer.None?) &&
      (a.None? || a.value < 100.0 ==>
         r.risk == Medium && r.timeoutMs == Some(120000) && !r.requireExplicit) &&
      (r.defaultAction == Some("cancel") <==> r.requireExplicit) &&
      (r.defaultAction == Some("ask_again") <==> !r.requireExplicit)
  {
  }

  /**
   * A medical question is CRITICAL, needs an explicit answer, has no
   * timeout and no default, and carries the medical disclaimer, whatever
   * other words it contains: medical is tested first.
   */
  lemma MedicalGrades(text: string)
    requires IsMedical(LowerStr(text))
    ensures var r := Classify(text);
      r.qtype == Confirmation && r.risk == Critical && r.timeoutMs.None? && r.defaultAction.None? &&
      r.requireExplicit && r.disclaimer == Some(MedicalNotice) && r.warningLevel == Some("critical") &&
      r.amount.None? && r.domain == Some("medical") &&
      r.suggestedActions == ["I understand and want to continue", "Cancel this request"]
  {
  }

  /** A legal question (neither medical nor financial) is CRITICAL with the legal disclaimer. */
  lemma LegalGrades(text: string)
    requires var t := LowerStr(text); !IsMedical(t) && !IsFinancial(t) && IsLegal(t)
    ensures var r := Classify(text);
      r.qtype == Confirmation && r.risk == Critical && r.timeoutMs.None? && r.defaultAction.None? &&
      r.requireExplicit && r.disclaimer == Some(LegalNotice) && r.warningLevel.None? &&
      r.amount.None? && r.domain == Some("legal") &&
      r.suggestedActions == ["I understand and proceed", "Cancel", "Consult attorney"]
  {
  }

  /** A destructive request (none of the earlier domains) is HIGH and needs an explicit answer. */
  lemma DestructiveGrades(text: string)
    requires var t := LowerStr(text); !IsMedical(t) && !IsFinancial(t) && !IsLegal(t) && IsDestructive(t)
    ensures var r := Classify(text);
      r.qtype == Confirmation && r.risk == High && r.timeoutMs.None? && r.defaultAction.None? &&
      r.requireExplicit && r.disclaimer == Some(IrreversibleNotice) && r.warningLevel == Some("high") &&
      r.amount.None? && r.domain.None? && r.suggestedActions == ["Yes, I'm sure", "No, cancel"]
  {
  }

  /**
   * An approval request: MEDIUM with a two-minute timeout defaulting to
   * "cancel" when it mentions a step or API-call count, otherwise LOW with
   * a one-minute timeout defaulting to "yes".
   */
  lemma ApprovalGrades(text: string)
    requires var t := LowerStr(text);
      !IsMedical(t) && !IsFinancial(t) && !IsLegal(t) && !IsDestructive(t) && IsApprovalRequest(t)
    ensures var r := Classify(text);
      r.qtype == Approval && !r.requireExplicit && r.disclaimer.None? && r.warningLevel.None? &&
      r.amount.None? && r.domain.None? &&
      (MentionsPlanSize(text) ==>
         r.risk == Medium && r.timeoutMs == Some(120000) && r.defaultAction == Some("cancel") &&
         r.suggestedActions == ["Yes, proceed", "No, cancel", "Modify plan"]) &&
      (!MentionsPlanSize(text) ==>
         r.risk == Low && r.timeoutMs == Some(60000) && r.defaultAction == Some("yes") &&
         r.suggestedActions == ["Yes", "No"])
  {
  }

  /** An information request is LOW, times out after 30 seconds to "skip", and names its input type. */
  lemma InformationGrades(text: string)
    requires var t := LowerStr(text);
      !IsMedical(t) && !IsFinancial(t) && !IsLegal(t) && !IsDestructive(t) && !IsApprovalRequest(t) &&
      IsInformationRequest(t)
    ensures var r := Classify(text);
      r.qtype == Information && r.risk == Low && r.timeoutMs == Some(30000) &&
      r.defaultAction == Some("skip") && !r.requireExplicit && r.disclaimer.None? &&
      r.warningLevel.None? && r.amount.None? && r.domain == Some(InputType(LowerStr(text))) &&
      r.suggestedActions == ["Submit", "Skip"]
  {
  }

  /**
   * A choice request is LOW, times out after a minute to "first", and
   * offers the extracted choices, or three stock options when none are found.
   */
  lemma ChoiceGrades(text: string)
    requires var t := LowerStr(text);
      !IsMedical(t) && !IsFinancial(t) && !IsLegal(t) && !IsDestructive(t) && !IsApprovalRequest(t) &&
      !IsInformationRequest(t) && IsChoiceRequest(t)
    ensures var r := Classify(text);
      r.qtype == Choice && r.risk == Low && r.timeoutMs == Some(60000) &&
      r.defaultAction == Some("first") && !r.requireExplicit && r.disclaimer.None? &&
      r.warningLevel.None? && r.amount.None? && r.domain.None? &&
      (|ExtractChoices(text)| > 0 ==> r.suggestedActions == ExtractChoices(text)) &&
      (|ExtractChoices(text)| == 0 ==> r.suggestedActions == ["Option 1", "Option 2", "Other"])
  {
  }

  /** Text that passes no test is an open-ended question: MEDIUM, two minutes, default "skip". */
  lemma OpenEndedGrades(text: string)
    requires var t := LowerStr(text);
      !IsMedical(t) && !IsFinancial(t) && !IsLegal(t) && !IsDestructive(t) && !IsApprovalRequest(t) &&
      !IsInformationRequest(t) && !IsChoiceRequest(t)
    ensures var r := Classify(text);
      r.qtype == OpenEnded && r.risk == Medium && r.timeoutMs == Some(120000) &&
      r.defaultAction == Some("skip") && !r.requireExplicit && r.disclaimer.None? &&
      r.warningLevel.None? && r.amount.None? && r.domain.None? &&
      r.suggestedActions == ["Submit", "Skip"]
  {
  }

  /** "delete surgery" is both destructive and medical; medical is tested first and wins. */
  lemma MedicalBeatsDestructive()
    ensures IsDestructive(LowerStr("delete surgery"))
    ensures Classify("delete surgery").risk == Critical
    ensures Classify("delete surgery").domain == Some("medical")
  {
    var text := "delete surgery";
    var t := LowerStr(text);
    assert t == text;
    ContainsAt(t, "surgery", 7);
    assert MedicalWords[1] == "surgery";
    ContainsAt(t, "delete", 0);
    assert DestructiveWords[0] == "delete";
    MedicalGrades(text);
  }

  lemma {:induction false} AmountEndAll(s: string, i: nat)
    requires i <= |s|
    requires forall k :: i <= k < |s| ==> IsAmountChar(s[k])
    ensures AmountEnd(s, i) == |s|
    decreases |s| - i
  {
    if i < |s| {
      AmountEndAll(s, i + 1);
    }
  }

  lemma {:induction false} WithoutCommasDigits(s: string)
    requires forall k :: 0 <= k < |s| ==> IsDigit(s[k])
    ensures WithoutCommas(s) == s
  {
    if |s| > 0 {
      WithoutCommasDigits(s[1..]);
    }
  }

  /** `_extract_amount` reads back a whole dollar amount written after a `$`. */
  lemma ExtractAmountOfDollars(n: nat)
    ensures ExtractAmount("$" + NatToString(n)) == Some(n as real)
  {
    var d := NatToString(n);
    var s := "$" + d;
    assert s[1..] == d;
    assert SkipSpaces(s, 1) == 1;
    assert AmountAt(s, 0);
    assert FirstAmountAt(s, 0) == Some(0);
    AmountEndAll(s, 1);
    assert s[1..|s|] == d;
    WithoutCommasDigits(d);
    DigitsValueOfNat(n);
  }

  lemma {:induction false} AmountEndStops(s: string, i: nat, e: nat)
    requires i <= e <= |s|
    requires forall k :: i <= k < e ==> IsAmountChar(s[k])
    requires e == |s| || !IsAmountChar(s[e])
    ensures AmountEnd(s, i) == e
    decreases e - i
  {
    if i < e {
      AmountEndStops(s, i + 1, e);
    }
  }

  /** When the first `$` of `s` is at `p` and a digit follows it, the amount is read from `p + 1`. */
  lemma FirstDollar(s: string, p: nat)
    requires p + 1 < |s| && s[p] == '$' && IsDigit(s[p + 1])
    requires forall k :: 0 <= k < p ==> s[k] != '$'
    ensures ExtractAmount(s) == ReadAmount(s, p + 1)
  {
    assert SkipSpaces(s, p + 1) == p + 1;
    assert AmountAt(s, p);
    assert FirstAmountAt(s, 0) == Some(p);
  }

  /** A run of digits `d` at `a`, not followed by a digit or comma, is the whole capture. */
  lemma DigitRun(s: string, a: nat, d: string)
    requires a + |d| <= |s| && s[a..a + |d|] == d
    requires forall k :: 0 <= k < |d| ==> IsDigit(d[k])
    requires a + |d| == |s| || !IsAmountChar(s[a + |d|])
    ensures AmountEnd(s, a) == a + |d| && WithoutCommas(s[a..a + |d|]) == d
  {
    forall k | a <= k < a + |d|
      ensures IsAmountChar(s[k])
    {
      assert s[k] == d[k - a];
    }
    AmountEndStops(s, a, a + |d|);
    WithoutCommasDigits(d);
  }

  /**
   * `s` has its first `$` at `p`, then the digits `d`, then `rest`, and
   * `rest` does not go on with a digit or comma.
   */
  predicate DollarText(s: string, p: nat, d: string, rest: string)
  {
    |d| > 0 && (forall k :: 0 <= k < |d| ==> IsDigit(d[k])) &&
    |s| == p + 1 + |d| + |rest| && s[p] == '$' && (forall k :: 0 <= k < p ==> s[k] != '$') &&
    s[p + 1..p + 1 + |d|] == d && s[p + 1 + |d|..] == rest &&
    (|rest| == 0 || !IsAmountChar(rest[0]))
  }

  /** `.dd` at the start of `rest`. */
  predicate CentsFirst(rest: string)
  {
    |rest| >= 3 && rest[0] == '.' && IsDigit(rest[1]) && IsDigit(rest[2])
  }

  /** `prefix + "$" + d + rest` is such a text. */
  lemma DollarLayout(prefix: string, d: string, rest: string)
    requires |d| > 0 && forall k :: 0 <= k < |d| ==> IsDigit(d[k])
    requires forall i :: 0 <= i < |prefix| ==> prefix[i] != '$'
    requires |rest| == 0 || !IsAmountChar(rest[0])
    ensures DollarText(prefix + "$" + d + rest, |prefix|, d, rest)
  {
    var s := prefix + "$" + d + rest;
    forall k | 0 <= k < |prefix|
      ensures s[k] != '$'
    {
      assert s[k] == prefix[k];
    }
    assert s[|prefix| + 1..|prefix| + 1 + |d|] == d;
    assert s[|prefix| + 1 + |d|..] == rest;
  }

  /** In such a text the digits `d` are the whole capture, and `rest` follows them. */
  lemma DollarTextDigits(s: string, p: nat, d: string, rest: string)
    requires DollarText(s, p, d, rest)
    ensures AmountEnd(s, p + 1) == p + 1 + |d| && WithoutCommas(s[p + 1..p + 1 + |d|]) == d
    ensures forall k :: 0 <= k < |rest| ==> s[p + 1 + |d| + k] == rest[k]
  {
    var e := p + 1 + |d|;
    assert forall k :: 0 <= k < |rest| ==> s[e + k] == s[e..][k];
    DigitRun(s, p + 1, d);
  }

  /** In such a text the amount is read from just after the `$`. */
  lemma DollarTextStart(s: string, p: nat, d: string, rest: string)
    requires DollarText(s, p, d, rest)
    ensures ExtractAmount(s) == ReadAmount(s, p + 1)
  {
    assert s[p + 1] == s[p + 1..p + 1 + |d|][0];
    FirstDollar(s, p);
  }

  /** ... with no `.dd` in `rest`: the whole dollars. */
  lemma ReadsWholeDollars(s: string, p: nat, d: string, rest: string)
    requires DollarText(s, p, d, rest) && !CentsFirst(rest)
    ensures ReadAmount(s, p + 1) == Some(DigitsValue(d) as real)
  {
    DollarTextDigits(s, p, d, rest);
    var e := p + 1 + |d|;
    assert !(e + 2 < |s| && s[e] == '.' && IsDigit(s[e + 1]) && IsDigit(s[e + 2])) by {
      if e + 2 < |s| {
        assert s[e] == rest[0] && s[e + 1] == rest[1] && s[e + 2] == rest[2];
      }
    }
    ReadWhole(s, p + 1, e, DigitsValue(d));
  }

  /** ... with `.dd` starting `rest`: dollars and cents. */
  lemma ReadsDollarsCents(s: string, p: nat, d: string, rest: string)
    requires DollarText(s, p, d, rest) && CentsFirst(rest)
    ensures ReadAmount(s, p + 1) ==
      Some(Dollars(DigitsValue(d), (rest[1] as int - '0' as int) * 10 + (rest[2] as int - '0' as int)))
  {
    DollarTextDigits(s, p, d, rest);
    var e := p + 1 + |d|;
    assert s[e] == rest[0] && s[e + 1] == rest[1] && s[e + 2] == rest[2];
    ReadCents(s, p + 1, e, DigitsValue(d), rest[1], rest[2]);
  }

  /** Digits up to `e` with no `.dd` after them read as whole dollars. */
  lemma ReadWhole(s: string, a: nat, e: nat, dollars: nat)
    requires a <= e <= |s| && AmountEnd(s, a) == e
    requires |WithoutCommas(s[a..e])| > 0 && DigitsValue(WithoutCommas(s[a..e])) == dollars
    requires !(e + 2 < |s| && s[e] == '.' && IsDigit(s[e + 1]) && IsDigit(s[e + 2]))
    ensures ReadAmount(s, a) == Some(dollars as real)
  {
    assert CentsAt(s, e).None?;
  }

  /**
   * `_extract_amount` reads the whole dollars written after the first `$`
   * of the text, when no cents follow them.
   */
  lemma ExtractAmountWithin(prefix: string, n: nat, rest: string)
    requires forall i :: 0 <= i < |prefix| ==> prefix[i] != '$'
    requires |rest| == 0 || !IsAmountChar(rest[0])
    requires !(|rest| >= 3 && rest[0] == '.' && IsDigit(rest[1]) && IsDigit(rest[2]))
    ensures ExtractAmount(prefix + "$" + NatToString(n) + rest) == Some(n as real)
  {
    DollarLayout(prefix, NatToString(n), rest);
    DigitsValueOfNat(n);
    DollarTextStart(prefix + "$" + NatToString(n) + rest, |prefix|, NatToString(n), rest);
    ReadsWholeDollars(prefix + "$" + NatToString(n) + rest, |prefix|, NatToString(n), rest);
  }

  /**
   * `_extract_amount` reads dollars and the two cents digits of a
   * following `.dd` written after the first `$` of the text; what follows
   * the cents is ignored.
   */
  lemma ExtractAmountWithCents(prefix: string, n: nat, rest: string)
    requires forall i :: 0 <= i < |prefix| ==> prefix[i] != '$'
    requires |rest| >= 3 && rest[0] == '.' && IsDigit(rest[1]) && IsDigit(rest[2])
    ensures ExtractAmount(prefix + "$" + NatToString(n) + rest) ==
      Some(Dollars(n, (rest[1] as int - '0' as int) * 10 + (rest[2] as int - '0' as int)))
  {
    DollarLayout(prefix, NatToString(n), rest);
    DigitsValueOfNat(n);
    DollarTextStart(prefix + "$" + NatToString(n) + rest, |prefix|, NatToString(n), rest);
    ReadsDollarsCents(prefix + "$" + NatToString(n) + rest, |prefix|, NatToString(n), rest);
  }

  /** Digits up to `e` and `.dd` after them read as dollars plus cents. */
  lemma ReadCents(s: string, a: nat, e: nat, dollars: nat, c1: char, c2: char)
    requires a <= e && e + 2 < |s| && AmountEnd(s, a) == e
    requires DigitsValue(WithoutCommas(s[a..e])) == dollars
    requires s[e] == '.' && s[e + 1] == c1 && s[e + 2] == c2 && IsDigit(c1) && IsDigit(c2)
    ensures ReadAmount(s, a) == Some(Dollars(dollars, (c1 as int - '0' as int) * 10 + (c2 as int - '0' as int)))
  {
    assert s[e + 1..e + 3] == [c1, c2];
    TwoDigitsValue(c1, c2);
    assert CentsAt(s, e) == Some((c1 as int - '0' as int) * 10 + (c2 as int - '0' as int));
  }

  lemma TwoDigitsValue(c1: char, c2: char)
    requires IsDigit(c1) && IsDigit(c2)
    ensures DigitsValue([c1, c2]) == (c1 as int - '0' as int) * 10 + (c2 as int - '0' as int)
  {
    assert [c1, c2][..1] == [c1];
    assert [c1][..0] == [];
    assert DigitsValue([c1]) == c1 as int - '0' as int;
  }

  /** An amount written only with commas after the `$` does not parse (`float('')` fails). */
  lemma CommasOnlyIsNoAmount()
    ensures ExtractAmount("$,,") == None
  {
    var s := "$,,";
    assert SkipSpaces(s, 1) == 1;
    assert AmountAt(s, 0);
    AmountEndAll(s, 1);
    assert s[1..3] == ",,";
  }
}
