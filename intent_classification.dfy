/**
 * `IntentClassifier` (intent_classifier.py): a pattern cascade that settles
 * the obvious inputs, a language-model fallback whose JSON reply is parsed
 * into the same result shape, and the classification statistics with a
 * bounded history.
 *
 * The language model is a parameter: its reply is given as a success flag
 * and the parsed JSON object, if any. Values that come from that JSON keep
 * their JSON type, since the source stores them unchecked; the comparisons
 * the statistics make on the confidence raise for non-numbers, and the model
 * says so with `None`.
 */
module IntentClassification {
  import opened Common
  import opened Json

  datatype IntentType = Question | Task | Chat | Command | Unclear

  /** `IntentType.value`. */
  function IntentName(t: IntentType): string
  {
    match t
    case Question => "question"
    case Task => "task"
    case Chat => "chat"
    case Command => "command"
    case Unclear => "unclear"
  }

  /** The handler map of `_parse_classification_result`, which the quick rules follow too. */
  function HandlerFor(t: IntentType): string
  {
    match t
    case Question => "question"
    case Task => "task"
    case Chat => "chat"
    case Command => "command"
    case Unclear => "chat"
  }

  /** `IntentResult`. */
  datatype IntentResult = IntentResult(
    intent: IntentType,
    confidence: Json,
    reasoning: Json,
    requiresDecomposition: Json,
    isSimpleQuery: Json,
    suggestedHandler: Option<string>)

  /** The confidence as a number, or `None` where comparing it raises `TypeError`. */
  function ConfidenceOf(r: IntentResult): Option<real>
  {
    if Numeric(r.confidence) then Some(NumValue(r.confidence)) else None
  }

  /** Two disjoint shares of one total add up to at most the whole. */
  lemma ShareBounds(a: nat, b: nat, total: nat)
    requires 0 < total && a + b <= total
    ensures 0.0 <= a as real / total as real && 0.0 <= b as real / total as real
    ensures a as real / total as real + b as real / total as real <= 1.0
    ensures a as real / total as real * total as real == a as real
    ensures b as real / total as real * total as real == b as real
  {
    assert a as real / total as real + b as real / total as real == (a + b) as real / total as real;
    assert (a + b) as real / total as real * total as real == (a + b) as real;
  }

  // ------------------------------------------------------ quick rules

  const CommandWords: seq<string> := ["help", "status", "exit", "quit", "clear"]
  const Greetings: seq<string> := ["hi", "hello", "hey", "good morning", "good afternoon", "good evening"]
  const QuestionWords: seq<string> := ["what", "when", "where", "who", "why", "how", "which", "can you tell me"]
  const TaskVerbs: seq<string> := ["create", "make", "build", "write", "generate", "find", "search", "organize"]

  /** `any(text.startswith(w) for w in words)`. */
  predicate StartsWithAny(text: string, words: seq<string>)
  {
    exists i :: 0 <= i < |words| && StartsWith(text, words[i])
  }

  /** The text the quick rules look at: lowercased, then stripped. */
  function Normalised(userInput: string): string
  {
    Strip(LowerStr(userInput))
  }

  function Quick(t: IntentType, confidence: real, reasoning: string, decompose: bool, simple: bool): (r: IntentResult)
    ensures r.intent == t && r.suggestedHandler == Some(HandlerFor(t)) && r.confidence == JNum(confidence)
    ensures ConfidenceOf(r) == Some(confidence)
  {
    IntentResult(t, JNum(confidence), JStr(reasoning), JBool(decompose), JBool(simple), Some(HandlerFor(t)))
  }

  predicate IsGreeting(text: string)
  {
    text in Greetings || StartsWithAny(text, Greetings)
  }

  predicate IsSimpleQuestion(text: string)
  {
    StartsWithAny(text, QuestionWords) && Contains(text, "?")
  }

  /** Whether a task needs decomposition: more than ten words, or an "and" or "then" between words. */
  predicate NeedsDecomposition(text: string)
  {
    |Split(text)| > 10 || Contains(text, " and ") || Contains(text, " then ")
  }

  predicate IsShortChat(text: string)
  {
    |Split(text)| <= 3 && !EndsWith(text, "?")
  }

  /** `_quick_classify`: the first rule that applies, or `None` to defer to the language model. */
  function QuickClassify(userInput: string): (r: Option<IntentResult>)
    ensures r.Some? ==> r.value.intent != Unclear && r.value.suggestedHandler == Some(HandlerFor(r.value.intent))
    ensures r.Some? ==> ConfidenceOf(r.value).Some? && ConfidenceOf(r.value).value >= 0.7
  {
    var text := Normalised(userInput);
    if text in CommandWords then
      Some(Quick(Command, 1.0, "Direct system command", false, false))
    else if IsGreeting(text) then
      Some(Quick(Chat, 0.95, "Simple greeting", false, false))
    else if IsSimpleQuestion(text) then
      Some(Quick(Question, 0.85, "Clear question format", false, true))
    else if StartsWithAny(text, TaskVerbs) then
      Some(Quick(Task, 0.75, "Starts with action verb", NeedsDecomposition(text), false))
    else if IsShortChat(text) then
      Some(Quick(Chat, 0.7, "Very short input, likely conversational", false, false))
    else
      None
  }

  /**
   * Greetings are tried right after the command words and matched as bare
   * prefixes: any text beginning with "hi" or "hey" is answered as a greeting,
   * whatever the later rules would have said.
   */
  lemma GreetingBeforeQuestion(userInput: string)
    requires Normalised(userInput) !in CommandWords && IsGreeting(Normalised(userInput))
    ensures QuickClassify(userInput).Some?
    ensures QuickClassify(userInput).value.intent == Chat
    ensures QuickClassify(userInput).value.confidence == JNum(0.95)
  {
  }

  /** A task result asks for decomposition exactly when the text is long or chains steps. */
  lemma TaskDecomposition(userInput: string)
    requires QuickClassify(userInput).Some? && QuickClassify(userInput).value.intent == Task
    ensures QuickClassify(userInput).value.requiresDecomposition == JBool(NeedsDecomposition(Normalised(userInput)))
    ensures StartsWithAny(Normalised(userInput), TaskVerbs)
  {
    var text := Normalised(userInput);
    if text in CommandWords {
    } else if IsGreeting(text) {
    } else if IsSimpleQuestion(text) {
    } else if StartsWithAny(text, TaskVerbs) {
    } else {
    }
  }

  /** The quick rules defer exactly when none of them applies. */
  lemma QuickDefers(userInput: string)
    ensures var text := Normalised(userInput);
      QuickClassify(userInput).None? <==>
        text !in CommandWords && !IsGreeting(text) && !IsSimpleQuestion(text) &&
        !StartsWithAny(text, TaskVerbs) && !IsShortChat(text)
  {
  }

  /** Anything the quick rules settle is confident and needs no clarification. */
  lemma QuickIsConfident(userInput: string)
    requires QuickClassify(userInput).Some?
    ensures IsConfident(QuickClassify(userInput).value, 0.7) == Some(true)
    ensures NeedsClarification(QuickClassify(userInput).value) == Some(false)
  {
  }

  // ------------------------------------------------- model classification

  /** What `execute_prompt` returned: its success flag and the parsed JSON object, if any. */
  datatype LlmReply = LlmReply(success: bool, parsedJson: Option<map<string, Json>>)

  function IntentOfName(name: string): (t: IntentType)
    ensures t != Unclear ==> IntentName(t) == name
    ensures name !in {"question", "task", "chat", "command"} ==> t == Unclear
  {
    if name == "question" then Question
    else if name == "task" then Task
    else if name == "chat" then Chat
    else if name == "command" then Command
    else Unclear
  }

  /**
   * `_parse_classification_result`: an intent that is not a string makes
   * `lower()` raise, which is caught and gives `None`.
   */
  function ParseClassification(llm: map<string, Json>): (r: Option<IntentResult>)
    ensures r.Some? <==> GetKey(llm, "intent", JStr("unclear")).JStr?
    ensures r.Some? ==> r.value.suggestedHandler == Some(HandlerFor(r.value.intent))
    ensures r.Some? ==> r.value.intent == IntentOfName(LowerStr(GetKey(llm, "intent", JStr("unclear")).s))
  {
    var intent := GetKey(llm, "intent", JStr("unclear"));
    if !intent.JStr? then None
    else
      var t := IntentOfName(LowerStr(intent.s));
      Some(IntentResult(t,
        GetKey(llm, "confidence", JNum(0.5)),
        GetKey(llm, "reasoning", JStr("No reasoning provided")),
        GetKey(llm, "requires_decomposition", JBool(false)),
        GetKey(llm, "is_simple_query", JBool(false)),
        Some(HandlerFor(t))))
  }

  /** An intent the model names outside the four known ones becomes `Unclear`, handled as chat. */
  lemma UnknownIntentIsUnclear(llm: map<string, Json>, name: string)
    requires "intent" in llm && llm["intent"] == JStr(name)
    requires LowerStr(name) !in {"question", "task", "chat", "command"}
    ensures ParseClassification(llm).Some?
    ensures ParseClassification(llm).value.intent == Unclear
    ensures ParseClassification(llm).value.suggestedHandler == Some("chat")
  {
  }

  /** `_llm_classify`: a failed call or an empty or missing payload gives `None`. */
  function LlmClassify(reply: LlmReply): (r: Option<IntentResult>)
    ensures !reply.success || reply.parsedJson.None? || reply.parsedJson.value == map[] ==> r.None?
    ensures r.Some? ==> r.value.suggestedHandler == Some(HandlerFor(r.value.intent))
  {
    if !reply.success || reply.parsedJson.None? || reply.parsedJson.value == map[] then None
    else ParseClassification(reply.parsedJson.value)
  }

  const Fallback: IntentResult :=
    IntentResult(Unclear, JNum(0.0), JStr("Classification failed"), JBool(false), JBool(false), Some("chat"))

  /**
   * The result `classify` settles on: the quick rules, else the model, else
   * the fallback. Whatever path decides, the suggested handler is the one
   * for the intent.
   */
  function Outcome(userInput: string, reply: LlmReply): (r: IntentResult)
    ensures r.suggestedHandler == Some(HandlerFor(r.intent))
  {
    Settle(QuickClassify(userInput), reply)
  }

  /** The choice between a quick result, the model's result and the fallback. */
  function Settle(quick: Option<IntentResult>, reply: LlmReply): (r: IntentResult)
    requires quick.Some? ==> quick.value.suggestedHandler == Some(HandlerFor(quick.value.intent))
    ensures r.suggestedHandler == Some(HandlerFor(r.intent))
    ensures quick.Some? ==> r == quick.value
    ensures quick.None? && LlmClassify(reply).Some? ==> r == LlmClassify(reply).value
    ensures quick.None? && LlmClassify(reply).None? ==> r == Fallback
  {
    match quick
    case Some(q) => q
    case None =>
      match LlmClassify(reply)
      case Some(l) => l
      case None => Fallback
  }

  /** The model is asked only when the quick rules defer, and an unusable reply falls back to `Unclear`. */
  lemma OutcomeSources(userInput: string, reply: LlmReply)
    ensures QuickClassify(userInput).Some? ==> Outcome(userInput, reply) == QuickClassify(userInput).value
    ensures QuickClassify(userInput).None? && LlmClassify(reply).None? ==>
              Outcome(userInput, reply).intent == Unclear &&
              Outcome(userInput, reply).confidence == JNum(0.0) &&
              NeedsClarification(Outcome(userInput, reply)) == Some(true)
    ensures Outcome(userInput, reply).intent == Unclear ==>
              QuickClassify(userInput).None? && Outcome(userInput, reply).suggestedHandler == Some("chat")
  {
    var q := QuickClassify(userInput);
    if q.None? {
      var l := LlmClassify(reply);
      assert Outcome(userInput, reply) == if l.Some? then l.value else Fallback;
    } else {
      assert Outcome(userInput, reply) == q.value;
    }
  }

  /** Only a model reply can carry a confidence the statistics cannot compare. */
  lemma OnlyModelRaises(userInput: string, reply: LlmReply)
    requires ConfidenceOf(Outcome(userInput, reply)).None?
    ensures QuickClassify(userInput).None? && LlmClassify(reply).Some?
  {
  }

  // --------------------------------------------------- confidence helpers

  /** `is_confident`; `None` where the comparison raises. */
  function IsConfident(r: IntentResult, threshold: real): (b: Option<bool>)
    ensures b.Some? <==> ConfidenceOf(r).Some?
    ensures b == Some(true) <==> ConfidenceOf(r).Some? && ConfidenceOf(r).value >= threshold
  {
    match ConfidenceOf(r)
    case None => None
    case Some(c) => Some(c >= threshold)
  }

  /** `needs_clarification`: an unclear intent short-circuits before the confidence is compared. */
  function NeedsClarification(r: IntentResult): (b: Option<bool>)
    ensures r.intent == Unclear ==> b == Some(true)
    ensures r.intent != Unclear ==> (b.Some? <==> ConfidenceOf(r).Some?)
    ensures b == Some(true) <==> r.intent == Unclear || (ConfidenceOf(r).Some? && ConfidenceOf(r).value < 0.5)
  {
    if r.intent == Unclear then Some(true)
    else match ConfidenceOf(r)
      case None => None
      case Some(c) => Some(c < 0.5)
  }

  // ----------------------------------------------------------- statistics

  const MaxHistory: nat := 100
  const HighConfidence: real := 0.8
  const LowConfidence: real := 0.5

  /** One history entry; the timestamp is not part of this model. */
  datatype HistoryEntry = HistoryEntry(intent: string, confidence: real, reasoning: Json)

  /** What `get_stats` reports once anything has been classified. */
  datatype ClassifierStats = ClassifierStats(
    total: nat, byIntent: map<string, nat>, highRate: real, lowRate: real, avgConfidence: real)

  function SumConfidence(h: seq<HistoryEntry>): real
  {
    if |h| == 0 then 0.0 else SumConfidence(h[..|h| - 1]) + h[|h| - 1].confidence
  }

  class IntentClassifier {
    var total: nat
    var byIntent: map<string, nat>
    var high: nat
    var low: nat
    var history: seq<HistoryEntry>

    /** At most one of the two confidence counters moves per classification, and the history is bounded. */
    ghost predicate Valid()
      reads this
    {
      high + low <= total && |history| <= MaxHistory
    }

    constructor ()
      ensures Valid()
      ensures total == 0 && byIntent == map[] && high == 0 && low == 0 && history == []
    {
      total := 0;
      byIntent := map[];
      high := 0;
      low := 0;
      history := [];
    }

    /**
     * The statistics after one `_update_stats` of `result`: the total and
     * the intent's own count rise by one; `ok` is false exactly when the
     * confidence is not a number, and then nothing else moves; otherwise a
     * confidence of at least 0.8 counts as high, one below 0.5 as low, and
     * the entry joins a history that keeps its last 100 entries.
     */
    twostate predicate Counted(result: IntentResult, ok: bool)
      reads this
    {
      && total == old(total) + 1
      && (var name := IntentName(result.intent);
          byIntent == old(byIntent)[name := (if name in old(byIntent) then old(byIntent)[name] else 0) + 1])
      && (ok <==> ConfidenceOf(result).Some?)
      && (!ok ==> high == old(high) && low == old(low) && history == old(history))
      && (ok ==> var c := ConfidenceOf(result).value;
            high == old(high) + (if c >= HighConfidence then 1 else 0) &&
            low == old(low) + (if c < LowConfidence then 1 else 0) &&
            history == LastN(old(history) + [HistoryEntry(IntentName(result.intent), c, result.reasoning)], MaxHistory))
    }

    /**
     * `_update_stats`. The total and the per-intent count move first; a
     * confidence that cannot be compared then raises (`ok` is false) and
     * nothing else changes.
     */
    method UpdateStats(result: IntentResult) returns (ok: bool)
      requires Valid()
      modifies this
      ensures Valid()
      ensures Counted(result, ok)
    {
      total := total + 1;
      var name := IntentName(result.intent);
      var count := if name in byIntent then byIntent[name] else 0;
      byIntent := byIntent[name := count + 1];
      var c := ConfidenceOf(result);
      if c.None? {
        return false;
      }
      if c.value >= HighConfidence {
        high := high + 1;
      } else if c.value < LowConfidence {
        low := low + 1;
      }
      history := history + [HistoryEntry(name, c.value, result.reasoning)];
      if |history| > MaxHistory {
        history := history[|history| - MaxHistory..];
      }
      ok := true;
    }

    /**
     * `classify`: the statistics are updated exactly once, whichever path
     * decides. `None` means the update raised on the model's confidence.
     */
    method Classify(userInput: string, reply: LlmReply) returns (r: Option<IntentResult>)
      requires Valid()
      modifies this
      ensures Valid()
      ensures Counted(Outcome(userInput, reply), r.Some?)
      ensures r.Some? ==> r.value == Outcome(userInput, reply)
      ensures QuickClassify(userInput).Some? ==> r == QuickClassify(userInput)
    {
      var result: IntentResult;
      var quick := QuickClassify(userInput);
      if quick.Some? {
        result := quick.value;
      } else {
        var llm := LlmClassify(reply);
        result := if llm.Some? then llm.value else Fallback;
      }
      assert result == Outcome(userInput, reply);
      var ok := UpdateStats(result);
      if ok {
        r := Some(result);
      } else {
        r := None;
      }
    }

    /** `get_stats`: `None` stands for the "No classifications yet" answer. */
    function GetStats(): (s: Option<ClassifierStats>)
      requires Valid()
      reads this
      ensures s.None? <==> total == 0
      ensures s.Some? ==> 0.0 <= s.value.highRate && 0.0 <= s.value.lowRate
      ensures s.Some? ==> s.value.highRate + s.value.lowRate <= 1.0
      ensures s.Some? ==> s.value.total == total && s.value.byIntent == byIntent
      ensures s.Some? ==> s.value.highRate * total as real == high as real && s.value.lowRate * total as real == low as real
      ensures s.Some? && |history| > 0 ==> s.value.avgConfidence * |history| as real == SumConfidence(history)
      ensures s.Some? && |history| == 0 ==> s.value.avgConfidence == 0.0
    {
      if total == 0 then None
      else
        ShareBounds(high, low, total);
        assert |history| > 0 ==> SumConfidence(history) / |history| as real * |history| as real == SumConfidence(history);
        Some(ClassifierStats(total, byIntent, high as real / total as real, low as real / total as real,
          if |history| > 0 then SumConfidence(history) / |history| as real else 0.0))
    }
  }
}
