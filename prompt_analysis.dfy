/**
 * `PromptAnalyzer` (prompt_analyzer.py): the guards before a prompt is sent
 * for analysis, the record of analyses, the per-prompt performance tracking
 * with its degradation check, and the application of proposed changes as a
 * new runtime version of the prompt.
 *
 * The runtime and boot prompt tables belong to the core in the source; here
 * they are fields of the analyzer, which reads both and writes the runtime
 * one. The language model is a parameter: its reply is the success flag and
 * the parsed JSON object. Clocks become string parameters.
 */
module PromptAnalysis {
  import opened Common
  import opened Json
  import IC = IntentClassification

  type Prompt = map<string, Json>

  // ------------------------------------------------------------ lookups

  /** `_get_current_prompt`: the runtime override wins over the boot prompt. */
  function CurrentIn(runtime: map<string, Prompt>, boot: map<string, Prompt>, id: string): (r: Option<Prompt>)
    ensures id in runtime ==> r == Some(runtime[id])
    ensures id !in runtime && id in boot ==> r == Some(boot[id])
    ensures r.None? <==> id !in runtime && id !in boot
  {
    if id in runtime then Some(runtime[id])
    else if id in boot then Some(boot[id])
    else None
  }

  /** `_get_prompt_version`: the prompt's `version`, or 1 when there is no prompt or it is empty. */
  function VersionIn(runtime: map<string, Prompt>, boot: map<string, Prompt>, id: string): (v: Json)
    ensures CurrentIn(runtime, boot, id).None? ==> v == JNum(1.0)
    ensures CurrentIn(runtime, boot, id).Some? && "version" in CurrentIn(runtime, boot, id).value ==>
              v == CurrentIn(runtime, boot, id).value["version"]
    ensures CurrentIn(runtime, boot, id).Some? && "version" !in CurrentIn(runtime, boot, id).value ==>
              v == JNum(1.0)
  {
    match CurrentIn(runtime, boot, id)
    case None => JNum(1.0)
    case Some(p) => if p == map[] then JNum(1.0) else GetKey(p, "version", JNum(1.0))
  }

  /** `current_prompt.get("immutable", True)`: a prompt without the flag is immutable. */
  predicate Immutable(p: Prompt)
  {
    Truthy(GetKey(p, "immutable", JBool(true)))
  }

  // ----------------------------------------------------------- analysis

  datatype AnalysisEntry = AnalysisEntry(promptId: string, feedback: Option<string>, analysis: map<string, Json>)

  datatype AnalysisOutcome =
    | PromptNotFound
    | PromptImmutable
    | AnalysisFailed
    | Analysed(analysis: map<string, Json>)

  /** The answer `analyze_and_improve` gives before the model is asked, if any. */
  function Refusal(current: Option<Prompt>): (r: Option<AnalysisOutcome>)
    ensures current.None? ==> r == Some(PromptNotFound)
    ensures current.Some? && current.value != map[] ==>
              (r == Some(PromptImmutable) <==> Immutable(current.value))
    ensures r.None? <==> current.Some? && current.value != map[] && !Immutable(current.value)
  {
    if current.None? || current.value == map[] then Some(PromptNotFound)
    else if Immutable(current.value) then Some(PromptImmutable)
    else None
  }

  /** A reply `_llm_analyze_prompt` keeps: a successful call with a non-empty JSON object. */
  predicate Usable(reply: IC.LlmReply)
  {
    reply.success && reply.parsedJson.Some? && reply.parsedJson.value != map[]
  }

  /** The index of the most recent entry for a prompt. */
  function LatestIndex(history: seq<AnalysisEntry>, id: string): (r: Option<nat>)
    ensures r.Some? ==> r.value < |history| && history[r.value].promptId == id
    ensures r.Some? ==> forall k :: r.value < k < |history| ==> history[k].promptId != id
    ensures r.None? ==> forall k :: 0 <= k < |history| ==> history[k].promptId != id
  {
    if |history| == 0 then None
    else if history[|history| - 1].promptId == id then Some(|history| - 1)
    else LatestIndex(history[..|history| - 1], id)
  }

  /** `_get_latest_analysis`. */
  function LatestAnalysis(history: seq<AnalysisEntry>, id: string): Option<map<string, Json>>
  {
    match LatestIndex(history, id)
    case None => None
    case Some(i) => Some(history[i].analysis)
  }

  /** A new analysis becomes the latest for its prompt and leaves the other prompts' latest alone. */
  lemma LatestAfterRecord(history: seq<AnalysisEntry>, e: AnalysisEntry, id: string)
    ensures id == e.promptId ==> LatestAnalysis(history + [e], id) == Some(e.analysis)
    ensures id != e.promptId ==> LatestAnalysis(history + [e], id) == LatestAnalysis(history, id)
  {
    assert (history + [e])[..|history|] == history;
  }

  // -------------------------------------------------------- performance

  /** The prompt manager's counters for one prompt; a missing counter reads as zero. */
  datatype PromptStats = PromptStats(calls: nat, errors: nat, avgMs: real, avgTokens: real)

  datatype Performance =
    | NoManager
    | Measured(version: Json, totalCalls: nat, successRate: real, avgTimeMs: real, avgTokens: real)

  /**
   * `_gather_performance_data`; `byPrompt` is `None` without a prompt
   * manager, and a prompt the manager has not seen has all counters zero.
   */
  function GatherPerformance(byPrompt: Option<map<string, PromptStats>>, id: string, version: Json): (r: Performance)
    ensures r.NoManager? <==> byPrompt.None?
    ensures byPrompt.Some? && id in byPrompt.value ==>
      var s := byPrompt.value[id];
      r.version == version && r.totalCalls == s.calls && r.avgTimeMs == s.avgMs && r.avgTokens == s.avgTokens &&
      (s.calls > 0 ==> (1.0 - r.successRate) * s.calls as real == s.errors as real) &&
      (s.calls == 0 ==> r.successRate == 1.0 - s.errors as real)
    ensures byPrompt.Some? && id !in byPrompt.value ==>
      r == Measured(version, 0, 1.0, 0.0, 0.0)
  {
    match byPrompt
    case None => NoManager
    case Some(m) =>
      var s := if id in m then m[id] else PromptStats(0, 0, 0.0, 0.0);
      var denominator := if s.calls > 1 then s.calls else 1;
      Measured(version, s.calls, 1.0 - s.errors as real / denominator as real, s.avgMs, s.avgTokens)
  }

  /** The success rate is a share when errors never outnumber calls; no calls read as a perfect record. */
  lemma SuccessRateBounds(m: map<string, PromptStats>, id: string, version: Json)
    requires id in m ==> m[id].errors <= m[id].calls
    ensures 0.0 <= GatherPerformance(Some(m), id, version).successRate <= 1.0
    ensures id !in m ==> GatherPerformance(Some(m), id, version).successRate == 1.0
    ensures id in m && m[id].errors == 0 ==> GatherPerformance(Some(m), id, version).successRate == 1.0
    ensures id in m && 0 < m[id].errors == m[id].calls ==> GatherPerformance(Some(m), id, version).successRate == 0.0
    ensures id in m && m[id].calls > 0 ==>
      GatherPerformance(Some(m), id, version).successRate * m[id].calls as real == (m[id].calls - m[id].errors) as real
  {
    if id in m {
      var s := m[id];
      var d := if s.calls > 1 then s.calls else 1;
      RatioBounds(s.errors, d);
    }
  }

  /** One failure as the meta-prompt sees it; a missing key is `None`. */
  datatype Failure = Failure(failureType: Option<string>, error: Option<string>)

  const MaxFailuresShown: nat := 5

  function OrElse(o: Option<string>, default: string): string
  {
    if o.Some? then o.value else default
  }

  /** Line `n` of the failure list. */
  function FailureLine(n: nat, f: Failure): (line: string)
    ensures |line| > 0 && '0' <= line[0] <= '9'
  {
    NatToString(n) + ". [" + OrElse(f.failureType, "unknown") + "] " + OrElse(f.error, "No description")
  }

  /** The numbered lines for `failures`, counting from `from`. */
  function FailureLines(failures: seq<Failure>, from: nat): (lines: seq<string>)
    ensures |lines| == |failures|
    ensures forall i :: 0 <= i < |failures| ==> lines[i] == FailureLine(from + i, failures[i])
  {
    if |failures| == 0 then [] else [FailureLine(from, failures[0])] + FailureLines(failures[1..], from + 1)
  }

  const NoFailures: string := "No recent failures"

  /** `_format_failures`. */
  function FormatFailures(failures: seq<Failure>): string
  {
    if |failures| == 0 then NoFailures
    else Join(FailureLines(Take(failures, MaxFailuresShown), 1), "\n")
  }

  /** The failure text lists the first five failures, numbered from one, and is the placeholder only when there are none. */
  lemma FormatFailuresShape(failures: seq<Failure>)
    ensures FormatFailures(failures) == NoFailures <==> |failures| == 0
    ensures |failures| > 0 ==>
              FormatFailures(failures) == Join(FailureLines(Take(failures, MaxFailuresShown), 1), "\n")
    ensures |FailureLines(Take(failures, MaxFailuresShown), 1)| == if |failures| < 5 then |failures| else 5
  {
    if |failures| > 0 {
      var lines := FailureLines(Take(failures, MaxFailuresShown), 1);
      JoinStartsWithFirst(lines, "\n");
      assert FormatFailures(failures)[0] == lines[0][0];
      assert '0' <= lines[0][0] <= '9';
      assert NoFailures[0] == 'N';
    }
  }

  lemma JoinStartsWithFirst(parts: seq<string>, sep: string)
    requires |parts| > 0 && |parts[0]| > 0
    ensures |Join(parts, sep)| > 0 && Join(parts, sep)[0] == parts[0][0]
  {
  }

  // --------------------------------------------------------- tracking

  datatype ExecutionData = ExecutionData(success: bool, elapsedMs: real, tokens: real, error: Option<string>)

  datatype Execution = Execution(success: bool, timeMs: real, tokens: real, error: Option<string>)

  datatype Tracking = Tracking(currentVersion: Json, executions: seq<Execution>,
                               successCount: nat, failureCount: nat, totalTimeMs: real, totalTokens: real)

  predicate TrackingValid(t: Tracking)
  {
    t.successCount + t.failureCount == |t.executions|
  }

  /** What one `track_performance` call does to a prompt's record. */
  function Recorded(t: Tracking, data: ExecutionData): (r: Tracking)
    ensures r.executions == t.executions + [Execution(data.success, data.elapsedMs, data.tokens, data.error)]
    ensures r.currentVersion == t.currentVersion
    ensures data.success ==> r.successCount == t.successCount + 1 && r.failureCount == t.failureCount
    ensures !data.success ==> r.failureCount == t.failureCount + 1 && r.successCount == t.successCount
    ensures r.totalTimeMs == t.totalTimeMs + data.elapsedMs && r.totalTokens == t.totalTokens + data.tokens
    ensures TrackingValid(t) ==> TrackingValid(r)
  {
    var e := Execution(data.success, data.elapsedMs, data.tokens, data.error);
    if data.success then
      t.(executions := t.executions + [e], successCount := t.successCount + 1,
         totalTimeMs := t.totalTimeMs + data.elapsedMs, totalTokens := t.totalTokens + data.tokens)
    else
      t.(executions := t.executions + [e], failureCount := t.failureCount + 1,
         totalTimeMs := t.totalTimeMs + data.elapsedMs, totalTokens := t.totalTokens + data.tokens)
  }

  function Succeeded(e: Execution): bool { e.success }

  /** The number of successes in the last ten executions, and in the ten before those. */
  function RecentSuccesses(execs: seq<Execution>): nat
    requires |execs| >= 20
  {
    Count(execs[|execs| - 10..], Succeeded)
  }

  function PreviousSuccesses(execs: seq<Execution>): nat
    requires |execs| >= 20
  {
    Count(execs[|execs| - 20..|execs| - 10], Succeeded)
  }

  /** `_check_performance_degradation`: the success share of the last ten fell more than 0.15 below the ten before. */
  predicate DegradationDetected(execs: seq<Execution>)
  {
    |execs| >= 20 &&
    RecentSuccesses(execs) as real / 10.0 < PreviousSuccesses(execs) as real / 10.0 - 0.15
  }

  /** With shares in tenths, a drop of more than 0.15 means at least two fewer successes. */
  lemma DegradationMeansTwoFewer(execs: seq<Execution>)
    ensures DegradationDetected(execs) <==>
              |execs| >= 20 && RecentSuccesses(execs) + 2 <= PreviousSuccesses(execs)
  {
    if |execs| >= 20 {
      var r := RecentSuccesses(execs);
      var p := PreviousSuccesses(execs);
      assert r as real / 10.0 < p as real / 10.0 - 0.15 <==> (r as real) < p as real - 1.5;
    }
  }

  // -------------------------------------------------------------- apply

  /** One proposed change; a missing key reads as the empty string. */
  datatype Change = Change(changeType: string, original: string, newText: string)

  /** One step of the `apply_changes` loop. */
  function ApplyOne(text: string, c: Change): string
  {
    if c.changeType == "modify" && c.original != "" then ReplaceAll(text, c.original, c.newText)
    else if c.changeType == "add" then text + "\n" + c.newText
    else text
  }

  /** The text after applying `changes` in order. */
  function AppliedText(text: string, changes: seq<Change>): string
  {
    if |changes| == 0 then text
    else ApplyOne(AppliedText(text, changes[..|changes| - 1]), changes[|changes| - 1])
  }

  /** What a run of "add" changes appends. */
  function Additions(changes: seq<Change>): string
  {
    if |changes| == 0 then ""
    else Additions(changes[..|changes| - 1]) + "\n" + changes[|changes| - 1].newText
  }

  /** Changes that are neither a modification with an original nor an addition leave the text alone. */
  lemma {:induction false} IgnoredChangesKeepText(text: string, changes: seq<Change>)
    requires forall i :: 0 <= i < |changes| ==>
               changes[i].changeType != "add" && (changes[i].changeType != "modify" || changes[i].original == "")
    ensures AppliedText(text, changes) == text
  {
    if |changes| > 0 {
      IgnoredChangesKeepText(text, changes[..|changes| - 1]);
    }
  }

  /** Additions only append, each on a new line, in order. */
  lemma {:induction false} AdditionsAppend(text: string, changes: seq<Change>)
    requires forall i :: 0 <= i < |changes| ==> changes[i].changeType == "add"
    ensures AppliedText(text, changes) == text + Additions(changes)
  {
    if |changes| > 0 {
      AdditionsAppend(text, changes[..|changes| - 1]);
    }
  }

  /** `new_version`: `version + 1`, or `None` where the addition raises for a non-number. */
  function NextVersion(v: Json): (r: Option<real>)
    ensures r.Some? <==> Numeric(v)
    ensures r.Some? ==> r.value == NumValue(v) + 1.0
  {
    if Numeric(v) then Some(NumValue(v) + 1.0) else None
  }

  /** The runtime override `apply_changes` stores. */
  function AppliedRecord(id: string, version: real, text: string, now: string, count: nat, previous: Json): (p: Prompt)
    ensures p.Keys == {"id", "version", "template", "immutable", "modified_at", "changes_applied", "previous_version"}
    ensures p["version"] == JNum(version) && p["template"] == JStr(text) && p["immutable"] == JBool(false)
  {
    map["id" := JStr(id), "version" := JNum(version), "template" := JStr(text), "immutable" := JBool(false),
        "modified_at" := JStr(now), "changes_applied" := JNum(count as real), "previous_version" := previous]
  }

  /** After a change is applied, the new record is the current prompt, it may be analysed, and its version is the one stored. */
  lemma AppliedIsCurrent(runtime: map<string, Prompt>, boot: map<string, Prompt>, id: string,
                         version: real, text: string, now: string, count: nat, previous: Json)
    ensures var p := AppliedRecord(id, version, text, now, count, previous);
      CurrentIn(runtime[id := p], boot, id) == Some(p) &&
      Refusal(CurrentIn(runtime[id := p], boot, id)).None? &&
      VersionIn(runtime[id := p], boot, id) == JNum(version)
  {
    var p := AppliedRecord(id, version, text, now, count, previous);
    assert "immutable" in p && p != map[];
  }

  datatype ApplyOutcome = ApplyNotFound | VersionNotNumeric | Applied(newVersion: real)

  /** The template of a prompt; a template that is not a string reads as empty. */
  function TemplateOf(p: Prompt): string
  {
    var t := GetKey(p, "template", JStr(""));
    if t.JStr? then t.s else ""
  }

  /** The change loop of `apply_changes`. */
  method ApplyAll(text: string, changes: seq<Change>) returns (newText: string)
    ensures newText == AppliedText(text, changes)
  {
    newText := text;
    for i := 0 to |changes|
      invariant newText == AppliedText(text, changes[..i])
    {
      assert changes[..i + 1][..i] == changes[..i];
      newText := ApplyOne(newText, changes[i]);
    }
    assert changes[..|changes|] == changes;
  }

  // ------------------------------------------------------------ analyzer

  class PromptAnalyzer {
    var runtimePrompts: map<string, Prompt>
    var bootPrompts: map<string, Prompt>
    var analysisHistory: seq<AnalysisEntry>
    var versionHistory: map<string, Tracking>

    /** Every tracked prompt has counted each execution exactly once. */
    predicate Valid()
      reads this
    {
      forall id :: id in versionHistory ==> TrackingValid(versionHistory[id])
    }

    constructor(runtime: map<string, Prompt>, boot: map<string, Prompt>)
      ensures Valid()
      ensures runtimePrompts == runtime && bootPrompts == boot
      ensures analysisHistory == [] && versionHistory == map[]
    {
      runtimePrompts := runtime;
      bootPrompts := boot;
      analysisHistory := [];
      versionHistory := map[];
    }

    function CurrentPrompt(id: string): Option<Prompt>
      reads this
    {
      CurrentIn(runtimePrompts, bootPrompts, id)
    }

    /**
     * `analyze_and_improve`: a missing or empty prompt and an immutable one
     * are refused before the model is asked; a usable reply is recorded.
     */
    method AnalyzeAndImprove(id: string, feedback: Option<string>, reply: IC.LlmReply) returns (outcome: AnalysisOutcome)
      modifies this
      ensures runtimePrompts == old(runtimePrompts) && bootPrompts == old(bootPrompts)
      ensures versionHistory == old(versionHistory)
      ensures Refusal(old(CurrentPrompt(id))).Some? ==>
                outcome == Refusal(old(CurrentPrompt(id))).value && analysisHistory == old(analysisHistory)
      ensures Refusal(old(CurrentPrompt(id))).None? && Usable(reply) ==>
                outcome == Analysed(reply.parsedJson.value) &&
                analysisHistory == old(analysisHistory) + [AnalysisEntry(id, feedback, reply.parsedJson.value)]
      ensures Refusal(old(CurrentPrompt(id))).None? && !Usable(reply) ==>
                outcome == AnalysisFailed && analysisHistory == old(analysisHistory)
    {
      var refusal := Refusal(CurrentPrompt(id));
      if refusal.Some? {
        return refusal.value;
      }
      if Usable(reply) {
        analysisHistory := analysisHistory + [AnalysisEntry(id, feedback, reply.parsedJson.value)];
        outcome := Analysed(reply.parsedJson.value);
      } else {
        outcome := AnalysisFailed;
      }
    }

    /**
     * `track_performance`: starts a record at the prompt's current version
     * if there is none, then records one execution; `degraded` is what the
     * degradation check would warn about.
     */
    method TrackPerformance(id: string, data: ExecutionData) returns (degraded: bool)
      requires Valid()
      modifies this
      ensures Valid()
      ensures runtimePrompts == old(runtimePrompts) && bootPrompts == old(bootPrompts)
      ensures analysisHistory == old(analysisHistory)
      ensures var start := if id in old(versionHistory) then old(versionHistory)[id]
                           else Tracking(old(VersionIn(runtimePrompts, bootPrompts, id)), [], 0, 0, 0.0, 0.0);
              versionHistory == old(versionHistory)[id := Recorded(start, data)]
      ensures degraded == DegradationDetected(versionHistory[id].executions)
    {
      var start := if id in versionHistory then versionHistory[id]
                   else Tracking(VersionIn(runtimePrompts, bootPrompts, id), [], 0, 0, 0.0, 0.0);
      var t := Recorded(start, data);
      versionHistory := versionHistory[id := t];
      degraded := DegradationDetected(t.executions);
    }

    /** `apply_changes`, apart from the backup file. */
    method ApplyChanges(id: string, changes: seq<Change>, now: string) returns (outcome: ApplyOutcome)
      modifies this
      ensures bootPrompts == old(bootPrompts) && analysisHistory == old(analysisHistory)
      ensures versionHistory == old(versionHistory)
      ensures outcome == ApplyNotFound <==> old(CurrentPrompt(id)).None? || old(CurrentPrompt(id)) == Some(map[])
      ensures outcome == ApplyNotFound ==> runtimePrompts == old(runtimePrompts)
      ensures outcome == VersionNotNumeric <==>
                old(CurrentPrompt(id)).Some? && old(CurrentPrompt(id)) != Some(map[]) &&
                NextVersion(old(VersionIn(runtimePrompts, bootPrompts, id))).None?
      ensures outcome == VersionNotNumeric ==> runtimePrompts == old(runtimePrompts)
      ensures outcome.Applied? ==>
                var current := old(CurrentPrompt(id)).value;
                outcome.newVersion == NumValue(old(VersionIn(runtimePrompts, bootPrompts, id))) + 1.0 &&
                runtimePrompts == old(runtimePrompts)[id := AppliedRecord(id, outcome.newVersion,
                  AppliedText(TemplateOf(current), changes), now, |changes|, GetKey(current, "version", JNum(1.0)))]
    {
      var current := CurrentPrompt(id);
      if current.None? || current.value == map[] {
        return ApplyNotFound;
      }
      var text := ApplyAll(TemplateOf(current.value), changes);
      var next := NextVersion(VersionIn(runtimePrompts, bootPrompts, id));
      if next.None? {
        return VersionNotNumeric;
      }
      runtimePrompts := runtimePrompts[id := AppliedRecord(id, next.value, text, now, |changes|,
                                                           GetKey(current.value, "version", JNum(1.0)))];
      outcome := Applied(next.value);
    }
  }
}
