/**
 * `validate_json_format` (test_visualizer_export.py): the checker the
 * visualizer export is held to. Every problem it reports is kept as a
 * structured `Issue` instead of a formatted message; a Python `TypeError`
 * raised while inspecting a malformed value is the `None` outcome.
 *
 * The main results: the checker reports nothing exactly when every step is
 * well formed (`ValidateEmptyIff`), and every export of a plan passes it
 * (`ExportValidates`).
 */
module VisualizerCheck {
  import opened Common
  import opened OrderedDicts
  import opened PlannerTypes
  import opened Json
  import opened Plans

  datatype Issue =
    | MissingSteps
    | StepsNotArray
    | MissingField(step: nat, field: string)
    | InvalidType(step: nat, value: Json)
    | ChildrenNotArray(step: nat)
    | MissingDimension(step: nat, dim: string)
    | NotNumeric(step: nat, dim: string)
    | OutOfRange(step: nat, dim: string, got: real)
    | TypeMismatch(step: nat, value: Json, children: nat, expected: string)

  const RequiredFields: seq<string> := ["id", "prompt", "type", "children", "fingerprint"]
  const AllowedTypes: seq<Json> := [JStr("one-shot"), JStr("linear"), JStr("branching")]

  // ================================================ Python value semantics

  /** Values on which `key in x` raises `TypeError`. */
  predicate NotIterable(x: Json)
  {
    x.JNum? || x.JBool? || x.JNull?
  }

  /** `key in x`: a dictionary key, a substring, or a list element. */
  predicate Member(x: Json, key: string)
    requires !NotIterable(x)
  {
    match x
    case JObj(f) => key in f
    case JStr(s) => Contains(s, key)
    case JArr(items) => JStr(key) in items
  }

  /** `len(x)`, or `None` where Python raises. */
  function Len(x: Json): Option<nat>
  {
    match x
    case JArr(items) => Some(|items|)
    case JStr(s) => Some(|s|)
    case JObj(f) => Some(|f|)
    case _ => None
  }

  // ============================================== the checker, as a function

  /** The missing-field reports for `fields`, in order. */
  function MissingFields(i: nat, step: Json, fields: seq<string>): seq<Issue>
    requires !NotIterable(step)
  {
    if |fields| == 0 then []
    else
      var last := fields[|fields| - 1];
      MissingFields(i, step, fields[..|fields| - 1])
        + (if Member(step, last) then [] else [MissingField(i, last)])
  }

  /** The reports for one fingerprint dimension. */
  function DimIssue(i: nat, fp: Json, dim: string): Option<seq<Issue>>
    requires !NotIterable(fp)
  {
    if !Member(fp, dim) then Some([MissingDimension(i, dim)])
    else if !fp.JObj? then None
    else
      var v := fp.fields[dim];
      if !Numeric(v) then Some([NotNumeric(i, dim)])
      else if !(0.0 <= NumValue(v) <= 1.0) then Some([OutOfRange(i, dim, NumValue(v))])
      else Some([])
  }

  function DimIssues(i: nat, fp: Json, dims: seq<string>): Option<seq<Issue>>
    requires !NotIterable(fp)
  {
    if |dims| == 0 then Some([])
    else
      match DimIssues(i, fp, dims[..|dims| - 1])
      case None => None
      case Some(e) =>
        match DimIssue(i, fp, dims[|dims| - 1])
        case None => None
        case Some(x) => Some(e + x)
  }

  function FingerprintIssues(i: nat, fp: Json): Option<seq<Issue>>
  {
    if NotIterable(fp) then None else DimIssues(i, fp, Dimensions)
  }

  /** The type-against-children check, once both fields are present. */
  function MismatchIssue(i: nat, t: Json, children: Json): Option<seq<Issue>>
  {
    match Len(children)
    case None => None
    case Some(n) =>
      Some(if t != JStr(StepType(n)) then [TypeMismatch(i, t, n, StepType(n))] else [])
  }

  /** Everything reported about step `i`, or `None` when inspecting it raises. */
  function StepIssues(i: nat, step: Json): Option<seq<Issue>>
  {
    if NotIterable(step) then None
    else if !step.JObj? then
      // indexing a string or a list by a field name raises
      if Member(step, "type") || Member(step, "children") || Member(step, "fingerprint") then None
      else Some(MissingFields(i, step, RequiredFields))
    else
      var f := step.fields;
      var typeIssue := if "type" in f && f["type"] !in AllowedTypes then [InvalidType(i, f["type"])] else [];
      var childIssue := if "children" in f && !f["children"].JArr? then [ChildrenNotArray(i)] else [];
      var fp := if "fingerprint" in f then FingerprintIssues(i, f["fingerprint"]) else Some([]);
      var mm := if "type" in f && "children" in f then MismatchIssue(i, f["type"], f["children"]) else Some([]);
      if fp.None? || mm.None? then None
      else Some(MissingFields(i, step, RequiredFields) + typeIssue + childIssue + fp.value + mm.value)
  }

  /** The reports for the first `n` steps. */
  function AllSteps(steps: seq<Json>, n: nat): Option<seq<Issue>>
    requires n <= |steps|
  {
    if n == 0 then Some([])
    else
      match AllSteps(steps, n - 1)
      case None => None
      case Some(e) =>
        match StepIssues(n - 1, steps[n - 1])
        case None => None
        case Some(x) => Some(e + x)
  }

  function Validate(data: map<string, Json>): Option<seq<Issue>>
  {
    if "steps" !in data then Some([MissingSteps])
    else if !data["steps"].JArr? then Some([StepsNotArray])
    else AllSteps(data["steps"].items, |data["steps"].items|)
  }

  // ============================================ what a well-formed step is

  predicate FingerprintOk(fp: Json)
  {
    fp.JObj? &&
    forall k :: 0 <= k < |Dimensions| ==>
      Dimensions[k] in fp.fields && Numeric(fp.fields[Dimensions[k]]) &&
      0.0 <= NumValue(fp.fields[Dimensions[k]]) <= 1.0
  }

  /**
   * A step the visualizer accepts: an object with all five fields, an array
   * of children, the type that child count calls for, and a fingerprint
   * with every dimension a number in [0, 1].
   */
  predicate StepOk(step: Json)
  {
    step.JObj? &&
    var f := step.fields;
    "id" in f && "prompt" in f && "type" in f && "children" in f && "fingerprint" in f &&
    f["children"].JArr? && f["type"] == JStr(StepType(|f["children"].items|)) &&
    FingerprintOk(f["fingerprint"])
  }

  // ====================================================== the checker proper

  method CheckFingerprint(i: nat, fp: Json) returns (r: Option<seq<Issue>>)
    ensures r == FingerprintIssues(i, fp)
  {
    if NotIterable(fp) {
      return None;
    }
    var errors: seq<Issue> := [];
    var k := 0;
    while k < |Dimensions|
      invariant 0 <= k <= |Dimensions|
      invariant DimIssues(i, fp, Dimensions[..k]) == Some(errors)
    {
      var dim := Dimensions[k];
      DimIssuesStep(i, fp, Dimensions, k);
      if !Member(fp, dim) {
        errors := errors + [MissingDimension(i, dim)];
      } else if !fp.JObj? {
        DimIssuesNoneExtends(i, fp, Dimensions, k + 1);
        return None;
      } else if !Numeric(fp.fields[dim]) {
        errors := errors + [NotNumeric(i, dim)];
      } else if !(0.0 <= NumValue(fp.fields[dim]) <= 1.0) {
        errors := errors + [OutOfRange(i, dim, NumValue(fp.fields[dim]))];
      } else {
        assert errors + [] == errors;
      }
      k := k + 1;
    }
    assert Dimensions[..k] == Dimensions;
    return Some(errors);
  }

  method CheckFields(i: nat, step: Json) returns (errors: seq<Issue>)
    requires !NotIterable(step)
    ensures errors == MissingFields(i, step, RequiredFields)
  {
    errors := [];
    var k := 0;
    while k < |RequiredFields|
      invariant 0 <= k <= |RequiredFields|
      invariant errors == MissingFields(i, step, RequiredFields[..k])
    {
      var field := RequiredFields[k];
      assert RequiredFields[..k + 1][..k] == RequiredFields[..k];
      if !Member(step, field) {
        errors := errors + [MissingField(i, field)];
      }
      k := k + 1;
    }
    assert RequiredFields[..k] == RequiredFields;
  }

  method CheckStep(i: nat, step: Json) returns (r: Option<seq<Issue>>)
    ensures r == StepIssues(i, step)
  {
    if NotIterable(step) {
      return None;
    }
    var errors := CheckFields(i, step);
    if !step.JObj? {
      if Member(step, "type") || Member(step, "children") || Member(step, "fingerprint") {
        return None;
      }
      return Some(errors);
    }
    var f := step.fields;
    ghost var base, typeIssue, childIssue, fpIssues, mmIssue := errors, [], [], [], [];
    if "type" in f && f["type"] !in AllowedTypes {
      errors := errors + [InvalidType(i, f["type"])];
      typeIssue := [InvalidType(i, f["type"])];
    }
    if "children" in f && !f["children"].JArr? {
      errors := errors + [ChildrenNotArray(i)];
      childIssue := [ChildrenNotArray(i)];
    }
    if "fingerprint" in f {
      var fp := CheckFingerprint(i, f["fingerprint"]);
      if fp.None? {
        return None;
      }
      errors := errors + fp.value;
      fpIssues := fp.value;
    }
    if "type" in f && "children" in f {
      var n := Len(f["children"]);
      if n.None? {
        return None;
      }
      var expected := StepType(n.value);
      if f["type"] != JStr(expected) {
        errors := errors + [TypeMismatch(i, f["type"], n.value, expected)];
        mmIssue := [TypeMismatch(i, f["type"], n.value, expected)];
      }
    }
    assert errors == base + typeIssue + childIssue + fpIssues + mmIssue;
    return Some(errors);
  }

  /**
   * `validate_json_format`: a missing or non-array `steps` is one report and
   * ends the check; otherwise the steps are checked in order. It reports
   * nothing exactly when every step is well formed.
   */
  method ValidateJsonFormat(data: map<string, Json>) returns (r: Option<seq<Issue>>)
    ensures "steps" !in data ==> r == Some([MissingSteps])
    ensures "steps" in data && !data["steps"].JArr? ==> r == Some([StepsNotArray])
    ensures r == Some([]) <==>
              "steps" in data && data["steps"].JArr? &&
              forall j :: 0 <= j < |data["steps"].items| ==> StepOk(data["steps"].items[j])
    ensures r == Validate(data)
  {
    ValidateEmptyIff(data);
    if "steps" !in data {
      return Some([MissingSteps]);
    }
    if !data["steps"].JArr? {
      return Some([StepsNotArray]);
    }
    var steps := data["steps"].items;
    var errors: seq<Issue> := [];
    var i := 0;
    while i < |steps|
      invariant 0 <= i <= |steps|
      invariant AllSteps(steps, i) == Some(errors)
    {
      var e := CheckStep(i, steps[i]);
      if e.None? {
        AllStepsNoneExtends(steps, i + 1, |steps|);
        return None;
      }
      errors := errors + e.value;
      i := i + 1;
    }
    return Some(errors);
  }

  // ================================================================ lemmas

  lemma DimIssuesStep(i: nat, fp: Json, dims: seq<string>, k: nat)
    requires !NotIterable(fp) && k < |dims|
    ensures DimIssues(i, fp, dims[..k + 1]) ==
              match DimIssues(i, fp, dims[..k])
              case None => None
              case Some(e) =>
                match DimIssue(i, fp, dims[k])
                case None => None
                case Some(x) => Some(e + x)
  {
    assert dims[..k + 1][..k] == dims[..k];
  }

  /** Once a dimension raises, the whole fingerprint check raises. */
  lemma {:induction false} DimIssuesNoneExtends(i: nat, fp: Json, dims: seq<string>, k: nat)
    requires !NotIterable(fp) && k <= |dims| && DimIssues(i, fp, dims[..k]) == None
    ensures DimIssues(i, fp, dims) == None
    decreases |dims| - k
  {
    if k < |dims| {
      DimIssuesStep(i, fp, dims, k);
      DimIssuesNoneExtends(i, fp, dims, k + 1);
    } else {
      assert dims[..k] == dims;
    }
  }

  /** Once a step raises, the whole check raises. */
  lemma {:induction false} AllStepsNoneExtends(steps: seq<Json>, k: nat, n: nat)
    requires k <= n <= |steps| && AllSteps(steps, k) == None
    ensures AllSteps(steps, n) == None
    decreases n - k
  {
    if k < n {
      AllStepsNoneExtends(steps, k + 1, n);
    }
  }

  lemma {:induction false} MissingFieldsEmpty(i: nat, step: Json, fields: seq<string>)
    requires !NotIterable(step)
    ensures MissingFields(i, step, fields) == [] <==> forall k :: 0 <= k < |fields| ==> Member(step, fields[k])
  {
    if |fields| > 0 {
      var init := fields[..|fields| - 1];
      MissingFieldsEmpty(i, step, init);
      assert forall k :: 0 <= k < |init| ==> init[k] == fields[k];
    }
  }

  lemma {:induction false} DimIssuesEmpty(i: nat, fp: Json, dims: seq<string>)
    requires fp.JObj?
    ensures DimIssues(i, fp, dims) == Some([]) <==>
              forall k :: 0 <= k < |dims| ==>
                dims[k] in fp.fields && Numeric(fp.fields[dims[k]]) &&
                0.0 <= NumValue(fp.fields[dims[k]]) <= 1.0
  {
    if |dims| > 0 {
      var init := dims[..|dims| - 1];
      DimIssuesEmpty(i, fp, init);
      assert forall k :: 0 <= k < |init| ==> init[k] == dims[k];
    }
  }

  /** A fingerprint that is a string or a list never passes. */
  lemma {:induction false} DimIssuesNotObject(i: nat, fp: Json, dims: seq<string>)
    requires !NotIterable(fp) && !fp.JObj? && |dims| > 0
    ensures DimIssues(i, fp, dims) != Some([])
  {
  }

  lemma FingerprintIssuesEmpty(i: nat, fp: Json)
    ensures FingerprintIssues(i, fp) == Some([]) <==> FingerprintOk(fp)
  {
    if fp.JObj? {
      DimIssuesEmpty(i, fp, Dimensions);
    } else if !NotIterable(fp) {
      DimIssuesNotObject(i, fp, Dimensions);
    }
  }

  lemma RequiredPresent(i: nat, step: Json)
    requires step.JObj?
    ensures MissingFields(i, step, RequiredFields) == [] <==>
              "id" in step.fields && "prompt" in step.fields && "type" in step.fields &&
              "children" in step.fields && "fingerprint" in step.fields
  {
    MissingFieldsEmpty(i, step, RequiredFields);
    assert RequiredFields[0] == "id" && RequiredFields[1] == "prompt" && RequiredFields[2] == "type";
    assert RequiredFields[3] == "children" && RequiredFields[4] == "fingerprint";
  }

  /** A well-formed step's type is one of the three the visualizer knows. */
  lemma StepTypeAllowed(n: nat)
    ensures JStr(StepType(n)) in AllowedTypes
  {
  }

  /** One step: no reports exactly when the step is well formed. */
  lemma StepIssuesEmpty(i: nat, step: Json)
    ensures StepIssues(i, step) == Some([]) <==> StepOk(step)
  {
    if NotIterable(step) {
    } else if !step.JObj? {
      MissingFieldsEmpty(i, step, RequiredFields);
      assert RequiredFields[2] == "type";
    } else {
      var f := step.fields;
      RequiredPresent(i, step);
      if "fingerprint" in f {
        FingerprintIssuesEmpty(i, f["fingerprint"]);
      }
      if "type" in f && "children" in f && f["children"].JArr? {
        StepTypeAllowed(|f["children"].items|);
      }
    }
  }

  /** No reports from the first `n` steps exactly when none of them reports anything. */
  lemma {:induction false} AllStepsEmpty(steps: seq<Json>, n: nat)
    requires n <= |steps|
    ensures AllSteps(steps, n) == Some([]) <==> forall j :: 0 <= j < n ==> StepIssues(j, steps[j]) == Some([])
  {
    if n > 0 {
      AllStepsEmpty(steps, n - 1);
      var prefix := AllSteps(steps, n - 1);
      var last := StepIssues(n - 1, steps[n - 1]);
      if prefix.Some? && last.Some? {
        assert prefix.value + last.value == [] <==> prefix.value == [] && last.value == [];
      }
    }
  }

  lemma ValidateEmptyIff(data: map<string, Json>)
    ensures Validate(data) == Some([]) <==>
              "steps" in data && data["steps"].JArr? &&
              forall j :: 0 <= j < |data["steps"].items| ==> StepOk(data["steps"].items[j])
  {
    if "steps" in data && data["steps"].JArr? {
      var steps := data["steps"].items;
      AllStepsEmpty(steps, |steps|);
      forall j | 0 <= j < |steps|
        ensures StepIssues(j, steps[j]) == Some([]) <==> StepOk(steps[j])
      {
        StepIssuesEmpty(j, steps[j]);
      }
    }
  }

  /** Every exported step is well formed. */
  lemma StepJsonOk(key: GoalId, g: Goal)
    ensures StepOk(StepJson(key, g))
  {
    var f := Fingerprint(g);
    var fp := FingerprintJson(g);
    assert fp == JObj(map k | k in f :: JNum(f[k]));
    forall k | 0 <= k < |Dimensions|
      ensures Dimensions[k] in fp.fields && Numeric(fp.fields[Dimensions[k]]) &&
              0.0 <= NumValue(fp.fields[Dimensions[k]]) <= 1.0
    {
      assert Dimensions[k] in f;
    }
  }

  /** The export of any plan passes the visualizer's checker. */
  lemma ExportValidates(goals: ODict<GoalId, Goal>)
    ensures Validate(map["steps" := JArr(StepsJson(goals))]) == Some([])
  {
    var steps := StepsJson(goals);
    forall j | 0 <= j < |steps|
      ensures StepOk(steps[j])
    {
      StepJsonOk(goals.keys[j], goals.m[goals.keys[j]]);
    }
    ValidateEmptyIff(map["steps" := JArr(steps)]);
  }
}
