/**
 * The scheduler of `JarvisCore` (jarvis_core.py): tasks and their priority
 * order, the queue kept sorted by `enqueue` and drained by `dequeue`, task
 * serialisation, terminal registration and task intake, the bookkeeping of
 * `_process_task`, the yes/no answer to a pending plan approval,
 * self-generated tasks and the bounded histories.
 *
 * Clocks are parameters (`now`); the language model, the analysis command
 * set and the classification-and-planning pipeline after the approval
 * check are outside this module and appear only as the `Reply` that hands
 * over to them.
 */
module Scheduler {
  import opened Common
  import opened OrderedDicts
  import opened Json
  import opened Plans
  import DT = DateTimes
  import PO = PlanningOrchestration

  // ================================================================ enums

  /** `Priority`: a lower number is served first. */
  datatype Priority = Interrupt | User | Scheduled | Event | System | Background

  function PriorityValue(p: Priority): (v: nat)
    ensures v <= 5
  {
    match p
    case Interrupt => 0
    case User => 1
    case Scheduled => 2
    case Event => 3
    case System => 4
    case Background => 5
  }

  /** `Priority(v)`: `None` where Python raises `ValueError`. */
  function PriorityOf(v: real): (r: Option<Priority>)
    ensures r.Some? ==> PriorityValue(r.value) as real == v
  {
    if v == 0.0 then Some(Interrupt)
    else if v == 1.0 then Some(User)
    else if v == 2.0 then Some(Scheduled)
    else if v == 3.0 then Some(Event)
    else if v == 4.0 then Some(System)
    else if v == 5.0 then Some(Background)
    else None
  }

  /** Every priority is read back from its number. */
  lemma PriorityOfValue(p: Priority)
    ensures PriorityOf(PriorityValue(p) as real) == Some(p)
  {
  }

  /** `PrivilegeLevel`: a lower number is more trusted. */
  datatype Privilege = SystemTerminal | Admin | UserTerminal | Device

  function PrivilegeValue(p: Privilege): nat
  {
    match p
    case SystemTerminal => 0
    case Admin => 1
    case UserTerminal => 2
    case Device => 3
  }

  /** `JarvisState`. */
  datatype CoreState = Initializing | Running | Analysis | Sleeping | Dead

  // ============================================================ ordering

  function ClockFields(t: DT.DateTime): seq<int>
  {
    [t.year, t.month, t.day, t.hour, t.minute, t.second, t.micro]
  }

  /** Lexicographic order on equal-length integer sequences. */
  predicate LexLess(a: seq<int>, b: seq<int>)
    requires |a| == |b|
  {
    |a| > 0 && (a[0] < b[0] || (a[0] == b[0] && LexLess(a[1..], b[1..])))
  }

  lemma {:induction false} LexLessTransitive(a: seq<int>, b: seq<int>, c: seq<int>)
    requires |a| == |b| == |c| && LexLess(a, b) && LexLess(b, c)
    ensures LexLess(a, c)
  {
    if a[0] == b[0] && b[0] == c[0] {
      LexLessTransitive(a[1..], b[1..], c[1..]);
    }
  }

  lemma {:induction false} LexLessIrreflexive(a: seq<int>)
    ensures !LexLess(a, a)
  {
    if |a| > 0 {
      LexLessIrreflexive(a[1..]);
    }
  }

  /** Naive `datetime` comparison. */
  predicate Earlier(a: DT.DateTime, b: DT.DateTime)
  {
    LexLess(ClockFields(a), ClockFields(b))
  }

  // ================================================================ tasks

  /** The serialisable fields of a `Task`. */
  datatype TaskRecord = TaskRecord(
    taskId: string,
    content: string,
    sourceTerminal: int,
    priority: Priority,
    context: map<string, Json>,
    deadline: Option<DT.DateTime>,
    createdAt: DT.DateTime,
    attempts: int)

  /** A record whose timestamps `isoformat()` can write. */
  predicate WellFormed(r: TaskRecord)
  {
    DT.Valid(r.createdAt) && (r.deadline.Some? ==> DT.Valid(r.deadline.value))
  }

  /** `Task`: a unit of work. Only the attempt counter changes after creation. */
  class Task {
    const taskId: string
    const content: string
    const sourceTerminal: int
    const priority: Priority
    const context: map<string, Json>
    const deadline: Option<DT.DateTime>
    const createdAt: DT.DateTime
    var attempts: int

    /** A missing or empty id is replaced by the creation time's twenty-digit stamp. */
    constructor (content: string, sourceTerminal: int, priority: Priority, context: map<string, Json>,
                 deadline: Option<DT.DateTime>, taskId: Option<string>, now: DT.DateTime)
      requires DT.Valid(now)
      ensures this.taskId == (if taskId.Some? && taskId.value != "" then taskId.value else DT.Stamp(now))
      ensures this.taskId != ""
      ensures this.content == content && this.sourceTerminal == sourceTerminal && this.priority == priority
      ensures this.context == context && this.deadline == deadline && this.createdAt == now && attempts == 0
    {
      this.taskId := if taskId.Some? && taskId.value != "" then taskId.value else DT.Stamp(now);
      this.content := content;
      this.sourceTerminal := sourceTerminal;
      this.priority := priority;
      this.context := context;
      this.deadline := deadline;
      this.createdAt := now;
      attempts := 0;
    }

    /** `from_dict`: a task built from a decoded record. */
    constructor FromRecord(r: TaskRecord)
      ensures Record() == r
    {
      taskId := r.taskId;
      content := r.content;
      sourceTerminal := r.sourceTerminal;
      priority := r.priority;
      context := r.context;
      deadline := r.deadline;
      createdAt := r.createdAt;
      attempts := r.attempts;
    }

    function Record(): TaskRecord
      reads this
    {
      TaskRecord(taskId, content, sourceTerminal, priority, context, deadline, createdAt, attempts)
    }

    /** `to_dict`. */
    function ToDict(): Json
      reads this
      requires WellFormed(Record())
    {
      Encode(Record())
    }
  }

  /** `Task.__lt__`: priority first, then creation time. */
  predicate Less(a: Task, b: Task)
  {
    PriorityValue(a.priority) < PriorityValue(b.priority) ||
    (a.priority == b.priority && Earlier(a.createdAt, b.createdAt))
  }

  lemma LessTransitive(a: Task, b: Task, c: Task)
    requires Less(a, b) && Less(b, c)
    ensures Less(a, c)
  {
    if a.priority == b.priority == c.priority {
      LexLessTransitive(ClockFields(a.createdAt), ClockFields(b.createdAt), ClockFields(c.createdAt));
    }
  }

  lemma LessIrreflexive(a: Task)
    ensures !Less(a, a)
  {
    LexLessIrreflexive(ClockFields(a.createdAt));
  }

  // ======================================================= serialisation

  function IsoOrNull(d: Option<DT.DateTime>): Json
    requires d.Some? ==> DT.Valid(d.value)
  {
    if d.Some? then JStr(DT.IsoFormat(d.value)) else JNull
  }

  /** The dictionary `to_dict` returns. */
  function Encode(r: TaskRecord): Json
    requires WellFormed(r)
  {
    JObj(map[
      "task_id" := JStr(r.taskId),
      "content" := JStr(r.content),
      "source_terminal" := JNum(r.sourceTerminal as real),
      "priority" := JNum(PriorityValue(r.priority) as real),
      "context" := JObj(r.context),
      "deadline" := IsoOrNull(r.deadline),
      "created_at" := JStr(DT.IsoFormat(r.createdAt)),
      "attempts" := JNum(r.attempts as real)])
  }

  datatype Result<T> = Ok(value: T) | Err(error: string)

  /** A number with no fractional part, as an integer. */
  function Integral(j: Json): Option<int>
  {
    if j.JNum? && j.n.Floor as real == j.n then Some(j.n.Floor) else None
  }

  /** `datetime.fromisoformat` of a JSON value. */
  function ParseStamp(j: Json): Result<DT.DateTime>
  {
    if !j.JStr? then Err("TypeError")
    else match DT.ParseIso(j.s)
      case None => Err("ValueError")
      case Some(t) => Ok(t)
  }

  /** `data.get("deadline")` read as `fromisoformat(...) if ... else None`. */
  function DecodeDeadline(data: map<string, Json>): Result<Option<DT.DateTime>>
  {
    if "deadline" !in data || !Truthy(data["deadline"]) then Ok(None)
    else match ParseStamp(data["deadline"])
      case Err(e) => Err(e)
      case Ok(t) => Ok(Some(t))
  }

  /** `data.get("context", {})`, then `context or {}`. */
  function DecodeContext(data: map<string, Json>): Result<map<string, Json>>
  {
    if "context" !in data || !Truthy(data["context"]) then Ok(map[])
    else if data["context"].JObj? then Ok(data["context"].fields)
    else Err("context is not an object")
  }

  /** `data.get("task_id")`, then `task_id or <timestamp>`. */
  function DecodeTaskId(data: map<string, Json>, now: DT.DateTime): Result<string>
    requires DT.Valid(now)
  {
    if "task_id" !in data || !Truthy(data["task_id"]) then Ok(DT.Stamp(now))
    else if data["task_id"].JStr? then Ok(data["task_id"].s)
    else Err("task_id is not a string")
  }

  /** `data.get("attempts", 0)`. */
  function DecodeAttempts(data: map<string, Json>): Result<int>
  {
    if "attempts" !in data then Ok(0)
    else match Integral(data["attempts"])
      case None => Err("attempts is not an integer")
      case Some(n) => Ok(n)
  }

  /**
   * `Task.from_dict`, in Python's evaluation order: the three required
   * constructor keys, the optional ones, then `created_at` and `attempts`.
   */
  function Decode(data: map<string, Json>, now: DT.DateTime): (r: Result<TaskRecord>)
    requires DT.Valid(now)
    ensures r.Ok? ==> WellFormed(r.value) && r.value.taskId != ""
    ensures "content" !in data || "source_terminal" !in data || "priority" !in data || "created_at" !in data ==> r.Err?
  {
    if "content" !in data then Err("KeyError: content")
    else if !data["content"].JStr? then Err("content is not a string")
    else if "source_terminal" !in data then Err("KeyError: source_terminal")
    else if Integral(data["source_terminal"]).None? then Err("source_terminal is not an integer")
    else if "priority" !in data then Err("KeyError: priority")
    else if !data["priority"].JNum? || PriorityOf(data["priority"].n).None? then Err("ValueError: priority")
    else
      var context, deadline, taskId := DecodeContext(data), DecodeDeadline(data), DecodeTaskId(data, now);
      if context.Err? then Err(context.error)
      else if deadline.Err? then Err(deadline.error)
      else if taskId.Err? then Err(taskId.error)
      else if "created_at" !in data then Err("KeyError: created_at")
      else
        var createdAt, attempts := ParseStamp(data["created_at"]), DecodeAttempts(data);
        if createdAt.Err? then Err(createdAt.error)
        else if attempts.Err? then Err(attempts.error)
        else
          Ok(TaskRecord(if taskId.value != "" then taskId.value else DT.Stamp(now), data["content"].s,
                        Integral(data["source_terminal"]).value, PriorityOf(data["priority"].n).value,
                        context.value, deadline.value, createdAt.value, attempts.value))
  }

  lemma IsoNotEmpty(t: DT.DateTime)
    requires DT.Valid(t)
    ensures DT.IsoFormat(t) != ""
  {
  }

  /** The deadline of an encoded record decodes to the record's own. */
  lemma DecodeDeadlineField(r: TaskRecord)
    requires WellFormed(r)
    ensures DecodeDeadline(Encode(r).fields) == Ok(r.deadline)
  {
    var data := Encode(r).fields;
    if r.deadline.Some? {
      var d := r.deadline.value;
      DT.ParseIsoFormat(d);
      IsoNotEmpty(d);
      assert data["deadline"] == JStr(DT.IsoFormat(d));
    } else {
      assert data["deadline"] == JNull;
    }
  }

  /** The other optional fields of an encoded record decode to the record's own. */
  lemma DecodeOptionalFields(r: TaskRecord, now: DT.DateTime)
    requires WellFormed(r) && r.taskId != "" && DT.Valid(now)
    ensures var data := Encode(r).fields;
      DecodeContext(data) == Ok(r.context) && DecodeTaskId(data, now) == Ok(r.taskId) &&
      DecodeAttempts(data) == Ok(r.attempts)
  {
    var data := Encode(r).fields;
    assert data["attempts"] == JNum(r.attempts as real);
    assert Integral(JNum(r.attempts as real)) == Some(r.attempts);
  }

  /** The required fields of an encoded record decode to the record's own. */
  lemma DecodeRequiredFields(r: TaskRecord)
    requires WellFormed(r)
    ensures var data := Encode(r).fields;
      "content" in data && data["content"] == JStr(r.content) &&
      "source_terminal" in data && Integral(data["source_terminal"]) == Some(r.sourceTerminal) &&
      "priority" in data && data["priority"].JNum? && PriorityOf(data["priority"].n) == Some(r.priority) &&
      "created_at" in data && ParseStamp(data["created_at"]) == Ok(r.createdAt)
  {
    var data := Encode(r).fields;
    DT.ParseIsoFormat(r.createdAt);
    PriorityOfValue(r.priority);
    assert data["source_terminal"] == JNum(r.sourceTerminal as real);
    assert Integral(JNum(r.sourceTerminal as real)) == Some(r.sourceTerminal);
  }

  /**
   * `Task.from_dict(t.to_dict())` gives back every field of `t`: id,
   * content, terminal, priority, context, deadline, creation time and
   * attempts. Task ids are never empty, so none is regenerated.
   */
  lemma RoundTrip(r: TaskRecord, now: DT.DateTime)
    requires WellFormed(r) && r.taskId != "" && DT.Valid(now)
    ensures Decode(Encode(r).fields, now) == Ok(r)
  {
    DecodeRequiredFields(r);
    DecodeDeadlineField(r);
    DecodeOptionalFields(r, now);
  }

  /** A task's own dictionary decodes back to that same task. */
  lemma TaskRoundTrip(t: Task, now: DT.DateTime)
    requires WellFormed(t.Record()) && t.taskId != "" && DT.Valid(now)
    ensures Decode(t.ToDict().fields, now) == Ok(t.Record())
  {
    RoundTrip(t.Record(), now);
  }

  // ================================================================ queue

  /** Sorted by `__lt__`: no task is strictly before one queued ahead of it. */
  predicate Sorted(q: seq<Task>)
  {
    forall i, j :: 0 <= i < j < |q| ==> !Less(q[j], q[i])
  }

  /** Where a stable sort puts `t` among the sorted `q`: after every task not after it. */
  function Position(q: seq<Task>, t: Task): (p: nat)
    ensures p <= |q|
    ensures forall j :: 0 <= j < p ==> !Less(t, q[j])
    ensures p < |q| ==> Less(t, q[p])
  {
    if |q| == 0 || Less(t, q[0]) then 0 else 1 + Position(q[1..], t)
  }

  function Insert(q: seq<Task>, t: Task): seq<Task>
  {
    var p := Position(q, t);
    q[..p] + [t] + q[p..]
  }

  /**
   * `list.sort()` by `__lt__`: a stable insertion sort. Python's sort is
   * stable too, and a stable sort's result is determined by its input.
   */
  function SortStable(s: seq<Task>): seq<Task>
  {
    if |s| == 0 then [] else Insert(SortStable(s[..|s| - 1]), s[|s| - 1])
  }

  /** `x < y <= z` gives `x < z`. */
  lemma {:induction false} LexBeforeNotAfter(x: seq<int>, y: seq<int>, z: seq<int>)
    requires |x| == |y| == |z| && LexLess(x, y) && !LexLess(z, y)
    ensures LexLess(x, z)
  {
    if x[0] == y[0] && y[0] == z[0] {
      LexBeforeNotAfter(x[1..], y[1..], z[1..]);
    }
  }

  /** `y < z <= x` gives `!(x < y)`. */
  lemma {:induction false} LexNotBeforeAfter(x: seq<int>, y: seq<int>, z: seq<int>)
    requires |x| == |y| == |z| && LexLess(y, z) && !LexLess(x, z)
    ensures !LexLess(x, y)
  {
    if x[0] == y[0] && y[0] == z[0] {
      LexNotBeforeAfter(x[1..], y[1..], z[1..]);
    }
  }

  /** A task before `b` is before every task that is not before `b`. */
  lemma LessThenNotLess(t: Task, b: Task, a: Task)
    requires Less(t, b) && !Less(a, b)
    ensures Less(t, a)
  {
    if t.priority == b.priority && b.priority == a.priority {
      LexBeforeNotAfter(ClockFields(t.createdAt), ClockFields(b.createdAt), ClockFields(a.createdAt));
    }
  }

  /** A task that is not before `b` is not before any task before `b`. */
  lemma NotLessThenLess(a: Task, t: Task, b: Task)
    requires Less(t, b) && !Less(a, b)
    ensures !Less(a, t)
  {
    if a.priority == t.priority && t.priority == b.priority {
      LexNotBeforeAfter(ClockFields(a.createdAt), ClockFields(t.createdAt), ClockFields(b.createdAt));
    }
  }

  /** Inserting into a sorted queue keeps it sorted. */
  lemma InsertSorted(q: seq<Task>, t: Task)
    requires Sorted(q)
    ensures Sorted(Insert(q, t))
  {
    var p := Position(q, t);
    var r := Insert(q, t);
    forall i, j | 0 <= i < j < |r|
      ensures !Less(r[j], r[i])
    {
      if i < p && j == p {
      } else if i == p && j > p {
        if j - 1 > p {
        } else {
          LessIrreflexive(q[p]);
        }
        NotLessThenLess(q[j - 1], t, q[p]);
      } else {
        var a := if i < p then i else i - 1;
        var b := if j < p then j else j - 1;
        assert r[i] == q[a] && r[j] == q[b] && a < b;
      }
    }
  }

  /** Once a task is after `t`, so is every task queued behind it. */
  lemma AfterPosition(q: seq<Task>, t: Task, j: nat)
    requires Sorted(q) && Position(q, t) <= j < |q|
    ensures Less(t, q[j])
  {
    var p := Position(q, t);
    if j > p {
      LessThenNotLess(t, q[p], q[j]);
    }
  }

  /**
   * Stability: `t` lands behind every queued task that is not after it
   * and ahead of every task that is, and the other tasks keep their order.
   */
  lemma InsertStable(q: seq<Task>, t: Task)
    requires Sorted(q)
    ensures var p := Position(q, t);
      Insert(q, t) == q[..p] + [t] + q[p..] &&
      (forall j :: 0 <= j < p ==> !Less(t, q[j])) &&
      (forall j :: p <= j < |q| ==> Less(t, q[j]))
  {
    forall j | Position(q, t) <= j < |q|
      ensures Less(t, q[j])
    {
      AfterPosition(q, t, j);
    }
  }

  /** Insertion adds `t` and loses nothing. */
  lemma InsertPermutes(q: seq<Task>, t: Task)
    ensures multiset(Insert(q, t)) == multiset(q) + multiset{t}
  {
    var p := Position(q, t);
    assert q == q[..p] + q[p..];
  }

  /** A sorted queue is its own stable sort. */
  lemma {:induction false} SortedIsFixed(q: seq<Task>)
    requires Sorted(q)
    ensures SortStable(q) == q
  {
    if |q| > 0 {
      var init := q[..|q| - 1];
      assert Sorted(init);
      SortedIsFixed(init);
      assert Position(init, q[|q| - 1]) == |init|;
      assert init + [q[|q| - 1]] == q;
    }
  }

  /** Appending then sorting a sorted queue inserts the new task at its stable position. */
  lemma AppendThenSort(q: seq<Task>, t: Task)
    requires Sorted(q)
    ensures SortStable(q + [t]) == Insert(q, t)
  {
    SortedIsFixed(q);
    assert (q + [t])[..|q|] == q;
  }

  // ============================================================ the core

  datatype Terminal = Terminal(id: int, kind: string, name: string, privilege: Privilege, connected: bool,
                               connectedAt: DT.DateTime)

  datatype Exchange = Exchange(input: string, response: Option<string>, timestamp: DT.DateTime)

  /** A terminal's context; a missing key reads as its empty value. */
  datatype TerminalContext = TerminalContext(history: seq<Exchange>, recentThoughts: seq<string>,
                                             lastSelfTask: Option<string>)

  const EmptyContext := TerminalContext([], [], None)

  function ContextOf(contexts: map<int, TerminalContext>, id: int): TerminalContext
  {
    if id in contexts then contexts[id] else EmptyContext
  }

  /** The queueing priority of a terminal's input when none is given. */
  function DefaultPriority(p: Privilege): (r: Priority)
    ensures r in {System, Event, User}
    ensures p == SystemTerminal <==> r == System
    ensures p == Device <==> r == Event
  {
    if p == SystemTerminal then System else if p == Device then Event else User
  }

  /** The reply of `_process_task`, or what it hands the work over to. */
  datatype Reply =
    | Text(text: string)
    | NoReply
    | AnalysisActivated
    | AnalysisCommand(command: string)
    | ExecuteApproved(plan: Plan, taskId: string)
    | Pipeline
    | Raised(error: string)

  const YesWords: seq<string> := ["yes", "y", "proceed", "go ahead", "do it"]
  const NoWords: seq<string> := ["no", "n", "cancel", "stop", "abort"]
  const CancelMessage := "Okay, I've cancelled that plan. Let me know if you want something else."
  const AdminOnlyMessage := "Analysis mode requires administrator privileges."

  /** The first pending approval, in insertion order, raised from `terminal`. */
  function FirstPendingIn(keys: seq<string>, m: map<string, PO.PendingApproval>, terminal: int): (r: Option<nat>)
    requires forall i :: 0 <= i < |keys| ==> keys[i] in m
    ensures r.Some? ==> r.value < |keys| && m[keys[r.value]].terminalId == terminal
    ensures r.Some? ==> forall j :: 0 <= j < r.value ==> m[keys[j]].terminalId != terminal
    ensures r.None? ==> forall j :: 0 <= j < |keys| ==> m[keys[j]].terminalId != terminal
  {
    if |keys| == 0 then None
    else if m[keys[0]].terminalId == terminal then Some(0)
    else match FirstPendingIn(keys[1..], m, terminal)
      case None => None
      case Some(i) => Some(i + 1)
  }

  function FirstPending(d: ODict<string, PO.PendingApproval>, terminal: int): (r: Option<string>)
    ensures r.Some? ==> r.value in d.m && d.m[r.value].terminalId == terminal
    ensures r.None? <==> forall k :: k in d.m ==> d.m[k].terminalId != terminal
  {
    assert forall i :: 0 <= i < |d.keys| ==> d.keys[i] in d.m;
    match FirstPendingIn(d.keys, d.m, terminal)
    case None =>
      assert forall k :: k in d.m ==> d.m[k].terminalId != terminal by {
        forall k | k in d.m ensures d.m[k].terminalId != terminal {
          InKeys(d, k);
        }
      }
      None
    case Some(i) => Some(d.keys[i])
  }

  /**
   * When approvals are filed under their plans' ids, as the orchestrator
   * files them, the entry a yes or no answers is found under its own plan
   * id (so the yes branch cannot raise `KeyError`), and withdrawing it
   * removes exactly that key and leaves every other terminal's entries.
   */
  lemma AnswerWithdrawsOwnOnly(d: ODict<string, PO.PendingApproval>, terminal: int)
    requires PO.KeyedByPlan(d) && FirstPending(d, terminal).Some?
    ensures var k := FirstPending(d, terminal).value;
      d.m[k].plan.id == k && d.m.Keys - Remove(d, k).m.Keys == {k} &&
      Remove(d, k).m.Keys <= d.m.Keys
    ensures var k := FirstPending(d, terminal).value;
      forall k2 :: k2 in d.m && d.m[k2].terminalId != terminal ==>
        k2 in Remove(d, k).m && Remove(d, k).m[k2] == d.m[k2]
  {
  }

  /**
   * What the approval check at the top of `_intelligent_process` does to the
   * pending and active tables (`before`/`activeBefore` become
   * `after`/`activeAfter`) and what it answers. A yes-word with a pending
   * approval from the same terminal withdraws the entry filed under its
   * plan's id, records that plan as the task's active plan and hands it
   * over (or raises `KeyError` when no entry is filed under that id); a
   * no-word withdraws the terminal's first pending entry and confirms the
   * cancellation; anything else leaves both tables alone and goes on to
   * the pipeline.
   */
  ghost predicate ApprovalAnswered(before: ODict<string, PO.PendingApproval>, activeBefore: map<string, string>,
                                   after: ODict<string, PO.PendingApproval>, activeAfter: map<string, string>,
                                   terminal: int, content: string, reply: Reply)
    reads set k | k in before.m :: before.m[k].plan
  {
    var input := Strip(LowerStr(content));
    var first := FirstPending(before, terminal);
    if input in YesWords && first.Some? then
      var e := before.m[first.value];
      if e.plan.id in before.m then
        after == Remove(before, e.plan.id) && activeAfter == activeBefore[e.taskId := e.plan.id] &&
        reply == ExecuteApproved(e.plan, e.taskId)
      else
        after == before && activeAfter == activeBefore && reply == Raised("KeyError")
    else if input !in YesWords && input in NoWords && first.Some? then
      after == Remove(before, first.value) && activeAfter == activeBefore && reply == Text(CancelMessage)
    else
      after == before && activeAfter == activeBefore && reply == Pipeline
  }

  class JarvisCore {
    var state: CoreState
    var queue: seq<Task>
    var terminals: map<int, Terminal>
    var contexts: map<int, TerminalContext>
    var analysisTerminal: Option<int>
    var tasksProcessed: nat
    var currentTask: Option<Task>
    const approvals: PO.ApprovalState

    ghost predicate Valid()
      reads this
    {
      Sorted(queue)
    }

    constructor ()
      ensures Valid() && fresh(approvals)
      ensures state == Initializing && queue == [] && terminals == map[] && contexts == map[]
      ensures analysisTerminal == None && tasksProcessed == 0 && currentTask == None
      ensures approvals.pendingApprovals == Empty() && approvals.activePlans == map[]
    {
      state := Initializing;
      queue := [];
      terminals := map[];
      contexts := map[];
      analysisTerminal := None;
      tasksProcessed := 0;
      currentTask := None;
      approvals := new PO.ApprovalState();
    }

    /**
     * `enqueue`: append, then sort. The queue stays sorted, gains exactly
     * `t`, and `t` goes behind every task that is not after it, so tasks
     * of equal priority and creation time leave in arrival order.
     */
    method Enqueue(t: Task)
      requires Valid()
      modifies this
      ensures Valid()
      ensures queue == SortStable(old(queue) + [t]) == Insert(old(queue), t)
      ensures multiset(queue) == multiset(old(queue)) + multiset{t}
      ensures state == old(state) && terminals == old(terminals) && contexts == old(contexts)
      ensures analysisTerminal == old(analysisTerminal) && tasksProcessed == old(tasksProcessed)
      ensures currentTask == old(currentTask)
    {
      var p := 0;
      while p < |queue| && !Less(t, queue[p])
        invariant p <= |queue|
        invariant forall j :: 0 <= j < p ==> !Less(t, queue[j])
      {
        p := p + 1;
      }
      assert p == Position(queue, t);
      AppendThenSort(queue, t);
      InsertSorted(queue, t);
      InsertPermutes(queue, t);
      queue := queue[..p] + [t] + queue[p..];
    }

    /** `dequeue`: the head of the queue, which no other task is before, or `None`. */
    method Dequeue() returns (r: Option<Task>)
      requires Valid()
      modifies this
      ensures Valid()
      ensures old(queue) == [] ==> r == None && queue == []
      ensures old(queue) != [] ==> r == Some(old(queue)[0]) && queue == old(queue)[1..]
      ensures r.Some? ==> forall j :: 0 <= j < |old(queue)| ==> !Less(old(queue)[j], r.value)
      ensures state == old(state) && terminals == old(terminals) && contexts == old(contexts)
      ensures analysisTerminal == old(analysisTerminal) && tasksProcessed == old(tasksProcessed)
      ensures currentTask == old(currentTask)
    {
      if queue == [] {
        return None;
      }
      r := Some(queue[0]);
      forall j | 0 <= j < |queue| ensures !Less(queue[j], queue[0]) {
        if j == 0 { LessIrreflexive(queue[0]); }
      }
      queue := queue[1..];
    }

    /** `register_terminal`: (re)record the terminal; a new one gets an empty context. */
    method RegisterTerminal(id: int, kind: string, name: string, privilege: Privilege, now: DT.DateTime)
      modifies this
      ensures terminals == old(terminals)[id := Terminal(id, kind, name, privilege, true, now)]
      ensures contexts == if id in old(contexts) then old(contexts) else old(contexts)[id := EmptyContext]
      ensures queue == old(queue) && state == old(state) && analysisTerminal == old(analysisTerminal)
      ensures tasksProcessed == old(tasksProcessed) && currentTask == old(currentTask)
    {
      terminals := terminals[id := Terminal(id, kind, name, privilege, true, now)];
      if id !in contexts {
        contexts := contexts[id := EmptyContext];
      }
    }

    /**
     * `receive_from_terminal`: nothing for an unknown terminal; otherwise a
     * new task at the given priority, or the terminal's default one, is
     * queued.
     */
    method ReceiveFromTerminal(id: int, content: string, priority: Option<Priority>, now: DT.DateTime)
      returns (ghost added: Option<Task>)
      requires Valid() && DT.Valid(now)
      modifies this
      ensures Valid()
      ensures id !in old(terminals) ==> added == None && queue == old(queue)
      ensures id in old(terminals) ==> added.Some? && fresh(added.value) && queue == Insert(old(queue), added.value)
      ensures added.Some? ==>
        var t := added.value;
        t.content == content && t.sourceTerminal == id && t.createdAt == now && t.attempts == 0 &&
        t.priority == (if priority.Some? then priority.value else DefaultPriority(old(terminals)[id].privilege)) &&
        t.context == map["terminal_type" := JStr(old(terminals)[id].kind)] && t.deadline == None
      ensures terminals == old(terminals) && contexts == old(contexts) && state == old(state)
      ensures analysisTerminal == old(analysisTerminal) && tasksProcessed == old(tasksProcessed)
      ensures currentTask == old(currentTask)
    {
      if id !in terminals {
        return None;
      }
      var terminal := terminals[id];
      var p := if priority.Some? then priority.value else DefaultPriority(terminal.privilege);
      var t := new Task(content, id, p, map["terminal_type" := JStr(terminal.kind)], None, None, now);
      Enqueue(t);
      added := Some(t);
    }

    /**
     * `_generate_self_task`: the thought chosen from the model's reply is
     * queued from terminal 0 in the background, and terminal 0 remembers it
     * as its last self-task and among its ten most recent thoughts.
     */
    method GenerateSelfTask(reply: SelfTaskReply, now: DT.DateTime) returns (ghost added: Task)
      requires Valid() && DT.Valid(now)
      modifies this
      ensures Valid()
      ensures fresh(added) && queue == Insert(old(queue), added)
      ensures added.content == ChooseThought(reply) && added.sourceTerminal == 0 && added.priority == Background
      ensures added.context == map["type" := JStr("self_reflection")] && added.createdAt == now
      ensures contexts == old(contexts)[0 := SelfTaskContext(ContextOf(old(contexts), 0), ChooseThought(reply))]
      ensures terminals == old(terminals) && state == old(state)
      ensures analysisTerminal == old(analysisTerminal) && tasksProcessed == old(tasksProcessed)
      ensures currentTask == old(currentTask)
    {
      var thought := ChooseThought(reply);
      RememberThought(thought);
      var t := new Task(thought, 0, Background, map["type" := JStr("self_reflection")], None, None, now);
      Enqueue(t);
      added := t;
    }

    /** Terminal 0's side of `_generate_self_task`: the thought joins its recent thoughts. */
    method RememberThought(thought: string)
      modifies `contexts
      ensures contexts == old(contexts)[0 := SelfTaskContext(ContextOf(old(contexts), 0), thought)]
    {
      var c := SelfTaskContext(ContextOf(contexts, 0), thought);
      contexts := contexts[0 := c];
    }

    /** The `_main_loop` history entry: appended, then only the last fifty are kept. */
    method RecordExchange(terminal: int, input: string, response: Option<string>, now: DT.DateTime)
      modifies this
      ensures terminal !in old(contexts) ==> contexts == old(contexts)
      ensures terminal in old(contexts) ==>
        contexts == old(contexts)[terminal := old(contexts)[terminal].(history :=
          AppendBounded(old(contexts)[terminal].history, Exchange(input, response, now), 50))]
      ensures queue == old(queue) && terminals == old(terminals) && state == old(state)
      ensures analysisTerminal == old(analysisTerminal) && tasksProcessed == old(tasksProcessed)
      ensures currentTask == old(currentTask)
    {
      if terminal in contexts {
        var c := contexts[terminal];
        contexts := contexts[terminal := c.(history := AppendBounded(c.history, Exchange(input, response, now), 50))];
      }
    }

    /**
     * The approval check at the top of `_intelligent_process`. A yes-word
     * with a pending approval from the same terminal withdraws that entry,
     * records the approved plan as active and hands the plan over for
     * execution; a no-word withdraws the terminal's first pending entry and
     * confirms the cancellation. Anything else goes on to the pipeline.
     */
    method AnswerApproval(terminal: int, content: string) returns (reply: Reply)
      modifies approvals
      ensures ApprovalAnswered(old(approvals.pendingApprovals), old(approvals.activePlans),
        approvals.pendingApprovals, approvals.activePlans, terminal, content, reply)
      ensures old(PO.KeyedByPlan(approvals.pendingApprovals)) ==> PO.KeyedByPlan(approvals.pendingApprovals)
    {
      var input := Strip(LowerStr(content));
      var first := FirstPending(approvals.pendingApprovals, terminal);
      if input in YesWords {
        if first.None? {
          return Pipeline;
        }
        var e := approvals.pendingApprovals.m[first.value];
        var planId := e.plan.id;
        if planId !in approvals.pendingApprovals.m {
          return Raised("KeyError");
        }
        approvals.pendingApprovals := Remove(approvals.pendingApprovals, planId);
        approvals.activePlans := approvals.activePlans[e.taskId := planId];
        return ExecuteApproved(e.plan, e.taskId);
      } else if input in NoWords {
        if first.None? {
          return Pipeline;
        }
        approvals.pendingApprovals := Remove(approvals.pendingApprovals, first.value);
        return Text(CancelMessage);
      }
      return Pipeline;
    }

    /**
     * `_process_task`: counts the attempt, then the analysis trigger (for
     * administrators only), analysis commands from the analysis terminal,
     * the silent handling of terminal 0's own tasks and, for everything
     * else, the approval check. Only the last two count as processed, and
     * the approval check only when it does not raise.
     */
    method ProcessTask(task: Task, hasPromptManager: bool) returns (reply: Reply)
      modifies this, task, approvals
      ensures task.attempts == old(task.attempts) + 1
      ensures queue == old(queue) && terminals == old(terminals) && contexts == old(contexts)
      ensures AnalysisTrigger(task.content) ==>
        currentTask == Some(task) && tasksProcessed == old(tasksProcessed) && unchanged(approvals)
      ensures AnalysisTrigger(task.content) && IsAdmin(terminals, task.sourceTerminal) ==>
        reply == AnalysisActivated && state == Analysis && analysisTerminal == Some(task.sourceTerminal)
      ensures !(AnalysisTrigger(task.content) && IsAdmin(terminals, task.sourceTerminal)) ==>
        state == old(state) && analysisTerminal == old(analysisTerminal)
      ensures AnalysisTrigger(task.content) && !IsAdmin(terminals, task.sourceTerminal) ==>
        reply == Text(AdminOnlyMessage)
      ensures !AnalysisTrigger(task.content) && InAnalysis(old(state), old(analysisTerminal), task.sourceTerminal) ==>
        reply == AnalysisCommand(task.content) && currentTask == Some(task) &&
        tasksProcessed == old(tasksProcessed) && unchanged(approvals)
      ensures !AnalysisTrigger(task.content) && !InAnalysis(old(state), old(analysisTerminal), task.sourceTerminal) &&
              !reply.Raised? ==>
        tasksProcessed == old(tasksProcessed) + 1 && currentTask == None
      ensures reply.Raised? ==> tasksProcessed == old(tasksProcessed) && currentTask == Some(task)
      ensures !AnalysisTrigger(task.content) && !InAnalysis(old(state), old(analysisTerminal), task.sourceTerminal) &&
              task.sourceTerminal == 0 ==>
        reply == NoReply && unchanged(approvals)
      ensures !AnalysisTrigger(task.content) && !InAnalysis(old(state), old(analysisTerminal), task.sourceTerminal) &&
              task.sourceTerminal != 0 && !hasPromptManager ==>
        reply == Text(Initialising(task.content)) && unchanged(approvals)
      ensures !AnalysisTrigger(task.content) && !InAnalysis(old(state), old(analysisTerminal), task.sourceTerminal) &&
              task.sourceTerminal != 0 && hasPromptManager ==>
        ApprovalAnswered(old(approvals.pendingApprovals), old(approvals.activePlans),
          approvals.pendingApprovals, approvals.activePlans, task.sourceTerminal, task.content, reply)
    {
      currentTask := Some(task);
      task.attempts := task.attempts + 1;
      if AnalysisTrigger(task.content) {
        if IsAdmin(terminals, task.sourceTerminal) {
          state := Analysis;
          analysisTerminal := Some(task.sourceTerminal);
          return AnalysisActivated;
        }
        return Text(AdminOnlyMessage);
      }
      if InAnalysis(state, analysisTerminal, task.sourceTerminal) {
        return AnalysisCommand(task.content);
      }
      reply := ProcessOrdinary(task, hasPromptManager);
    }

    /** The rest of `_process_task`: terminal 0's tasks are silent, the others answered. */
    method ProcessOrdinary(task: Task, hasPromptManager: bool) returns (reply: Reply)
      modifies this, approvals
      ensures !reply.Raised? ==> tasksProcessed == old(tasksProcessed) + 1 && currentTask == None
      ensures reply.Raised? ==> tasksProcessed == old(tasksProcessed) && currentTask == old(currentTask)
      ensures queue == old(queue) && terminals == old(terminals) && contexts == old(contexts)
      ensures state == old(state) && analysisTerminal == old(analysisTerminal)
      ensures task.sourceTerminal == 0 ==> reply == NoReply && unchanged(approvals)
      ensures task.sourceTerminal != 0 && !hasPromptManager ==>
        reply == Text(Initialising(task.content)) && unchanged(approvals)
      ensures task.sourceTerminal != 0 && hasPromptManager ==>
        ApprovalAnswered(old(approvals.pendingApprovals), old(approvals.activePlans),
          approvals.pendingApprovals, approvals.activePlans, task.sourceTerminal, task.content, reply)
    {
      if task.sourceTerminal == 0 {
        tasksProcessed := tasksProcessed + 1;
        currentTask := None;
        return NoReply;
      }
      if !hasPromptManager {
        reply := Text(Initialising(task.content));
      } else {
        reply := AnswerApproval(task.sourceTerminal, task.content);
        if reply.Raised? {
          return;
        }
      }
      tasksProcessed := tasksProcessed + 1;
      currentTask := None;
    }
  }

  /** `content.lower().strip() == "analysis"`. */
  predicate AnalysisTrigger(content: string)
  {
    Strip(LowerStr(content)) == "analysis"
  }

  /** The terminal's privilege is ADMIN or better; an unknown terminal counts as a device. */
  predicate IsAdmin(terminals: map<int, Terminal>, id: int)
  {
    var privilege := if id in terminals then terminals[id].privilege else Device;
    PrivilegeValue(privilege) <= PrivilegeValue(Admin)
  }

  /** Analysis mode is on and `id` is the terminal that turned it on. */
  predicate InAnalysis(state: CoreState, analysisTerminal: Option<int>, id: int)
  {
    state == Analysis && analysisTerminal == Some(id)
  }

  function Initialising(content: string): string
  {
    "[Jarvis] System initializing... Received: " + content
  }

  /** `lst.append(x)` then `lst = lst[-n:]`. */
  function AppendBounded<T>(s: seq<T>, x: T, n: nat): (r: seq<T>)
    requires n > 0
    ensures |r| <= n && |r| > 0 && r[|r| - 1] == x
    ensures |s| < n ==> r == s + [x]
  {
    LastN(s + [x], n)
  }

  /** The newest entries survive in order: the bounded list is a suffix of the full one. */
  lemma AppendBoundedSuffix<T>(s: seq<T>, x: T, n: nat)
    requires n > 0
    ensures var r := AppendBounded(s, x, n);
      r == (s + [x])[|s| + 1 - |r|..] && |r| == if |s| < n then |s| + 1 else n
  {
  }

  /** Terminal 0's context after a self-task: the thought is remembered, at most ten are kept. */
  function SelfTaskContext(c: TerminalContext, thought: string): (r: TerminalContext)
    ensures r.lastSelfTask == Some(thought) && r.history == c.history
    ensures 0 < |r.recentThoughts| <= 10 && r.recentThoughts[|r.recentThoughts| - 1] == thought
  {
    c.(recentThoughts := AppendBounded(c.recentThoughts, thought, 10), lastSelfTask := Some(thought))
  }

  /** What the language model answered when asked for a self-task. */
  datatype SelfTaskReply = NoPromptManager | Answered(success: bool, parsed: Option<map<string, string>>)

  /** The thought `_generate_self_task` queues. */
  function ChooseThought(reply: SelfTaskReply): (thought: string)
    ensures reply.NoPromptManager? ==> thought == "System initialization complete"
    ensures reply.Answered? && !(reply.success && reply.parsed.Some? && reply.parsed.value != map[]) ==>
              thought == "Review my recent interactions for patterns"
    ensures reply.Answered? && reply.success && reply.parsed.Some? && reply.parsed.value != map[] ==>
              thought == (if "task" in reply.parsed.value then reply.parsed.value["task"] else "Reflect on my existence")
  {
    match reply
    case NoPromptManager => "System initialization complete"
    case Answered(success, parsed) =>
      if success && parsed.Some? && parsed.value != map[] then
        if "task" in parsed.value then parsed.value["task"] else "Reflect on my existence"
      else "Review my recent interactions for patterns"
  }
}
