/**
 * `InteractionHandler` and `PendingInteraction`
 * (jarvis-web/backend/interaction_handler.py): questions raised while a
 * plan runs, gated by the plan's execution mode, kept in a table of
 * pending interactions until the user answers, the timer fires, or the
 * question is cancelled.
 *
 * The asyncio future is modelled as a settle-once slot and the timeout
 * task as a three-state timer; `AskUser` stops where the coroutine would
 * await, and `Finish` is what runs once the future has settled. Events
 * are interleaved by the caller in any order.
 */
module InteractionHandling {
  import opened Common
  import opened Json
  import opened OrderedDicts
  import opened InteractionClassifier

  /** How the response future settled. */
  datatype Settlement = Answered(response: Json) | Cancelled

  /** The timeout task: none created, created and running, or cancelled. */
  datatype Timer = NoTimer | Armed | TimerCancelled

  /** `{"action": action, "value": value}`. */
  function Reply(action: string, value: Json): Json
  {
    JObj(map["action" := JStr(action), "value" := value])
  }

  /** The action named by a reply built with `Reply`. */
  function ActionOf(r: Json): Option<string>
  {
    if r.JObj? && "action" in r.fields && r.fields["action"].JStr? then Some(r.fields["action"].s) else None
  }

  /** `_get_default_response`: what a question resolves to when nobody answers it. */
  function DefaultResponse(c: Classification): (r: Json)
    ensures ActionOf(r).Some?
    ensures ActionOf(r) == Some("continue") <==>
              c.defaultAction !in {Some("yes"), Some("no"), Some("skip"), Some("cancel"), Some("first")}
    ensures ActionOf(r) == Some("choice") <==> c.defaultAction == Some("first") && |c.suggestedActions| > 0
    ensures ActionOf(r) == Some("choice") ==> |c.suggestedActions| > 0 && r == Reply("choice", JStr(c.suggestedActions[0]))
    ensures c.defaultAction in {Some("yes"), Some("no")} ==>
              r == Reply(c.defaultAction.value, JBool(c.defaultAction == Some("yes")))
    ensures c.defaultAction in {Some("skip"), Some("cancel")} ==> r == Reply(c.defaultAction.value, JNull)
    ensures c.defaultAction == Some("first") && |c.suggestedActions| == 0 ==> r == Reply("skip", JNull)
    ensures ActionOf(r) == Some("continue") ==> r == Reply("continue", JNull)
  {
    var d := c.defaultAction;
    if d == Some("yes") then Reply("yes", JBool(true))
    else if d == Some("no") then Reply("no", JBool(false))
    else if d == Some("skip") then Reply("skip", JNull)
    else if d == Some("cancel") then Reply("cancel", JNull)
    else if d == Some("first") then
      if |c.suggestedActions| > 0 then Reply("choice", JStr(c.suggestedActions[0])) else Reply("skip", JNull)
    else Reply("continue", JNull)
  }

  /** The id the handler gives its `n`-th interaction. */
  function IdFor(n: nat): string
  {
    "interaction_" + NatToString(n)
  }

  lemma IdForInjective(a: nat, b: nat)
    requires IdFor(a) == IdFor(b)
    ensures a == b
  {
    var p := "interaction_";
    assert NatToString(a) == IdFor(a)[|p|..];
    assert NatToString(b) == IdFor(b)[|p|..];
    TextScan.DigitsValueOfNat(a);
    TextScan.DigitsValueOfNat(b);
  }

  class PendingInteraction {
    const interactionId: string
    const planId: string
    const userId: string
    const questionText: string
    const classification: Classification
    const createdAt: string
    var settled: Option<Settlement>
    var timer: Timer

    constructor(interactionId: string, planId: string, userId: string, questionText: string,
                classification: Classification, createdAt: string)
      ensures this.interactionId == interactionId && this.planId == planId && this.userId == userId
      ensures this.questionText == questionText && this.classification == classification
      ensures this.createdAt == createdAt
      ensures settled == None && timer == NoTimer
    {
      this.interactionId := interactionId;
      this.planId := planId;
      this.userId := userId;
      this.questionText := questionText;
      this.classification := classification;
      this.createdAt := createdAt;
      settled := None;
      timer := NoTimer;
    }

    /** `set_response`: settles an unsettled interaction with `response` and stops its timer; otherwise nothing. */
    method SetResponse(response: Json)
      modifies this
      ensures old(settled).None? ==> settled == Some(Answered(response))
      ensures old(settled).Some? ==> settled == old(settled) && timer == old(timer)
      ensures old(settled).None? ==> timer == (if old(timer) == Armed then TimerCancelled else old(timer))
    {
      if settled.None? {
        settled := Some(Answered(response));
        if timer == Armed {
          timer := TimerCancelled;
        }
      }
    }

    /** `cancel`: settles an unsettled interaction as cancelled and stops its timer; otherwise nothing. */
    method Cancel()
      modifies this
      ensures old(settled).None? ==> settled == Some(Cancelled)
      ensures old(settled).Some? ==> settled == old(settled) && timer == old(timer)
      ensures old(settled).None? ==> timer == (if old(timer) == Armed then TimerCancelled else old(timer))
    {
      if settled.None? {
        settled := Some(Cancelled);
        if timer == Armed {
          timer := TimerCancelled;
        }
      }
    }

    /**
     * `_handle_timeout` once its sleep has ended: a question without a
     * timeout, or whose timer was cancelled, is left alone; otherwise it
     * settles with its default response, unless it was answered already.
     */
    method HandleTimeout()
      modifies this
      ensures old(settled).Some? ==> settled == old(settled)
      ensures old(settled).None? && old(timer) == Armed && classification.timeoutMs.Some? &&
              classification.timeoutMs.value != 0 ==>
                settled == Some(Answered(DefaultResponse(classification)))
      ensures old(timer) != Armed ==> settled == old(settled) && timer == old(timer)
      ensures classification.timeoutMs.None? || classification.timeoutMs.value == 0 ==>
                settled == old(settled) && timer == old(timer)
      ensures old(timer) == Armed && classification.timeoutMs.Some? && classification.timeoutMs.value != 0 ==>
                timer == (if old(settled).None? then TimerCancelled else old(timer))
    {
      var t := classification.timeoutMs;
      if t.None? || t.value == 0 || timer != Armed {
        return;
      }
      SetResponse(DefaultResponse(classification));
    }
  }

  /** What `ask_user` does before it would wait: answer at once, or leave an interaction pending. */
  datatype Asked = AnsweredNow(response: Json) | Waiting(interaction: PendingInteraction)

  /** The mode gate of `ask_user`: questions answered with their default without asking. */
  predicate AutoAnswered(mode: ExecutionMode, risk: RiskLevel)
  {
    (mode == Autonomous && risk != Critical) || (mode == Supervised && risk in {Low, Medium})
  }

  class InteractionHandler {
    var pending: ODict<string, PendingInteraction>
    var modes: map<string, ExecutionMode>
    var counter: nat

    /** Every pending entry sits under its own id, which the counter has already handed out. */
    ghost predicate Valid()
      reads this
    {
      forall id :: id in pending.m ==>
        pending.m[id].interactionId == id &&
        exists k: nat :: 1 <= k <= counter && id == IdFor(k)
    }

    constructor()
      ensures Valid() && pending == Empty() && modes == map[] && counter == 0
    {
      pending := Empty();
      modes := map[];
      counter := 0;
    }

    /** `set_execution_mode`. */
    method SetExecutionMode(planId: string, mode: ExecutionMode)
      modifies this
      ensures modes == old(modes)[planId := mode]
      ensures pending == old(pending) && counter == old(counter)
    {
      modes := modes[planId := mode];
    }

    /** `execution_modes.get(plan_id, INTERACTIVE)`. */
    function ModeOf(planId: string): ExecutionMode
      reads this
    {
      if planId in modes then modes[planId] else Interactive
    }

    /**
     * `ask_user` up to its `await`: gated questions return their default
     * response and leave the table and the counter alone; any other
     * question becomes the pending interaction `interaction_<counter>`,
     * with a timer exactly when it has a non-zero timeout.
     */
    method AskUser(planId: string, userId: string, questionText: string, createdAt: string)
      returns (r: Asked)
      requires Valid()
      modifies this
      ensures Valid() && modes == old(modes)
      ensures var c := Classify(questionText);
        AutoAnswered(old(ModeOf(planId)), c.risk) ==>
          r == AnsweredNow(DefaultResponse(c)) && pending == old(pending) && counter == old(counter)
      ensures var c := Classify(questionText);
        !AutoAnswered(old(ModeOf(planId)), c.risk) ==>
          counter == old(counter) + 1 && r.Waiting? && fresh(r.interaction) &&
          r.interaction.interactionId == IdFor(counter) && IdFor(counter) !in old(pending.m) &&
          pending == Put(old(pending), IdFor(counter), r.interaction) &&
          r.interaction.planId == planId && r.interaction.userId == userId &&
          r.interaction.questionText == questionText && r.interaction.classification == c &&
          r.interaction.settled.None? &&
          r.interaction.timer == (if c.timeoutMs.Some? && c.timeoutMs.value != 0 then Armed else NoTimer)
    {
      var mode := ModeOf(planId);
      var c := Classify(questionText);
      if AutoAnswered(mode, c.risk) {
        return AnsweredNow(DefaultResponse(c));
      }
      counter := counter + 1;
      var id := IdFor(counter);
      if id in pending.m {
        var k: nat :| 1 <= k <= counter - 1 && id == IdFor(k);
        IdForInjective(k, counter);
        assert false;
      }
      var interaction := new PendingInteraction(id, planId, userId, questionText, c, createdAt);
      pending := Put(pending, id, interaction);
      if c.timeoutMs.Some? && c.timeoutMs.value != 0 {
        interaction.timer := Armed;
      }
      r := Waiting(interaction);
    }

    /**
     * The rest of `ask_user` once the future has settled: the answer, or
     * None for a cancelled question; the entry leaves the table either way.
     */
    method Finish(interaction: PendingInteraction) returns (response: Option<Json>)
      requires Valid() && interaction.settled.Some?
      modifies this
      ensures Valid()
      ensures response == (if interaction.settled.value.Answered? then Some(interaction.settled.value.response) else None)
      ensures pending == Remove(old(pending), interaction.interactionId)
      ensures counter == old(counter) && modes == old(modes)
    {
      var s := interaction.settled.value;
      response := if s.Answered? then Some(s.response) else None;
      pending := Remove(pending, interaction.interactionId);
    }

    /** `submit_response`: False and no change for an unknown id; otherwise the entry's `set_response`. */
    method SubmitResponse(interactionId: string, response: Json) returns (accepted: bool)
      requires Valid()
      modifies if interactionId in pending.m then {pending.m[interactionId]} else {}
      ensures accepted <==> interactionId in pending.m
      ensures accepted ==> var p := pending.m[interactionId];
        (old(p.settled).None? ==> p.settled == Some(Answered(response))) &&
        (old(p.settled).Some? ==> p.settled == old(p.settled)) &&
        p.timer == (if old(p.settled).None? && old(p.timer) == Armed then TimerCancelled else old(p.timer))
    ensures pending == old(pending) && counter == old(counter) && modes == old(modes)
    {
      if interactionId !in pending.m {
        return false;
      }
      var p := pending.m[interactionId];
      p.SetResponse(response);
      return true;
    }

    /** `get_pending_interaction`: the first pending entry, in insertion order, of the plan. */
    method GetPendingInteraction(planId: string) returns (r: Option<PendingInteraction>)
      ensures var vs := Values(pending);
        r.Some? ==> exists i :: 0 <= i < |vs| && vs[i] == r.value && vs[i].planId == planId &&
                                forall j :: 0 <= j < i ==> vs[j].planId != planId
      ensures r.None? ==> forall p :: p in Values(pending) ==> p.planId != planId
    {
      var vs := Values(pending);
      var i := 0;
      while i < |vs|
        invariant 0 <= i <= |vs|
        invariant forall j :: 0 <= j < i ==> vs[j].planId != planId
      {
        if vs[i].planId == planId {
          return Some(vs[i]);
        }
        i := i + 1;
      }
      return None;
    }

    /** `get_pending_interaction_by_user`: the first pending entry, in insertion order, for the user. */
    method GetPendingInteractionByUser(userId: string) returns (r: Option<PendingInteraction>)
      ensures var vs := Values(pending);
        r.Some? ==> exists i :: 0 <= i < |vs| && vs[i] == r.value && vs[i].userId == userId &&
                                forall j :: 0 <= j < i ==> vs[j].userId != userId
      ensures r.None? ==> forall p :: p in Values(pending) ==> p.userId != userId
    {
      var vs := Values(pending);
      var i := 0;
      while i < |vs|
        invariant 0 <= i <= |vs|
        invariant forall j :: 0 <= j < i ==> vs[j].userId != userId
      {
        if vs[i].userId == userId {
          return Some(vs[i]);
        }
        i := i + 1;
      }
      return None;
    }
  }

  // ------------------------------------------------------------ lemmas

  /**
   * A question that requires an explicit answer never defaults to "yes":
   * its default is "cancel" or "continue".
   */
  lemma ExplicitNeverDefaultsToYes(text: string)
    requires Classify(text).requireExplicit
    ensures ActionOf(DefaultResponse(Classify(text))) in {Some("cancel"), Some("continue")}
  {
  }

  /** Only LOW-risk questions can default to an affirmative "yes". */
  lemma YesOnlyForLowRisk(text: string)
    requires ActionOf(DefaultResponse(Classify(text))) == Some("yes")
    ensures Classify(text).risk == Low && Classify(text).timeoutMs == Some(60000)
  {
  }
}
