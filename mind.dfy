// The mind: a stream of thoughts, imagined scenarios, and a list of plans
// whose steps are handed out one at a time and advanced in list order.
module Mind {
  import opened Common

  /** The stream length `think` trims to. */
  const MaxThoughts := 100

  /** The imagination history length `imagine` trims to. */
  const MaxImaginations := 50

  datatype PlanStatus = Thinking | Ready | InProgress | Completed | Failed | Abandoned

  datatype Plan = Plan(created: int, goal: string, steps: seq<string>, currentStep: int, status: PlanStatus, priority: real)

  datatype Thought = Thought(
    timestamp: int, kind: string, content: string, trigger: string, intensity: real, associations: seq<string>)

  datatype Imagination = Imagination(
    timestamp: int, scenario: string, purpose: string, elements: seq<string>, outcome: string, vividness: real)

  datatype MindStatus = MindStatus(thoughtCount: nat, imaginationCount: nat, activePlans: nat, innerVoice: string)

  // ---------------------------------------------------------------- plans

  /** `createPlan`'s plan: ready, at its first step, with the five fixed steps. */
  function NewPlan(goal: string, now: int): (p: Plan)
    ensures p.status == Ready && p.currentStep == 0 && |p.steps| == 5 && p.goal == goal
    ensures p.steps[1] == "Identify what's needed for " + goal
  {
    Plan(now, goal,
         ["Observe the current situation", "Identify what's needed for " + goal, "Try an approach",
          "See what happens", "Adjust and repeat if needed"],
         0, Ready, 0.5)
  }

  /** A plan that still asks for work: ready or in progress. */
  predicate Active(p: Plan)
  {
    p.status == InProgress || p.status == Ready
  }

  /** An active plan with a step left. */
  predicate Runnable(p: Plan)
  {
    Active(p) && p.currentStep < |p.steps|
  }

  /** Every plan's step counter is a valid start. */
  predicate PlansInv(ps: seq<Plan>)
  {
    forall i :: 0 <= i < |ps| ==> ps[i].currentStep >= 0
  }

  /** The position of the first runnable plan, or `|ps|` when there is none. */
  function FirstRunnable(ps: seq<Plan>): (k: nat)
    ensures k <= |ps|
    ensures k < |ps| ==> Runnable(ps[k])
    ensures forall j :: 0 <= j < k ==> !Runnable(ps[j])
  {
    if ps == [] then 0 else if Runnable(ps[0]) then 0 else 1 + FirstRunnable(ps[1..])
  }

  /**
   * The plans after `getNextAction`: the active plans before the first
   * runnable one are exhausted and marked completed, and that one is marked
   * in progress.
   */
  function AfterNext(ps: seq<Plan>): (r: seq<Plan>)
    ensures |r| == |ps|
  {
    var k := FirstRunnable(ps);
    seq(|ps|, j requires 0 <= j < |ps| =>
      if j < k && Active(ps[j]) then ps[j].(status := Completed)
      else if j == k then ps[j].(status := InProgress)
      else ps[j])
  }

  /** The step `getNextAction` returns: the current step of the first runnable plan, if any. */
  function NextAction(ps: seq<Plan>): Option<string>
    requires PlansInv(ps)
  {
    var k := FirstRunnable(ps);
    if k < |ps| then Some(ps[k].steps[ps[k].currentStep]) else None
  }

  /**
   * `getNextAction` only changes statuses; it finds nothing exactly when no
   * plan is runnable, in which case every active plan ends completed.
   */
  lemma NextActionMeaning(ps: seq<Plan>)
    requires PlansInv(ps)
    ensures var r := AfterNext(ps);
      && PlansInv(r)
      && (forall j :: 0 <= j < |ps| ==> r[j].steps == ps[j].steps && r[j].currentStep == ps[j].currentStep)
      && (NextAction(ps).None? <==> forall j :: 0 <= j < |ps| ==> !Runnable(ps[j]))
      && (NextAction(ps).None? ==> forall j :: 0 <= j < |ps| ==> !Active(r[j]))
  {
  }

  /**
   * Asking twice gives the same step and changes nothing the second time:
   * the plan it chose is now the first runnable one and already in progress.
   */
  lemma NextActionIdempotent(ps: seq<Plan>)
    requires PlansInv(ps)
    ensures FirstRunnable(AfterNext(ps)) == FirstRunnable(ps)
    ensures AfterNext(AfterNext(ps)) == AfterNext(ps)
    ensures NextAction(AfterNext(ps)) == NextAction(ps)
  {
    var k := FirstRunnable(ps);
    var r := AfterNext(ps);
    FirstRunnableIs(r, k);
  }

  /** A position is the first runnable one when it is runnable (or the end) and none before it is. */
  lemma {:induction false} FirstRunnableIs(ps: seq<Plan>, k: nat)
    requires k <= |ps| && (k < |ps| ==> Runnable(ps[k])) && forall j :: 0 <= j < k ==> !Runnable(ps[j])
    ensures FirstRunnable(ps) == k
    decreases |ps|
  {
    if ps != [] && k > 0 {
      assert !Runnable(ps[0]);
      FirstRunnableIs(ps[1..], k - 1);
    }
  }

  /** The position of the first plan in progress, or `|ps|`. */
  function FirstInProgress(ps: seq<Plan>): (k: nat)
    ensures k <= |ps|
    ensures k < |ps| ==> ps[k].status == InProgress
    ensures forall j :: 0 <= j < k ==> ps[j].status != InProgress
  {
    if ps == [] then 0 else if ps[0].status == InProgress then 0 else 1 + FirstInProgress(ps[1..])
  }

  /** One step of a plan: the counter moves on, and the plan completes once it runs past its steps. */
  function Stepped(p: Plan): Plan
  {
    var q := p.(currentStep := p.currentStep + 1);
    if q.currentStep >= |q.steps| then q.(status := Completed) else q
  }

  /** `advancePlan`: only the first plan in progress moves on. */
  function AfterAdvance(ps: seq<Plan>): (r: seq<Plan>)
    ensures |r| == |ps|
  {
    var k := FirstInProgress(ps);
    if k < |ps| then ps[k := Stepped(ps[k])] else ps
  }

  /**
   * After `getNextAction` picked a plan, `advancePlan` moves exactly that
   * plan on, by one step, and changes no other plan.
   */
  lemma NextThenAdvance(ps: seq<Plan>)
    requires PlansInv(ps) && NextAction(ps).Some?
    ensures var k := FirstRunnable(ps); var r := AfterNext(ps);
      && FirstInProgress(r) == k
      && AfterAdvance(r) == r[k := Stepped(r[k])]
      && AfterAdvance(r)[k].currentStep == ps[k].currentStep + 1
  {
    var k := FirstRunnable(ps);
    var r := AfterNext(ps);
    FirstInProgressIs(r, k);
  }

  lemma {:induction false} FirstInProgressIs(ps: seq<Plan>, k: nat)
    requires k < |ps| && ps[k].status == InProgress && forall j :: 0 <= j < k ==> ps[j].status != InProgress
    ensures FirstInProgress(ps) == k
    decreases |ps|
  {
    if k > 0 {
      assert ps[0].status != InProgress;
      FirstInProgressIs(ps[1..], k - 1);
    }
  }

  /** `advancePlan` keeps every counter a valid start and changes at most one plan. */
  lemma AdvanceMeaning(ps: seq<Plan>)
    requires PlansInv(ps)
    ensures PlansInv(AfterAdvance(ps))
    ensures forall j :: 0 <= j < |ps| && j != FirstInProgress(ps) ==> AfterAdvance(ps)[j] == ps[j]
    ensures (forall j :: 0 <= j < |ps| ==> ps[j].status != InProgress) ==> AfterAdvance(ps) == ps
  {
  }

  /** The number of active plans. */
  function ActiveCount(ps: seq<Plan>): (n: nat)
    ensures n <= |ps|
  {
    if ps == [] then 0 else ActiveCount(ps[..|ps| - 1]) + (if Active(ps[|ps| - 1]) then 1 else 0)
  }

  /** No plan active means no plan counted, and every plan active means all counted. */
  lemma {:induction false} ActiveCountMeaning(ps: seq<Plan>)
    ensures ActiveCount(ps) == 0 <==> forall j :: 0 <= j < |ps| ==> !Active(ps[j])
    ensures ActiveCount(ps) == |ps| <==> forall j :: 0 <= j < |ps| ==> Active(ps[j])
    decreases |ps|
  {
    if ps != [] {
      var t := ps[..|ps| - 1];
      ActiveCountMeaning(t);
      assert forall j :: 0 <= j < |t| ==> t[j] == ps[j];
    }
  }

  // -------------------------------------------------------------- thoughts

  // ------------------------------------------------------------------ class

  class AIChildMind {
    var thoughts: seq<Thought>
    var imaginations: seq<Imagination>
    var plans: seq<Plan>
    var innerVoice: string

    predicate Valid()
      reads this
    {
      PlansInv(plans)
    }

    constructor ()
      ensures Valid()
      ensures thoughts == [] && imaginations == [] && plans == [] && innerVoice == ""
    {
      thoughts := [];
      imaginations := [];
      plans := [];
      innerVoice := "";
    }

    /**
     * The stream part of `think`: the thought is appended, the oldest are
     * dropped down to 100, and it becomes the inner voice.
     */
    method Think(t: Thought)
      requires Valid()
      modifies this
      ensures Valid()
      ensures thoughts == Keep(old(thoughts) + [t], MaxThoughts) && innerVoice == t.content
      ensures plans == old(plans) && imaginations == old(imaginations)
    {
      thoughts := thoughts + [t];
      thoughts := LimitThoughts(thoughts);
      innerVoice := t.content;
    }

    /** `limitThoughtStream`: drop from the front while more than 100 remain. */
    static method LimitThoughts(ts: seq<Thought>) returns (r: seq<Thought>)
      ensures r == Keep(ts, MaxThoughts)
    {
      r := ts;
      while |r| > MaxThoughts
        invariant |r| <= |ts| && r == ts[|ts| - |r|..]
        invariant |ts| > MaxThoughts ==> |r| >= MaxThoughts
        invariant |ts| <= MaxThoughts ==> r == ts
        decreases |r|
      {
        r := r[1..];
      }
    }

    /** The record `combineConcepts` adds: appended with no trimming, so the stream can pass 100. */
    method Combine(t: Thought)
      requires Valid()
      modifies this
      ensures Valid()
      ensures thoughts == old(thoughts) + [t] && |thoughts| == |old(thoughts)| + 1
      ensures plans == old(plans) && imaginations == old(imaginations) && innerVoice == old(innerVoice)
    {
      thoughts := thoughts + [t];
    }

    /** `imagine`: the imagination is appended and the history cut to the newest 50. */
    method Imagine(img: Imagination)
      requires Valid()
      modifies this
      ensures Valid()
      ensures imaginations == Keep(old(imaginations) + [img], MaxImaginations)
      ensures plans == old(plans) && thoughts == old(thoughts) && innerVoice == old(innerVoice)
    {
      var xs := imaginations + [img];
      while |xs| > MaxImaginations
        invariant |xs| <= |old(imaginations)| + 1 && xs == (old(imaginations) + [img])[|old(imaginations)| + 1 - |xs|..]
        invariant |old(imaginations)| + 1 > MaxImaginations ==> |xs| >= MaxImaginations
        invariant |old(imaginations)| + 1 <= MaxImaginations ==> xs == old(imaginations) + [img]
        decreases |xs|
      {
        xs := xs[1..];
      }
      imaginations := xs;
    }

    /** `imagineSolution`: appended without any trimming. */
    method ImagineSolution(problem: string, approach: string, now: int)
      requires Valid()
      modifies this
      ensures Valid()
      ensures imaginations == old(imaginations) + [Imagination(now, "Solving: " + problem, "finding solution", [], approach, 0.8)]
      ensures plans == old(plans) && thoughts == old(thoughts) && innerVoice == old(innerVoice)
    {
      imaginations := imaginations + [Imagination(now, "Solving: " + problem, "finding solution", [], approach, 0.8)];
    }

    /** `createPlan`. */
    method CreatePlan(goal: string, now: int) returns (p: Plan)
      requires Valid()
      modifies this
      ensures Valid()
      ensures p == NewPlan(goal, now) && plans == old(plans) + [p]
      ensures thoughts == old(thoughts) && imaginations == old(imaginations) && innerVoice == old(innerVoice)
    {
      var steps := [];
      steps := steps + ["Observe the current situation"];
      steps := steps + ["Identify what's needed for " + goal];
      steps := steps + ["Try an approach"];
      steps := steps + ["See what happens"];
      steps := steps + ["Adjust and repeat if needed"];
      p := Plan(now, goal, steps, 0, Thinking, 0.5);
      p := p.(status := Ready);
      plans := plans + [p];
    }

    /** `getNextAction`. */
    method GetNextAction() returns (a: Option<string>)
      requires Valid()
      modifies this
      ensures Valid()
      ensures a == NextAction(old(plans)) && plans == AfterNext(old(plans))
      ensures thoughts == old(thoughts) && imaginations == old(imaginations) && innerVoice == old(innerVoice)
    {
      NextActionMeaning(plans);
      var ps := plans;
      var r, found := ScanPlans(ps);
      plans := r;
      a := found;
    }

    /** The loop of `getNextAction` on the plan list. */
    static method ScanPlans(ps: seq<Plan>) returns (r: seq<Plan>, a: Option<string>)
      requires PlansInv(ps)
      ensures r == AfterNext(ps) && a == NextAction(ps)
    {
      var k := FirstRunnable(ps);
      r := ps;
      var i := 0;
      while i < |ps|
        invariant 0 <= i <= k && i <= |ps|
        invariant |r| == |ps|
        invariant forall j :: 0 <= j < i ==> r[j] == AfterNext(ps)[j]
        invariant forall j :: i <= j < |ps| ==> r[j] == ps[j]
      {
        var p := r[i];
        if p.status == InProgress || p.status == Ready {
          if p.currentStep < |p.steps| {
            r := r[i := p.(status := InProgress)];
            assert r == AfterNext(ps);
            return r, Some(p.steps[p.currentStep]);
          } else {
            r := r[i := p.(status := Completed)];
          }
        }
        i := i + 1;
      }
      assert r == AfterNext(ps);
      a := None;
    }

    /** `advancePlan`. */
    method AdvancePlan()
      requires Valid()
      modifies this
      ensures Valid()
      ensures plans == AfterAdvance(old(plans))
      ensures thoughts == old(thoughts) && imaginations == old(imaginations) && innerVoice == old(innerVoice)
    {
      AdvanceMeaning(plans);
      var ps := plans;
      var k := FirstInProgress(ps);
      var i := 0;
      while i < |ps|
        invariant 0 <= i <= k
        invariant plans == ps
      {
        if ps[i].status == InProgress {
          var p := ps[i].(currentStep := ps[i].currentStep + 1);
          if p.currentStep >= |p.steps| {
            p := p.(status := Completed);
          }
          plans := ps[i := p];
          return;
        }
        i := i + 1;
      }
    }

    /** `getRecentThoughts`: thoughts from index max(0, size - count) to the end. */
    method GetRecentThoughts(count: int) returns (r: seq<Thought>)
      ensures r == Latest(thoughts, count)
    {
      var ts := thoughts;
      r := [];
      var start := IMax(0, |ts| - count);
      var i := start;
      while i < |ts|
        invariant start <= i && (start <= |ts| ==> i <= |ts|)
        invariant start <= |ts| ==> r == ts[start..i]
        invariant start > |ts| ==> r == []
      {
        r := r + [ts[i]];
        i := i + 1;
      }
      if start <= |ts| {
        assert r == ts[start..];
      }
    }

    /** `getStatus`: sizes, the inner voice, and the active plans counted in one pass. */
    method GetStatus() returns (s: MindStatus)
      ensures s == MindStatus(|thoughts|, |imaginations|, ActiveCount(plans), innerVoice)
    {
      var ps := plans;
      var n := 0;
      var i := 0;
      while i < |ps|
        invariant 0 <= i <= |ps|
        invariant n == ActiveCount(ps[..i])
      {
        assert ps[..i + 1][..i] == ps[..i];
        if ps[i].status == InProgress || ps[i].status == Ready {
          n := n + 1;
        }
        i := i + 1;
      }
      assert ps[..i] == ps;
      s := MindStatus(|thoughts|, |imaginations|, n, innerVoice);
    }
  }
}
