// The autonomous agent: a queue of goals kept in descending priority, each
// planned as a list of steps and worked through one step per call, the skills
// it practises, and the daily learning count from which its intelligence grows.
module AutonomousAgent {
  import opened Common

  /** Milliseconds in a day, after which the daily learning count restarts. */
  const DayMs := 86400000

  const CuriousTopics: seq<string> :=
    ["how things work", "science", "games", "music", "animals", "space", "technology", "history"]

  /** Proficiency above which a skill can be used. */
  const Able: real := 0.3

  datatype GoalStatus = Pending | InProgress | Completed | Failed | Abandoned

  datatype Goal = Goal(
    kind: string, target: string, priority: real, status: GoalStatus,
    created: int, steps: seq<string>, currentStep: int)

  datatype Skill = Skill(name: string, proficiency: real, practiceCount: int, lastPracticed: int)

  datatype AgentStatus = AgentStatus(
    intelligenceLevel: real, skillCount: nat, dailyLearningCount: int,
    thingsToLearn: nat, currentGoal: string, goalQueueSize: nat)

  /** The fields of the agent the model follows. */
  datatype AgentState = AgentState(
    current: Option<Goal>, queue: seq<Goal>, thingsToLearn: seq<string>,
    skills: map<string, Skill>, dailyCount: int, lastReset: int, intelligence: real)

  // ------------------------------------------------------------- planning

  /** `planGoal`: the fixed plan for each kind of goal; any other kind gets no steps. */
  function Plan(kind: string, target: string): seq<string>
  {
    if kind == "learn" then
      ["Search internet for: " + target, "Watch videos about: " + target,
       "Read articles about: " + target, "Try to understand and remember"]
    else if kind == "play_game" then
      ["Open game: " + target, "Wait for game to load", "Observe screen layout", "Learn controls", "Start playing"]
    else if kind == "send_message" then
      ["Open messaging app", "Find contact", "Type message", "Send message"]
    else if kind == "find" then
      ["Search for: " + target, "Read results", "Extract key information"]
    else []
  }

  /** The number of steps of each kind of plan. */
  lemma PlanLength(kind: string, target: string)
    ensures |Plan(kind, target)| == (if kind == "learn" then 4 else if kind == "play_game" then 5
                                     else if kind == "send_message" then 4 else if kind == "find" then 3 else 0)
  {
  }

  /** The steps whose execution counts as learning: a web search and a video search. */
  predicate RecordsLearning(step: string)
  {
    StartsWith(step, "Search internet for:") || StartsWith(step, "Watch videos about:")
  }

  /** A string that differs from `prefix` at position `k`, or is shorter than `k`, does not start with it. */
  lemma DiffersAt(step: string, prefix: string, k: nat)
    requires k < |prefix| && (k < |step| ==> step[k] != prefix[k])
    ensures !StartsWith(step, prefix)
  {
    if |prefix| <= |step| {
      assert step[..|prefix|][k] == step[k];
    }
  }

  /** Only the first two steps of a learning goal count as learning; no other plan has such a step. */
  lemma LearningSteps(kind: string, target: string, i: int)
    requires 0 <= i < |Plan(kind, target)|
    ensures RecordsLearning(Plan(kind, target)[i]) <==> kind == "learn" && i < 2
  {
    var step := Plan(kind, target)[i];
    var search := "Search internet for:";
    var watch := "Watch videos about:";
    if kind == "learn" && i == 0 {
      assert step[..|search|] == search;
    } else if kind == "learn" && i == 1 {
      assert step[..|watch|] == watch;
    } else if kind == "find" && i == 0 {
      DiffersAt(step, search, 7);
      DiffersAt(step, watch, 0);
    } else if kind == "play_game" && i == 1 {
      DiffersAt(step, search, 0);
      DiffersAt(step, watch, 2);
    } else if kind == "play_game" && i == 4 {
      DiffersAt(step, search, 1);
      DiffersAt(step, watch, 0);
    } else if kind == "send_message" && i == 3 {
      DiffersAt(step, search, 2);
      DiffersAt(step, watch, 0);
    } else {
      assert step[0] != 'S' && step[0] != 'W';
      DiffersAt(step, search, 0);
      DiffersAt(step, watch, 0);
    }
  }

  /** `setGoal`'s new goal: pending, at its first step, with its plan. */
  function NewGoal(kind: string, target: string, priority: real, now: int): Goal
  {
    Goal(kind, target, priority, Pending, now, Plan(kind, target), 0)
  }

  function PriorityOf(g: Goal): real { g.priority }

  /**
   * `setGoal`: the goal is appended and the list stably sorted by descending
   * priority; on a queue already in that order this is inserting the goal
   * behind every goal of equal or higher priority.
   */
  function Queued(s: AgentState, kind: string, target: string, priority: real, now: int): AgentState
  {
    s.(queue := InsertDescending(s.queue, NewGoal(kind, target, priority, now), PriorityOf))
  }

  // ---------------------------------------------------------------- skills

  /** `addSkill`: a missing skill starts at zero; the gain is added up to 1 and the practice counted. */
  function WithSkill(skills: map<string, Skill>, name: string, gain: real, now: int): (r: map<string, Skill>)
    ensures r.Keys == skills.Keys + {name}
    ensures r[name].proficiency == Min(1.0, (if name in skills then skills[name].proficiency else 0.0) + gain)
    ensures r[name].practiceCount == (if name in skills then skills[name].practiceCount else 0) + 1
    ensures forall k :: k in skills && k != name ==> r[k] == skills[k]
  {
    var o := if name in skills then skills[name] else Skill(name, 0.0, 0, 0);
    skills[name := o.(proficiency := Min(1.0, o.proficiency + gain), practiceCount := o.practiceCount + 1, lastPracticed := now)]
  }

  /** `canDo`. */
  predicate CanDo(skills: map<string, Skill>, name: string)
  {
    name in skills && skills[name].proficiency > Able
  }

  /** The proficiency after `n` practices of 0.1 each, starting from nothing. */
  function Practiced(n: nat): real
  {
    if n == 0 then 0.0 else Min(1.0, Practiced(n - 1) + 0.1)
  }

  /** Practice at 0.1 a time reaches `n` tenths, and the skill becomes usable at the fourth practice. */
  lemma {:induction false} PracticedMeaning(n: nat)
    ensures Practiced(n) == Min(1.0, n as real / 10.0)
    ensures Practiced(n) > Able <==> n >= 4
  {
    if n > 0 {
      PracticedMeaning(n - 1);
    }
  }

  /** Each practice of 0.1 on a skill takes it one step along `Practiced`. */
  lemma PracticeStep(skills: map<string, Skill>, name: string, n: nat, now: int)
    requires if n == 0 then name !in skills else name in skills && skills[name].proficiency == Practiced(n)
    ensures WithSkill(skills, name, 0.1, now)[name].proficiency == Practiced(n + 1)
  {
  }

  // -------------------------------------------------------------- learning

  /** `recordLearning`: one more learning today, and 0.01 intelligence each time the count reaches a multiple of ten. */
  function RecordLearning(s: AgentState): AgentState
  {
    var c := s.dailyCount + 1;
    s.(dailyCount := c, intelligence := if c % 10 == 0 then s.intelligence + 0.01 else s.intelligence)
  }

  function LearnTimes(s: AgentState, n: nat): AgentState
  {
    if n == 0 then s else RecordLearning(LearnTimes(s, n - 1))
  }

  /** `n` learnings raise intelligence by 0.01 for every multiple of ten the count passes. */
  lemma {:induction false} LearnTimesMeaning(s: AgentState, n: nat)
    requires s.dailyCount >= 0
    ensures LearnTimes(s, n).dailyCount == s.dailyCount + n
    ensures LearnTimes(s, n).intelligence == s.intelligence + 0.01 * ((s.dailyCount + n) / 10 - s.dailyCount / 10) as real
    ensures LearnTimes(s, n).current == s.current && LearnTimes(s, n).queue == s.queue
    ensures LearnTimes(s, n).skills == s.skills
  {
    if n > 0 {
      LearnTimesMeaning(s, n - 1);
      var c := s.dailyCount + n;
      assert c % 10 == 0 ==> c / 10 == (c - 1) / 10 + 1;
      assert c % 10 != 0 ==> c / 10 == (c - 1) / 10;
    }
  }

  /** Ten learnings in a row add exactly 0.01, wherever the count stood. */
  lemma TenLearnings(s: AgentState)
    requires s.dailyCount >= 0
    ensures LearnTimes(s, 10).intelligence == s.intelligence + 0.01
  {
    LearnTimesMeaning(s, 10);
    assert (s.dailyCount + 10) / 10 == s.dailyCount / 10 + 1;
  }

  // ------------------------------------------------------------- stepping

  /** The daily learning count restarts once more than a day has passed since the last restart. */
  function DayReset(s: AgentState, now: int): AgentState
  {
    if now - s.lastReset > DayMs then s.(dailyCount := 0, lastReset := now) else s
  }

  /** `executeStep` with the controller calls left out: only its learning is recorded. */
  function ExecuteStep(s: AgentState, step: string): AgentState
  {
    if RecordsLearning(step) then RecordLearning(s) else s
  }

  /** `onGoalCompleted`: a learned concept or a game skill, 0.01 intelligence, and no current goal. */
  function GoalCompleted(s: AgentState, g: Goal, now: int): AgentState
  {
    var s1 := if g.kind == "learn" then s.(dailyCount := s.dailyCount + 1)
              else if g.kind == "play_game" then s.(skills := WithSkill(s.skills, "play_" + g.target, 0.1, now))
              else s;
    s1.(intelligence := s1.intelligence + 0.01, current := None)
  }

  /** Work on the current goal: its next step, or its completion once the steps are exhausted. */
  function Advance(s: AgentState, now: int): AgentState
    requires s.current.Some? && s.current.value.currentStep >= 0
  {
    var g := s.current.value;
    if g.currentStep < |g.steps| then
      ExecuteStep(s.(current := Some(g.(currentStep := g.currentStep + 1))), g.steps[g.currentStep])
    else
      GoalCompleted(s, g.(status := Completed), now)
  }

  /** `autonomousCuriosity`; `pick` is the random draw: `None` when it chose to do nothing, else the topic drawn. */
  function Curious(s: AgentState, pick: Option<nat>, now: int): AgentState
  {
    match pick
    case None => s
    case Some(i) => Queued(s, "learn", CuriousTopics[i % |CuriousTopics|], 0.5, now)
  }

  /** `processStep`. */
  function Stepped(s: AgentState, now: int, pick: Option<nat>): AgentState
    requires Inv(s)
  {
    var s0 := DayReset(s, now);
    if s0.current.None? || s0.current.value.status == Completed then
      if s0.queue != [] then
        Advance(s0.(current := Some(s0.queue[0].(status := InProgress)), queue := s0.queue[1..]), now)
      else Curious(s0, pick, now)
    else Advance(s0, now)
  }

  // ------------------------------------------------------------- invariant

  predicate Waiting(g: Goal)
  {
    g.status == Pending && g.currentStep == 0 && g.steps == Plan(g.kind, g.target)
  }

  predicate Running(g: Goal)
  {
    g.status == InProgress && 0 <= g.currentStep <= |g.steps| && g.steps == Plan(g.kind, g.target)
  }

  predicate SkillsInv(skills: map<string, Skill>)
  {
    forall k :: k in skills ==> skills[k].name == k && skills[k].proficiency <= 1.0 && skills[k].practiceCount >= 1
  }

  /**
   * The queue is in descending priority and holds pending, unstarted,
   * planned goals; the current goal is in progress within its plan.
   */
  predicate Inv(s: AgentState)
  {
    && DescendingBy(s.queue, PriorityOf)
    && (forall i :: 0 <= i < |s.queue| ==> Waiting(s.queue[i]))
    && (s.current.Some? ==> Running(s.current.value))
    && SkillsInv(s.skills)
    && s.dailyCount >= 0
  }

  /**
   * `setGoal` puts the planned goal behind every queued goal of the same or
   * higher priority and ahead of every lower one, the others keeping their
   * order.
   */
  lemma QueuedMeaning(s: AgentState, kind: string, target: string, priority: real, now: int)
    requires DescendingBy(s.queue, PriorityOf)
    ensures var r := Queued(s, kind, target, priority, now); var g := NewGoal(kind, target, priority, now);
      var p := InsertPos(s.queue, g, PriorityOf);
      && r.queue == s.queue[..p] + [g] + s.queue[p..]
      && (forall i :: 0 <= i < p ==> s.queue[i].priority >= priority)
      && (forall i :: p <= i < |s.queue| ==> s.queue[i].priority < priority)
      && r.current == s.current && r.skills == s.skills && r.dailyCount == s.dailyCount
      && r.intelligence == s.intelligence && r.thingsToLearn == s.thingsToLearn
  {
    var g := NewGoal(kind, target, priority, now);
    var p := InsertPos(s.queue, g, PriorityOf);
    forall i | p <= i < |s.queue|
      ensures s.queue[i].priority < priority
    {
      assert PriorityOf(s.queue[i]) <= PriorityOf(s.queue[p]);
    }
  }

  /** Queuing a goal keeps the invariant. */
  lemma QueuedKeeps(s: AgentState, kind: string, target: string, priority: real, now: int)
    requires Inv(s)
    ensures Inv(Queued(s, kind, target, priority, now))
  {
    var g := NewGoal(kind, target, priority, now);
    var r := Queued(s, kind, target, priority, now);
    var p := InsertPos(s.queue, g, PriorityOf);
    InsertKeepsDescending(s.queue, g, PriorityOf);
    forall i | 0 <= i < |r.queue|
      ensures Waiting(r.queue[i])
    {
      InsertedAtIndex(s.queue, g, PriorityOf, i);
    }
  }

  lemma SkillsKeep(skills: map<string, Skill>, name: string, gain: real, now: int)
    requires SkillsInv(skills)
    ensures SkillsInv(WithSkill(skills, name, gain, now))
  {
  }

  lemma DescendingTail(q: seq<Goal>)
    requires DescendingBy(q, PriorityOf) && q != []
    ensures DescendingBy(q[1..], PriorityOf)
  {
    forall i, j | 0 <= i < j < |q| - 1
      ensures PriorityOf(q[1..][i]) >= PriorityOf(q[1..][j])
    {
      assert q[1..][i] == q[i + 1] && q[1..][j] == q[j + 1];
    }
  }

  lemma AdvanceKeeps(s: AgentState, now: int)
    requires Inv(s) && s.current.Some?
    ensures Inv(Advance(s, now))
  {
    var g := s.current.value;
    if g.currentStep >= |g.steps| {
      SkillsKeep(s.skills, "play_" + g.target, 0.1, now);
    }
  }

  /** One step keeps the invariant. */
  lemma SteppedKeeps(s: AgentState, now: int, pick: Option<nat>)
    requires Inv(s)
    ensures Inv(Stepped(s, now, pick))
  {
    var s0 := DayReset(s, now);
    assert Inv(s0);
    if s0.current.None? {
      if s0.queue != [] {
        DescendingTail(s0.queue);
        var s1 := s0.(current := Some(s0.queue[0].(status := InProgress)), queue := s0.queue[1..]);
        forall i | 0 <= i < |s1.queue| ensures Waiting(s1.queue[i]) {
          assert s1.queue[i] == s0.queue[i + 1];
        }
        AdvanceKeeps(s1, now);
      } else if pick.Some? {
        QueuedKeeps(s0, "learn", CuriousTopics[pick.value % |CuriousTopics|], 0.5, now);
      }
    } else {
      AdvanceKeeps(s0, now);
    }
  }

  /** Repeated steps at one time with no curiosity. */
  function Run(s: AgentState, now: int, n: nat): (r: AgentState)
    requires Inv(s)
    ensures Inv(r)
    decreases n
  {
    if n == 0 then s
    else
      SteppedKeeps(s, now, None);
      Run(Stepped(s, now, None), now, n - 1)
  }

  /** With a goal in progress, a step works on that goal, whatever the queue holds. */
  lemma StepOnCurrent(s: AgentState, now: int)
    requires Inv(s) && s.current.Some?
    ensures var g := s.current.value; var t := Stepped(s, now, None);
      && t.queue == s.queue
      && (g.currentStep < |g.steps| ==> t.current == Some(g.(currentStep := g.currentStep + 1)) && t.intelligence >= s.intelligence)
      && (g.currentStep >= |g.steps| ==> t.current.None? && t.intelligence == s.intelligence + 0.01)
  {
    var s0 := DayReset(s, now);
    assert s0.current == s.current && s0.queue == s.queue && s0.intelligence == s.intelligence;
    assert Stepped(s, now, None) == Advance(s0, now);
    var g := s.current.value;
    if g.currentStep < |g.steps| {
      var s1 := s0.(current := Some(g.(currentStep := g.currentStep + 1)));
      assert Advance(s0, now) == ExecuteStep(s1, g.steps[g.currentStep]);
    } else {
      assert Advance(s0, now) == GoalCompleted(s0, g.(status := Completed), now);
    }
  }

  /** One more step at the front of a run. */
  lemma RunUnfold(s: AgentState, now: int, n: nat)
    requires Inv(s)
    ensures Inv(Stepped(s, now, None)) && Run(s, now, n + 1) == Run(Stepped(s, now, None), now, n)
  {
    SteppedKeeps(s, now, None);
  }

  /**
   * A goal in progress at step `j` of its `k` steps is closed by exactly
   * `k - j + 1` more steps (one per remaining step and one to close it);
   * they leave the queue alone and end 0.01 or more smarter.
   */
  lemma {:induction false} RunsToCompletion(s: AgentState, now: int)
    requires Inv(s) && s.current.Some?
    ensures var g := s.current.value; var r := Run(s, now, |g.steps| - g.currentStep + 1);
      r.current.None? && r.queue == s.queue && r.intelligence >= s.intelligence + 0.01
    decreases |s.current.value.steps| - s.current.value.currentStep
  {
    var g := s.current.value;
    var k := |g.steps| - g.currentStep;
    RunUnfold(s, now, k);
    StepOnCurrent(s, now);
    var t := Stepped(s, now, None);
    if g.currentStep < |g.steps| {
      RunsToCompletion(t, now);
    }
  }

  /** Until then the goal stays current. */
  lemma {:induction false} StaysCurrent(s: AgentState, now: int, n: nat)
    requires Inv(s) && s.current.Some? && n <= |s.current.value.steps| - s.current.value.currentStep
    ensures Run(s, now, n).current.Some?
    decreases n
  {
    if n > 0 {
      var t := Stepped(s, now, None);
      RunUnfold(s, now, n - 1);
      StepOnCurrent(s, now);
      if n > 1 {
        StaysCurrent(t, now, n - 1);
      }
    }
  }

  // ---------------------------------------------------------------- status

  function StatusOf(s: AgentState): (st: AgentStatus)
    ensures st.currentGoal == "None" <==> s.current.None?
    ensures st.goalQueueSize == |s.queue| && st.skillCount == |s.skills| && st.thingsToLearn == |s.thingsToLearn|
  {
    var goalName := if s.current.None? then "None" else s.current.value.kind + ": " + s.current.value.target;
    assert s.current.Some? ==> goalName[|s.current.value.kind|] == ':';
    assert forall i :: 0 <= i < 4 ==> "None"[i] != ':';
    AgentStatus(s.intelligence, |s.skills|, s.dailyCount, |s.thingsToLearn|, goalName, |s.queue|)
  }

  // ------------------------------------------------------------------ class

  class AIChildAutonomousAgent {
    var current: Option<Goal>
    var queue: seq<Goal>
    var thingsToLearn: seq<string>
    var skills: map<string, Skill>
    var dailyCount: int
    var lastReset: int
    var intelligence: real

    function State(): AgentState
      reads this
    {
      AgentState(current, queue, thingsToLearn, skills, dailyCount, lastReset, intelligence)
    }

    predicate Valid()
      reads this
    {
      Inv(State())
    }

    constructor ()
      ensures Valid()
      ensures State() == AgentState(None, [], [], map[], 0, 0, 1.0)
    {
      current := None;
      queue := [];
      thingsToLearn := [];
      skills := map[];
      dailyCount := 0;
      lastReset := 0;
      intelligence := 1.0;
    }

    /** `setGoal`. */
    method SetGoal(kind: string, target: string, priority: real, now: int)
      requires Valid()
      modifies this
      ensures Valid()
      ensures State() == Queued(old(State()), kind, target, priority, now)
    {
      QueuedKeeps(State(), kind, target, priority, now);
      var g := Goal(kind, target, priority, Pending, now, Plan(kind, target), 0);
      queue := InsertDescending(queue, g, PriorityOf);
    }

    /** `whatIsThis`: the thing is noted and a learning goal of priority 0.8 set. */
    method WhatIsThis(thing: string, now: int)
      requires Valid()
      modifies this
      ensures Valid()
      ensures State() == Queued(old(State()).(thingsToLearn := old(thingsToLearn) + [thing]), "learn", "what is " + thing, 0.8, now)
    {
      thingsToLearn := thingsToLearn + [thing];
      SetGoal("learn", "what is " + thing, 0.8, now);
    }

    /** `howDoIDoThis`: a learning goal of priority 0.9. */
    method HowDoIDoThis(action: string, now: int)
      requires Valid()
      modifies this
      ensures Valid()
      ensures State() == Queued(old(State()), "learn", "how to " + action, 0.9, now)
    {
      SetGoal("learn", "how to " + action, 0.9, now);
    }

    /** `processStep`; `pick` is the curiosity draw used only when there is nothing to do. */
    method ProcessStep(now: int, pick: Option<nat>)
      requires Valid()
      modifies this
      ensures Valid()
      ensures State() == Stepped(old(State()), now, pick)
    {
      SteppedKeeps(State(), now, pick);
      if now - lastReset > DayMs {
        dailyCount := 0;
        lastReset := now;
      }
      if current.None? || current.value.status == Completed {
        if queue != [] {
          current := Some(queue[0].(status := InProgress));
          queue := queue[1..];
        } else {
          if pick.Some? {
            QueuedKeeps(State(), "learn", CuriousTopics[pick.value % |CuriousTopics|], 0.5, now);
            SetGoal("learn", CuriousTopics[pick.value % |CuriousTopics|], 0.5, now);
          }
          return;
        }
      }
      AdvanceGoal(now);
    }

    /** The part of `processStep` that works on the current goal. */
    method AdvanceGoal(now: int)
      requires current.Some? && current.value.currentStep >= 0
      modifies this
      ensures State() == Advance(old(State()), now)
    {
      var g := current.value;
      if g.currentStep < |g.steps| {
        var step := g.steps[g.currentStep];
        current := Some(g.(currentStep := g.currentStep + 1));
        if StartsWith(step, "Search internet for:") || StartsWith(step, "Watch videos about:") {
          RecordStep();
        }
      } else {
        OnGoalCompleted(g.(status := Completed), now);
      }
    }

    /** `recordLearning`. */
    method RecordStep()
      modifies this
      ensures State() == RecordLearning(old(State()))
    {
      dailyCount := dailyCount + 1;
      if dailyCount % 10 == 0 {
        intelligence := intelligence + 0.01;
      }
    }

    /** `onGoalCompleted`, with the neural network and brain calls of `learnNewConcept` left out. */
    method OnGoalCompleted(g: Goal, now: int)
      modifies this
      ensures State() == GoalCompleted(old(State()), g, now)
    {
      if g.kind == "learn" {
        dailyCount := dailyCount + 1;
      } else if g.kind == "play_game" {
        AddSkill("play_" + g.target, 0.1, now);
      }
      intelligence := intelligence + 0.01;
      current := None;
    }

    /** `addSkill`. */
    method AddSkill(name: string, gain: real, now: int)
      modifies this
      ensures State() == old(State()).(skills := WithSkill(old(skills), name, gain, now))
    {
      var s := if name in skills then skills[name] else Skill(name, 0.0, 0, 0);
      s := s.(proficiency := Min(1.0, s.proficiency + gain));
      s := s.(practiceCount := s.practiceCount + 1, lastPracticed := now);
      skills := skills[name := s];
    }

    /** `canDo`: the skill is known and its proficiency is above 0.3. */
    method CanDoSkill(name: string) returns (b: bool)
      ensures b <==> CanDo(skills, name)
    {
      if name !in skills {
        return false;
      }
      b := skills[name].proficiency > Able;
    }

    /** `getStatus`. */
    method GetStatus() returns (st: AgentStatus)
      ensures st == StatusOf(State())
    {
      var goalName := "None";
      if current.Some? {
        goalName := current.value.kind + ": " + current.value.target;
      }
      st := AgentStatus(intelligence, |skills|, dailyCount, |thingsToLearn|, goalName, |queue|);
    }
  }
}
