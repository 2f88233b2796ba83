/**
 * The AI client's reproduction state: a five-stage machine (0 start,
 * 1 connect_nbr sent, 2 fork sent, 3 agent to create, 4 done) guarded by a
 * food minimum fixed at creation and a 30-second timeout, with a cap of two
 * failed connect_nbr or fork commands.
 *
 * The clock, the food count, the command manager's last connect_nbr answer
 * and whether an agent thread is reachable are inputs of each call; the
 * planner context's needs_vision_update entry and the agent state's
 * needs_repro flag are fields.
 */
module Reproduction {
  import opened Wrappers
  import opened Strategy

  /** The state's fields, with the two shared flags it writes. */
  datatype Repro = Repro(
    stage: int,
    created: bool,
    shouldCreate: bool,
    startTime: real,
    attempts: int,
    needsVisionUpdate: bool,
    needsRepro: bool)

  /** What one execute call yields: the new fields, the command sent, and whether an agent was spawned. */
  datatype Step = Step(next: Repro, action: Option<Command>, spawned: bool)

  const Timeout: real := 30.0
  const MaxForkAttempts: int := 2

  /** _calculate_min_food_for_fork: fork cost 3 plus margin 10, times 1.5 truncated from level 3. */
  function MinFood(level: int): (n: int)
    ensures level >= 3 ==> n == 19
    ensures level < 3 ==> n == 13
  {
    var base := 3 + 10;
    if level >= 3 then base * 3 / 2 else base
  }

  /** Stages are 0 to 4. */
  predicate StageInRange(s: Repro)
  {
    0 <= s.stage <= 4
  }

  /** _create_new_agent: the agent is spawned only when an agent thread is found, but the flags change either way. */
  function Created(s: Repro, agentFound: bool): (r: Step)
    ensures r.next.created && !r.next.shouldCreate && r.next.stage == 4 && r.next.needsVisionUpdate
    ensures r.action.None? && (r.spawned <==> agentFound)
  {
    Step(s.(created := true, shouldCreate := false, stage := 4, needsVisionUpdate := true), None, agentFound)
  }

  /**
   * _handle_fork_sequence with food already at the minimum or above;
   * lastConnect is the slot count of the last connect_nbr success, if any.
   */
  function ForkSequence(s: Repro, minFood: int, food: int, lastConnect: Option<int>): (r: Step)
    ensures !r.spawned && r.next.created == s.created
    ensures r.next.attempts == s.attempts && r.next.startTime == s.startTime
  {
    if s.stage == 0 then Step(s.(stage := 1), Some(Send(ConnectNbr)), false)
    else if s.stage == 1 then
      match lastConnect
      case None => Step(s, None, false)
      case Some(slots) =>
        if slots == 0 && food >= minFood then Step(s.(stage := 2), Some(Send(Fork)), false)
        else if slots > 0 then Step(s.(shouldCreate := true, stage := 3), None, false)
        else Step(s.(stage := 4), None, false)
    else Step(s, None, false)
  }

  /** execute at time now with the given food count. */
  function Tick(s: Repro, minFood: int, now: real, food: int, lastConnect: Option<int>, agentFound: bool): (r: Step)
    ensures r.spawned ==> s.shouldCreate && !s.created && agentFound
    ensures s.created ==> r.next.created
    ensures r.next.attempts == s.attempts && r.next.startTime == s.startTime && r.next.needsRepro == s.needsRepro
  {
    if food < minFood then Step(s, None, false)
    else if now - s.startTime > Timeout then Step(s, None, false)
    else if s.shouldCreate && !s.created then Created(s, agentFound)
    else ForkSequence(s, minFood, food, lastConnect)
  }

  /** on_command_success: a fork that succeeded asks for the agent to be created. */
  function Succeeded(s: Repro, kind: CommandType): (r: Repro)
    ensures r.created == s.created && r.attempts == s.attempts
    ensures kind != Fork ==> r == s
  {
    if kind == Fork then s.(shouldCreate := true, stage := 3) else s
  }

  /** on_command_failed: a failed connect_nbr or fork counts an attempt, and retries from stage 0 until the cap. */
  function Failed(s: Repro, kind: CommandType): (r: Repro)
    ensures r.created == s.created && r.shouldCreate == s.shouldCreate
    ensures kind != ConnectNbr && kind != Fork ==> r == s
  {
    if kind == ConnectNbr || kind == Fork then
      var attempts := s.attempts + 1;
      s.(attempts := attempts, stage := if attempts >= MaxForkAttempts then 4 else 0)
    else s
  }

  /** on_event, given the food count. */
  function OnEvent(e: Event, food: int, minFood: int): (r: Option<NextState>)
    ensures r == Some(Emergency) <==> e == FoodEmergency
    ensures r == Some(CollectFood) <==> e == FoodLow && food <= minFood
    ensures r != Some(Explore)
  {
    if e == FoodEmergency then Some(Emergency)
    else if e == FoodLow && food <= minFood then Some(CollectFood)
    else None
  }

  /** is_reproduction_complete. */
  predicate IsComplete(s: Repro)
  {
    s.stage == 4 && s.created
  }

  /** on_enter at time now: back to stage 0 with no agent created and no attempt made, and reproduction requested. */
  function Entered(s: Repro, now: real): (r: Repro)
    ensures StageInRange(r) && !IsComplete(r) && r.needsRepro
  {
    s.(stage := 0, created := false, shouldCreate := false, attempts := 0, startTime := now, needsRepro := true)
  }

  /** on_exit: reproduction no longer requested. */
  function Exited(s: Repro): (r: Repro)
    ensures !r.needsRepro
  {
    s.(needsRepro := false)
  }

  class ReproductionState {
    const minFood: int
    var stage: int
    var created: bool
    var shouldCreate: bool
    var startTime: real
    var attempts: int
    var needsVisionUpdate: bool
    var needsRepro: bool

    function Fields(): Repro
      reads this
    {
      Repro(stage, created, shouldCreate, startTime, attempts, needsVisionUpdate, needsRepro)
    }

    /** __init__ for an agent at the given level, at time now, over the shared flags as they stand. */
    constructor(level: int, now: real, visionFlag: bool, reproFlag: bool)
      ensures minFood == MinFood(level)
      ensures Fields() == Repro(0, false, false, now, 0, visionFlag, reproFlag)
    {
      minFood := MinFood(level);
      stage, created, shouldCreate, startTime, attempts := 0, false, false, now, 0;
      needsVisionUpdate, needsRepro := visionFlag, reproFlag;
    }

    /** execute; spawned tells whether create_new_agent was called on an agent thread. */
    method Execute(now: real, food: int, lastConnect: Option<int>, agentFound: bool) returns (action: Option<Command>, spawned: bool)
      modifies this
      ensures Step(Fields(), action, spawned) == Tick(old(Fields()), minFood, now, food, lastConnect, agentFound)
    {
      if food < minFood {
        return None, false;
      }
      if now - startTime > Timeout {
        return None, false;
      }
      if shouldCreate && !created {
        spawned := CreateNewAgent(agentFound);
        return None, spawned;
      }
      action := HandleForkSequence(food, lastConnect);
      spawned := false;
    }

    /** _create_new_agent. */
    method CreateNewAgent(agentFound: bool) returns (spawned: bool)
      modifies this
      ensures Step(Fields(), None, spawned) == Created(old(Fields()), agentFound)
    {
      spawned := agentFound;
      created := true;
      shouldCreate := false;
      stage := 4;
      needsVisionUpdate := true;
    }

    /** _handle_fork_sequence. */
    method HandleForkSequence(food: int, lastConnect: Option<int>) returns (action: Option<Command>)
      modifies this
      ensures Step(Fields(), action, false) == ForkSequence(old(Fields()), minFood, food, lastConnect)
    {
      action := None;
      if stage == 0 {
        stage := 1;
        action := Some(Send(ConnectNbr));
      } else if stage == 1 {
        if lastConnect.None? {
          return;
        }
        var slots := lastConnect.value;
        if slots == 0 && HasEnoughForFork(food) {
          stage := 2;
          action := Some(Send(Fork));
        } else if slots > 0 {
          shouldCreate := true;
          stage := 3;
        } else {
          stage := 4;
        }
      }
    }

    /** _has_enough_for_fork. */
    predicate HasEnoughForFork(food: int)
    {
      food >= minFood
    }

    method OnCommandSuccess(kind: CommandType)
      modifies this
      ensures Fields() == Succeeded(old(Fields()), kind)
    {
      if kind == Fork {
        shouldCreate := true;
        stage := 3;
      }
    }

    method OnCommandFailed(kind: CommandType)
      modifies this
      ensures Fields() == Failed(old(Fields()), kind)
    {
      if kind == ConnectNbr || kind == Fork {
        attempts := attempts + 1;
        if attempts >= MaxForkAttempts {
          stage := 4;
        } else {
          stage := 0;
        }
      }
    }

    predicate IsReproductionComplete()
      reads this
    {
      IsComplete(Fields())
    }

    method OnEnter(now: real)
      modifies this
      ensures Fields() == Entered(old(Fields()), now)
    {
      stage, created, shouldCreate, attempts, startTime := 0, false, false, 0, now;
      needsRepro := true;
    }

    method OnExit()
      modifies this
      ensures Fields() == Exited(old(Fields()))
    {
      needsRepro := false;
    }
  }

  // ---- properties ----------------------------------------------------------------------

  /** What reaches the state between two of its own steps. */
  datatype Input =
    | TickAt(now: real, food: int, lastConnect: Option<int>, agentFound: bool)
    | Success(kind: CommandType)
    | Failure(kind: CommandType)

  /** One input applied to the fields. */
  function Apply(s: Repro, minFood: int, i: Input): Step
  {
    match i
    case TickAt(now, food, lastConnect, agentFound) => Tick(s, minFood, now, food, lastConnect, agentFound)
    case Success(kind) => Step(Succeeded(s, kind), None, false)
    case Failure(kind) => Step(Failed(s, kind), None, false)
  }

  /** The fields after a run of inputs, and how many agents it spawned. */
  function Run(s: Repro, minFood: int, inputs: seq<Input>): (Repro, nat)
  {
    if inputs == [] then (s, 0)
    else
      var (t, n) := Run(s, minFood, inputs[..|inputs| - 1]);
      var step := Apply(t, minFood, inputs[|inputs| - 1]);
      (step.next, n + if step.spawned then 1 else 0)
  }

  /** While food is below the minimum, execute sends nothing and changes nothing. */
  lemma FoodGuard(s: Repro, minFood: int, now: real, food: int, lastConnect: Option<int>, agentFound: bool)
    requires food < minFood
    ensures Tick(s, minFood, now, food, lastConnect, agentFound) == Step(s, None, false)
  {
  }

  /** Past the timeout execute sends nothing and leaves every field, the stage included, as it was. */
  lemma TimeoutKeepsStage(s: Repro, minFood: int, now: real, food: int, lastConnect: Option<int>, agentFound: bool)
    requires now - s.startTime > Timeout
    ensures Tick(s, minFood, now, food, lastConnect, agentFound) == Step(s, None, false)
  {
  }

  /**
   * execute sends fork exactly when food is sufficient, the timeout has not
   * passed, no agent creation is pending, the stage is 1 and the last
   * connect_nbr reported no free slot.
   */
  lemma ForkOnlyWithoutSlots(s: Repro, minFood: int, now: real, food: int, lastConnect: Option<int>, agentFound: bool)
    ensures Tick(s, minFood, now, food, lastConnect, agentFound).action == Some(Send(Fork))
      <==> (food >= minFood && now - s.startTime <= Timeout && !(s.shouldCreate && !s.created)
            && s.stage == 1 && lastConnect == Some(0))
  {
  }

  /**
   * execute sends connect_nbr exactly when the guards pass, no creation is
   * pending and the stage is 0; it then moves to stage 1.
   */
  lemma ConnectNbrFromStageZero(s: Repro, minFood: int, now: real, food: int, lastConnect: Option<int>, agentFound: bool)
    ensures var r := Tick(s, minFood, now, food, lastConnect, agentFound);
      && (r.action == Some(Send(ConnectNbr)) <==> (food >= minFood && now - s.startTime <= Timeout
            && !(s.shouldCreate && !s.created) && s.stage == 0))
      && (r.action == Some(Send(ConnectNbr)) ==> r.next.stage == 1)
  {
  }

  /**
   * At stage 1 the food guard has already passed, so a count of zero free
   * slots always leads to a fork, and only a negative count ends at stage 4.
   */
  lemma StageOneOutcomes(s: Repro, minFood: int, now: real, food: int, slots: int, agentFound: bool)
    requires s.stage == 1 && !(s.shouldCreate && !s.created)
    requires food >= minFood && now - s.startTime <= Timeout
    ensures var r := Tick(s, minFood, now, food, Some(slots), agentFound);
      && (slots == 0 ==> r.action == Some(Send(Fork)) && r.next.stage == 2)
      && (slots > 0 ==> r.action.None? && r.next.stage == 3 && r.next.shouldCreate)
      && (slots < 0 ==> r.action.None? && r.next.stage == 4 && !IsComplete(r.next) == !s.created)
  {
  }

  /** Every step keeps the stage between 0 and 4. */
  lemma StagePreserved(s: Repro, minFood: int, i: Input)
    requires StageInRange(s)
    ensures StageInRange(Apply(s, minFood, i).next)
  {
  }

  /**
   * A failed connect_nbr or fork counts one attempt; from the second one on
   * the machine stops at stage 4, before it retries from stage 0.
   */
  lemma RetryCap(s: Repro, kind: CommandType)
    requires kind == ConnectNbr || kind == Fork
    ensures var r := Failed(s, kind);
      && r.attempts == s.attempts + 1
      && (r.stage == 4 <==> s.attempts + 1 >= MaxForkAttempts)
      && (r.stage == 0 <==> s.attempts + 1 < MaxForkAttempts)
  {
  }

  /**
   * Running the pending creation always completes the reproduction, and
   * without an agent created before, nothing else completes it.
   */
  lemma CompletedByCreation(s: Repro, minFood: int, now: real, food: int, lastConnect: Option<int>, agentFound: bool)
    requires food >= minFood && now - s.startTime <= Timeout
    ensures var r := Tick(s, minFood, now, food, lastConnect, agentFound);
      && (s.shouldCreate && !s.created ==> IsComplete(r.next))
      && (!s.created && IsComplete(r.next) ==> s.shouldCreate)
  {
  }

  /** A run spawns no agent once one was created, and a single one at most before. */
  lemma {:induction false} RunSpawns(s: Repro, minFood: int, inputs: seq<Input>)
    ensures var (t, n) := Run(s, minFood, inputs);
      && n <= (if s.created then 0 else 1)
      && (n > 0 || s.created ==> t.created)
    decreases |inputs|
  {
    if inputs != [] {
      var init := inputs[..|inputs| - 1];
      RunSpawns(s, minFood, init);
      var (t, n) := Run(s, minFood, init);
      var step := Apply(t, minFood, inputs[|inputs| - 1]);
      assert step.spawned ==> !t.created;
      assert t.created ==> step.next.created;
    }
  }

  /** Between on_enter and the next on_enter, at most one agent is spawned. */
  lemma SpawnAtMostOncePerActivation(s: Repro, minFood: int, now: real, inputs: seq<Input>)
    ensures Run(Entered(s, now), minFood, inputs).1 <= 1
  {
    RunSpawns(Entered(s, now), minFood, inputs);
  }
}
