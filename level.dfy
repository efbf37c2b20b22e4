/**
 The level objective: a countdown timer, a spending budget and an "active"
 latch. Each frame the timer runs down; the level is lost when it reaches
 zero and won when the pipeline's flow meets the target first. Once ended,
 a level stays ended until it is initialised again.
 */
module Level {

  /** Inspector defaults of the level's objective fields. */
  const DefaultTimeLimit: real := 180.0
  const DefaultTargetFlow: real := 100.0
  const DefaultInitialBudget: real := 5000.0

  /** How the level ended, if it has. */
  datatype Outcome = Undecided | Won | Lost

  /** The fields the level changes while it runs, with the outcome it ended on. */
  datatype LevelState = LevelState(timeRemaining: real, currentBudget: real, isLevelActive: bool, outcome: Outcome)

  /** One frame as the level sees it: the elapsed time and the flow the pipeline reports. */
  datatype Frame = Frame(delta: real, flow: real)

  /** The state a freshly initialised level starts from. */
  function Initialized(timeLimit: real, initialBudget: real): (s: LevelState)
    ensures s.timeRemaining == timeLimit && s.currentBudget == initialBudget
    ensures s.isLevelActive && s.outcome == Undecided
  {
    LevelState(timeLimit, initialBudget, true, Undecided)
  }

  /** Ending the level: the latch drops and the outcome is recorded. */
  function Ended(s: LevelState, isWin: bool): (r: LevelState)
    ensures !r.isLevelActive && (r.outcome == Won <==> isWin) && r.outcome != Undecided
    ensures r.timeRemaining == s.timeRemaining && r.currentBudget == s.currentBudget
  {
    s.(isLevelActive := false, outcome := if isWin then Won else Lost)
  }

  /**
   The status check after the timer moved: out of time is a loss, checked
   before the flow; otherwise a flow at or above the target is a win.
   */
  function Checked(s: LevelState, flow: real, targetFlow: real): (r: LevelState)
    ensures s.timeRemaining <= 0.0 ==> r == Ended(s, false)
    ensures r.outcome == Won && s.outcome != Won ==> s.timeRemaining > 0.0 && flow >= targetFlow
    ensures s.timeRemaining > 0.0 && flow >= targetFlow ==> r == Ended(s, true)
    ensures s.timeRemaining > 0.0 && flow < targetFlow ==> r == s
  {
    if s.timeRemaining <= 0.0 then Ended(s, false)
    else if flow >= targetFlow then Ended(s, true)
    else s
  }

  /** One frame: an inactive level ignores it; an active one runs its timer down, then checks. */
  function Step(s: LevelState, f: Frame, targetFlow: real): (r: LevelState)
    ensures !s.isLevelActive ==> r == s
    ensures r.isLevelActive ==> s.isLevelActive
    ensures r.currentBudget == s.currentBudget
    ensures s.isLevelActive ==> r.timeRemaining == s.timeRemaining - f.delta
    ensures s.isLevelActive && s.timeRemaining - f.delta <= 0.0 ==> !r.isLevelActive && r.outcome == Lost
    ensures r.outcome == Won && s.outcome != Won ==>
      s.isLevelActive && s.timeRemaining - f.delta > 0.0 && f.flow >= targetFlow
    ensures s.isLevelActive && s.timeRemaining - f.delta > 0.0 ==>
      (r.isLevelActive <==> f.flow < targetFlow)
    ensures s.isLevelActive && s.timeRemaining - f.delta > 0.0 && f.flow >= targetFlow ==> r.outcome == Won
    ensures s.isLevelActive && s.timeRemaining - f.delta > 0.0 && f.flow < targetFlow ==>
      r == s.(timeRemaining := s.timeRemaining - f.delta)
  {
    if !s.isLevelActive then s
    else Checked(s.(timeRemaining := s.timeRemaining - f.delta), f.flow, targetFlow)
  }

  /**
   Spending: succeeds exactly when the budget covers the amount, and then
   takes exactly the amount off; a refusal changes nothing.
   */
  function Spend(s: LevelState, amount: real): (r: (bool, LevelState))
    ensures r.0 <==> s.currentBudget >= amount
    ensures r.0 ==> r.1 == s.(currentBudget := s.currentBudget - amount) && r.1.currentBudget >= 0.0
    ensures !r.0 ==> r.1 == s
  {
    if s.currentBudget >= amount then (true, s.(currentBudget := s.currentBudget - amount))
    else (false, s)
  }

  /** The state after a run of frames, one after another. */
  function Run(s: LevelState, frames: seq<Frame>, targetFlow: real): LevelState
    decreases |frames|
  {
    if frames == [] then s else Run(Step(s, frames[0], targetFlow), frames[1..], targetFlow)
  }

  /** The total time that elapses over a run of frames. */
  function Elapsed(frames: seq<Frame>): real
    decreases |frames|
  {
    if frames == [] then 0.0 else frames[0].delta + Elapsed(frames[1..])
  }

  /** An ended level stays ended: no number of frames changes it. */
  lemma {:induction false} EndedLevelStaysEnded(s: LevelState, frames: seq<Frame>, targetFlow: real)
    requires !s.isLevelActive
    ensures Run(s, frames, targetFlow) == s
    decreases |frames|
  {
    if frames != [] {
      EndedLevelStaysEnded(Step(s, frames[0], targetFlow), frames[1..], targetFlow);
    }
  }

  /** Frames never re-activate a level and never touch the budget. */
  lemma {:induction false} RunNeverReactivates(s: LevelState, frames: seq<Frame>, targetFlow: real)
    ensures Run(s, frames, targetFlow).isLevelActive ==> s.isLevelActive
    ensures Run(s, frames, targetFlow).currentBudget == s.currentBudget
    decreases |frames|
  {
    if frames != [] {
      RunNeverReactivates(Step(s, frames[0], targetFlow), frames[1..], targetFlow);
    }
  }

  /** While the level stays active, the timer has run down by exactly the elapsed time. */
  lemma {:induction false} ActiveRunCountsDown(s: LevelState, frames: seq<Frame>, targetFlow: real)
    requires Run(s, frames, targetFlow).isLevelActive
    ensures Run(s, frames, targetFlow).timeRemaining == s.timeRemaining - Elapsed(frames)
    ensures Run(s, frames, targetFlow).timeRemaining > 0.0 || frames == []
    decreases |frames|
  {
    if frames != [] {
      var next := Step(s, frames[0], targetFlow);
      RunNeverReactivates(next, frames[1..], targetFlow);
      ActiveRunCountsDown(next, frames[1..], targetFlow);
    }
  }

  /** A level cannot outlast its clock: once the elapsed time covers the time remaining, it has ended. */
  lemma RunEndsWhenTimeIsSpent(s: LevelState, frames: seq<Frame>, targetFlow: real)
    requires s.timeRemaining > 0.0 && Elapsed(frames) >= s.timeRemaining
    ensures !Run(s, frames, targetFlow).isLevelActive
  {
    if Run(s, frames, targetFlow).isLevelActive {
      ActiveRunCountsDown(s, frames, targetFlow);
    }
  }

  /** When time is up after the decrement, the flow reported for that frame does not matter. */
  lemma LossIgnoresFlow(s: LevelState, delta: real, flow1: real, flow2: real, targetFlow: real)
    requires s.timeRemaining - delta <= 0.0
    ensures Step(s, Frame(delta, flow1), targetFlow) == Step(s, Frame(delta, flow2), targetFlow)
  {
  }

  /** The level objective and the state it tracks, updated in place. */
  class LevelManager {
    var timeLimit: real
    var targetFlow: real
    var initialBudget: real

    var timeRemaining: real
    var currentBudget: real
    var isLevelActive: bool
    ghost var outcome: Outcome

    ghost function State(): LevelState
      reads this
    {
      LevelState(timeRemaining, currentBudget, isLevelActive, outcome)
    }

    /** The objective fields: public, set from outside, never changed by the level itself. */
    ghost function Objective(): (real, real, real)
      reads this
    {
      (timeLimit, targetFlow, initialBudget)
    }

    /** A level with the given objective, not yet started. */
    constructor (timeLimit: real, targetFlow: real, initialBudget: real)
      ensures this.timeLimit == timeLimit && this.targetFlow == targetFlow && this.initialBudget == initialBudget
      ensures State() == LevelState(0.0, 0.0, false, Undecided)
    {
      this.timeLimit := timeLimit;
      this.targetFlow := targetFlow;
      this.initialBudget := initialBudget;
      timeRemaining := 0.0;
      currentBudget := 0.0;
      isLevelActive := false;
      outcome := Undecided;
    }

    /** A level with the inspector's default objective, not yet started. */
    constructor WithDefaults()
      ensures timeLimit == DefaultTimeLimit && targetFlow == DefaultTargetFlow
      ensures initialBudget == DefaultInitialBudget
      ensures State() == LevelState(0.0, 0.0, false, Undecided)
    {
      timeLimit := DefaultTimeLimit;
      targetFlow := DefaultTargetFlow;
      initialBudget := DefaultInitialBudget;
      timeRemaining := 0.0;
      currentBudget := 0.0;
      isLevelActive := false;
      outcome := Undecided;
    }

    /** Starts (or restarts) the level from the objective's current values: full clock, full budget, active. */
    method InitializeLevel()
      modifies this
      ensures Objective() == old(Objective())
      ensures State() == Initialized(timeLimit, initialBudget)
    {
      timeRemaining := timeLimit;
      currentBudget := initialBudget;
      isLevelActive := true;
      outcome := Undecided;
    }

    /** One frame of `delta` seconds, with `flow` the pipeline's current flow, against the current target. */
    method Tick(delta: real, flow: real)
      modifies this
      ensures Objective() == old(Objective())
      ensures State() == Step(old(State()), Frame(delta, flow), targetFlow)
    {
      if !isLevelActive {
        return;
      }
      timeRemaining := timeRemaining - delta;
      CheckLevelStatus(flow);
    }

    /** Ends the level as lost when time is up, else as won when the flow meets the target. */
    method CheckLevelStatus(flow: real)
      modifies this
      ensures Objective() == old(Objective())
      ensures State() == Checked(old(State()), flow, targetFlow)
    {
      if timeRemaining <= 0.0 {
        EndLevel(false);
        return;
      }
      if flow >= targetFlow {
        EndLevel(true);
      }
    }

    /** Latches the level inactive and records how it ended. */
    method EndLevel(isWin: bool)
      modifies this
      ensures Objective() == old(Objective())
      ensures State() == Ended(old(State()), isWin)
    {
      isLevelActive := false;
      outcome := if isWin then Won else Lost;
    }

    /** Takes `amount` off the budget when the budget covers it; reports whether it did. */
    method SpendBudget(amount: real) returns (ok: bool)
      modifies this
      ensures Objective() == old(Objective())
      ensures (ok, State()) == Spend(old(State()), amount)
      ensures ok <==> old(currentBudget) >= amount
      ensures ok ==> currentBudget == old(currentBudget) - amount && currentBudget >= 0.0
      ensures !ok ==> currentBudget == old(currentBudget)
      ensures isLevelActive == old(isLevelActive) && timeRemaining == old(timeRemaining)
    {
      if currentBudget >= amount {
        currentBudget := currentBudget - amount;
        return true;
      }
      return false;
    }
  }
}
