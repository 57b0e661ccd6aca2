/**
 * The guard's behaviour states and what one controller tick does to the state and the
 * wait timer. The controller class applies this step; the lemmas here are about runs of it.
 */
module AIStates {

  datatype State = Patrol | Alert | Investigate | Pursuit | Capture

  /**
   * What one tick reads: whether the target is confirmed in sight, whether the guard stands
   * within stopping distance of the last known position, and the frame time.
   */
  datatype Tick = Tick(confirmed: bool, arrived: bool, dt: real)

  /** The state together with the wait timer used in Alert and Investigate. */
  datatype Mode = Mode(state: State, waitTime: real)

  /** One controller tick: the handler of the current state runs. */
  function Step(m: Mode, t: Tick, investigateTime: real): (next: Mode)
    ensures m.state == Patrol || m.state == Capture ==> next == m
    ensures next.state == Capture <==> m.state == Capture
    ensures next.state == Alert ==> m.state == Alert
    ensures m.state in {Alert, Investigate, Pursuit} ==> (next.state == Pursuit <==> t.confirmed)
    ensures t.confirmed && m.state != Patrol && m.state != Capture ==>
      next == Mode(Pursuit, m.waitTime)
    ensures m.state == Pursuit && !t.confirmed ==> next == Mode(Investigate, investigateTime)
    ensures m.state == Investigate && !t.confirmed && !t.arrived ==> next == m
  {
    match m.state
    case Patrol => m
    case Alert =>
      if t.confirmed then Mode(Pursuit, m.waitTime)
      else
        var w := m.waitTime - t.dt;
        if w <= 0.0 then Mode(Investigate, investigateTime) else Mode(Alert, w)
    case Investigate =>
      if t.confirmed then Mode(Pursuit, m.waitTime)
      else if t.arrived then
        var w := m.waitTime - t.dt;
        if w <= 0.0 then Mode(Patrol, w) else Mode(Investigate, w)
      else m
    case Pursuit =>
      if t.confirmed then m else Mode(Investigate, investigateTime)
    case Capture => m
  }

  /** The mode after a sequence of ticks. */
  function Run(m: Mode, ticks: seq<Tick>, investigateTime: real): Mode
    decreases |ticks|
  {
    if ticks == [] then m else Run(Step(m, ticks[0], investigateTime), ticks[1..], investigateTime)
  }

  /** The frame time a sequence of ticks covers. */
  function Elapsed(ticks: seq<Tick>): real
    decreases |ticks|
  {
    if ticks == [] then 0.0 else ticks[0].dt + Elapsed(ticks[1..])
  }

  /** Patrol and Capture are never left by ticks: Patrol's handler is empty and Capture has no exit. */
  lemma {:induction false} PatrolAndCaptureAbsorb(m: Mode, ticks: seq<Tick>, investigateTime: real)
    requires m.state == Patrol || m.state == Capture
    ensures Run(m, ticks, investigateTime) == m
    decreases |ticks|
  {
    if ticks != [] {
      PatrolAndCaptureAbsorb(Step(m, ticks[0], investigateTime), ticks[1..], investigateTime);
    }
  }

  /** No tick leads into Alert: a run that does not start in Alert never reaches it. */
  lemma {:induction false} AlertNeverEntered(m: Mode, ticks: seq<Tick>, investigateTime: real)
    requires m.state != Alert
    ensures Run(m, ticks, investigateTime).state != Alert
    decreases |ticks|
  {
    if ticks != [] {
      AlertNeverEntered(Step(m, ticks[0], investigateTime), ticks[1..], investigateTime);
    }
  }

  /** No tick leads into Capture: only the contact event does. */
  lemma {:induction false} CaptureOnlyByContact(m: Mode, ticks: seq<Tick>, investigateTime: real)
    requires m.state != Capture
    ensures Run(m, ticks, investigateTime).state != Capture
    decreases |ticks|
  {
    if ticks != [] {
      CaptureOnlyByContact(Step(m, ticks[0], investigateTime), ticks[1..], investigateTime);
    }
  }

  /**
   * Waiting in Alert: once the unconfirmed ticks cover the remaining wait, the guard
   * investigates with a fresh timer (it stays there while it has not arrived).
   */
  lemma {:induction false} AlertTimesOut(w: real, ticks: seq<Tick>, investigateTime: real)
    requires |ticks| >= 1 && Elapsed(ticks) >= w
    requires forall i :: 0 <= i < |ticks| ==> !ticks[i].confirmed && !ticks[i].arrived
    ensures Run(Mode(Alert, w), ticks, investigateTime) == Mode(Investigate, investigateTime)
    decreases |ticks|
  {
    var next := Step(Mode(Alert, w), ticks[0], investigateTime);
    var rest := ticks[1..];
    if next.state == Investigate {
      StaysInvestigating(next, rest, investigateTime);
    } else {
      assert next == Mode(Alert, w - ticks[0].dt);
      assert Elapsed(ticks) == ticks[0].dt + Elapsed(rest);
      AlertTimesOut(w - ticks[0].dt, rest, investigateTime);
    }
  }

  /** Investigating away from the last known position, without sight, changes nothing. */
  lemma {:induction false} StaysInvestigating(m: Mode, ticks: seq<Tick>, investigateTime: real)
    requires m.state == Investigate
    requires forall i :: 0 <= i < |ticks| ==> !ticks[i].confirmed && !ticks[i].arrived
    ensures Run(m, ticks, investigateTime) == m
    decreases |ticks|
  {
    if ticks != [] {
      StaysInvestigating(Step(m, ticks[0], investigateTime), ticks[1..], investigateTime);
    }
  }

  /**
   * Waiting at the last known position: once the unconfirmed ticks spent there cover the
   * remaining wait, the guard is back in Patrol.
   */
  lemma {:induction false} InvestigateGivesUp(w: real, ticks: seq<Tick>, investigateTime: real)
    requires |ticks| >= 1 && Elapsed(ticks) >= w
    requires forall i :: 0 <= i < |ticks| ==> !ticks[i].confirmed && ticks[i].arrived
    ensures Run(Mode(Investigate, w), ticks, investigateTime).state == Patrol
    decreases |ticks|
  {
    var next := Step(Mode(Investigate, w), ticks[0], investigateTime);
    var rest := ticks[1..];
    if next.state == Patrol {
      PatrolAndCaptureAbsorb(next, rest, investigateTime);
    } else {
      assert next == Mode(Investigate, w - ticks[0].dt);
      assert Elapsed(ticks) == ticks[0].dt + Elapsed(rest);
      InvestigateGivesUp(w - ticks[0].dt, rest, investigateTime);
    }
  }

  /**
   * The decay path: a pursuer that loses sight investigates, and after investigateTime
   * seconds at the last known position without seeing the target it patrols again.
   */
  lemma {:induction false} PursuitDecaysToPatrol(w: real, lost: Tick, ticks: seq<Tick>, investigateTime: real)
    requires !lost.confirmed
    requires |ticks| >= 1 && Elapsed(ticks) >= investigateTime
    requires forall i :: 0 <= i < |ticks| ==> !ticks[i].confirmed && ticks[i].arrived
    ensures Run(Mode(Pursuit, w), [lost] + ticks, investigateTime).state == Patrol
  {
    assert ([lost] + ticks)[1..] == ticks;
    InvestigateGivesUp(investigateTime, ticks, investigateTime);
  }
}
