/**
 * The patrolling guard's controller: the five-state machine, the navigation commands it
 * issues, the speed shaping and the capture contact. The navigation agent and the alert
 * icon are modelled as the small objects the controller commands.
 */
module Behaviour {
  import opened Common
  import opened AIStates
  import opened Perception
  import opened Managers
  import Ranking

  /** The navigation agent as the controller sees it: a speed, a stop flag and a destination. */
  class NavAgent<P> {
    var speed: real
    var stopped: bool
    var destination: Option<P>
    const stoppingDistance: real

    constructor (speed: real, stoppingDistance: real)
      ensures this.speed == speed && this.stoppingDistance == stoppingDistance
      ensures !stopped && destination == None
    {
      this.speed := speed;
      this.stoppingDistance := stoppingDistance;
      stopped := false;
      destination := None;
    }

    /** Halts without forgetting the destination. */
    method Stop()
      modifies this`stopped
      ensures stopped
    {
      stopped := true;
    }

    method Resume()
      modifies this`stopped
      ensures !stopped
    {
      stopped := false;
    }

    method SetDestination(target: P)
      modifies this`destination
      ensures destination == Some(target)
    {
      destination := Some(target);
    }
  }

  /** The exclamation-mark icon shown over an alerted guard. */
  class Marker {
    var active: bool

    constructor (active: bool)
      ensures this.active == active
    {
      this.active := active;
    }

    method SetActive(active: bool)
      modifies this`active
      ensures this.active == active
    {
      this.active := active;
    }
  }

  /**
   * The waypoint nearest to position: every waypoint is at least as far, and every earlier
   * one strictly farther (a tie goes to the lowest index).
   */
  method ClosestWaypoint<P>(position: P, waypoints: seq<P>, distance: (P, P) -> real) returns (closest: nat)
    requires |waypoints| >= 1
    ensures closest < |waypoints|
    ensures forall i :: 0 <= i < |waypoints| ==>
      distance(position, waypoints[closest]) <= distance(position, waypoints[i])
    ensures forall i :: 0 <= i < closest ==>
      distance(position, waypoints[closest]) < distance(position, waypoints[i])
  {
    closest := 0;
    var closestDistance := distance(position, waypoints[0]);
    for i := 1 to |waypoints|
      invariant closest < i
      invariant closestDistance == distance(position, waypoints[closest])
      invariant forall j :: 0 <= j < i ==> closestDistance <= distance(position, waypoints[j])
      invariant forall j :: 0 <= j < closest ==> closestDistance < distance(position, waypoints[j])
    {
      var d := distance(position, waypoints[i]);
      if d < closestDistance {
        closestDistance := d;
        closest := i;
      }
    }
  }

  function Max(a: real, b: real): real
  {
    if a >= b then a else b
  }

  /**
   * The agent's speed while playing: the nominal speed scaled by how well the guard faces
   * its steering target (dot, at most 1 for unit vectors), never below a tenth of it.
   */
  function ShapedSpeed(speed: real, dot: real): (r: real)
    ensures speed >= 0.0 ==> 0.1 * speed <= r
    ensures speed >= 0.0 && dot <= 1.0 ==> r <= speed
    ensures dot >= 0.1 ==> r == speed * dot
  {
    speed * Max(dot, 0.1)
  }

  /** Facing the steering target better never slows the guard down. */
  lemma {:induction false} ShapedSpeedMonotone(speed: real, dot1: real, dot2: real)
    requires speed >= 0.0 && dot1 <= dot2
    ensures ShapedSpeed(speed, dot1) <= ShapedSpeed(speed, dot2)
  {
    var m1, m2 := Max(dot1, 0.1), Max(dot2, 0.1);
    assert m1 <= m2;
    assert speed * m2 - speed * m1 == speed * (m2 - m1);
    assert speed * (m2 - m1) >= 0.0 by {
      Ranking.NonNegativeProduct(speed, m2 - m1);
    }
  }

  class AIController<P> {
    const agent: NavAgent<P>
    const perception: AIPerception<P>
    const exclamationMark: Marker
    /** Vector3.Distance on positions. */
    const distance: (P, P) -> real
    /** Inspector setting; nothing in the controller reads it. */
    const alertTime: real
    const investigateTime: real
    const normalColor: Color
    const suspectColor: Color
    const pursuitColor: Color

    var waypoints: seq<P>
    var state: State
    var speed: real
    var waitTime: real
    var currentWaypoint: int

    constructor (agent: NavAgent<P>, perception: AIPerception<P>, exclamationMark: Marker,
                 distance: (P, P) -> real, alertTime: real, investigateTime: real,
                 normalColor: Color, suspectColor: Color, pursuitColor: Color)
      ensures this.agent == agent && this.perception == perception && this.exclamationMark == exclamationMark
      ensures this.distance == distance && this.alertTime == alertTime && this.investigateTime == investigateTime
      ensures this.normalColor == normalColor && this.suspectColor == suspectColor && this.pursuitColor == pursuitColor
      ensures state == Patrol && speed == 0.0 && waitTime == 0.0 && currentWaypoint == 0 && waypoints == []
    {
      this.agent := agent;
      this.perception := perception;
      this.exclamationMark := exclamationMark;
      this.distance := distance;
      this.alertTime := alertTime;
      this.investigateTime := investigateTime;
      this.normalColor := normalColor;
      this.suspectColor := suspectColor;
      this.pursuitColor := pursuitColor;
      waypoints := [];
      state := Patrol;
      speed := 0.0;
      waitTime := 0.0;
      currentWaypoint := 0;
    }

    /**
     * Starts patrolling: normal cone colour, the agent's speed cached, the patrol path's
     * waypoints stored and the nearest one chosen, the icon hidden.
     */
    method Start(position: P, patrolPath: seq<P>)
      requires |patrolPath| >= 1
      modifies this, perception`viewConeColor, exclamationMark`active
      ensures state == Patrol && speed == agent.speed && waypoints == patrolPath && waitTime == old(waitTime)
      ensures 0 <= currentWaypoint < |waypoints|
      ensures forall i :: 0 <= i < |waypoints| ==>
        distance(position, waypoints[currentWaypoint]) <= distance(position, waypoints[i])
      ensures forall i :: 0 <= i < currentWaypoint ==>
        distance(position, waypoints[currentWaypoint]) < distance(position, waypoints[i])
      ensures perception.viewConeColor == normalColor && !exclamationMark.active
    {
      perception.SetViewConeColor(normalColor);
      state := Patrol;
      speed := agent.speed;
      waypoints := patrolPath;
      currentWaypoint := ClosestWaypoint(position, waypoints, distance);
      exclamationMark.SetActive(false);
    }

    /** The guard stands within stopping distance of the last known position. */
    predicate Arrived(position: P)
      reads perception
    {
      distance(perception.lastPosition, position) <= agent.stoppingDistance
    }

    /**
     * One tick: exactly the handler of the current state runs. confirmed is the
     * perception's HasConfirmedTarget(); position is the guard's, targetPosition the player's.
     */
    method Update(confirmed: bool, dt: real, position: P, targetPosition: P)
      modifies this`state, this`waitTime, agent`stopped, agent`destination
      modifies exclamationMark`active, perception`viewConeColor
      ensures Mode(state, waitTime) ==
        Step(Mode(old(state), old(waitTime)), Tick(confirmed, Arrived(position), dt), investigateTime)
      ensures old(state) == Patrol ==>
        unchanged(agent, exclamationMark) && perception.viewConeColor == old(perception.viewConeColor)
      ensures old(state) == Alert ==> agent.destination == old(agent.destination)
      ensures old(state) == Alert && (confirmed || state == Investigate) ==> !agent.stopped && !exclamationMark.active
      ensures old(state) == Alert && state == Alert ==> agent.stopped && exclamationMark.active
      ensures old(state) == Investigate && !confirmed ==> agent.destination == Some(perception.lastPosition)
      ensures (old(state) == Investigate && confirmed) || (old(state) == Pursuit && !confirmed) ==>
        agent.destination == old(agent.destination)
      ensures old(state) == Pursuit && confirmed ==> agent.destination == Some(targetPosition)
      ensures old(state) == Capture ==> agent.stopped && agent.destination == old(agent.destination)
      ensures state == Pursuit && old(state) != Pursuit ==> perception.viewConeColor == pursuitColor
      ensures state == Investigate && old(state) != Investigate ==> perception.viewConeColor == suspectColor
      ensures state == Patrol && old(state) != Patrol ==> perception.viewConeColor == normalColor
      ensures state == old(state) ==> perception.viewConeColor == old(perception.viewConeColor)
      ensures old(state) != Alert ==> exclamationMark.active == old(exclamationMark.active)
      ensures old(state) != Alert && old(state) != Capture ==> agent.stopped == old(agent.stopped)
    {
      match state
      case Patrol => UpdatePatrol();
      case Alert => UpdateAlert(confirmed, dt);
      case Investigate => UpdateInvestigate(confirmed, dt, position);
      case Pursuit => UpdatePursuit(confirmed, targetPosition);
      case Capture => UpdateCapture();
    }

    /** Patrol's handler has no body in the source. */
    method UpdatePatrol()
    {
    }

    /**
     * Alert: on sight, pursue at once; otherwise hold still with the icon shown and count
     * the wait down, then investigate with a fresh timer.
     */
    method UpdateAlert(confirmed: bool, dt: real)
      modifies this`state, this`waitTime, agent`stopped, exclamationMark`active, perception`viewConeColor
      ensures confirmed ==>
        state == Pursuit && waitTime == old(waitTime) && !agent.stopped && !exclamationMark.active &&
        perception.viewConeColor == pursuitColor
      ensures !confirmed && old(waitTime) - dt <= 0.0 ==>
        state == Investigate && waitTime == investigateTime && !agent.stopped && !exclamationMark.active &&
        perception.viewConeColor == suspectColor
      ensures !confirmed && old(waitTime) - dt > 0.0 ==>
        state == old(state) && waitTime == old(waitTime) - dt && agent.stopped && exclamationMark.active &&
        perception.viewConeColor == old(perception.viewConeColor)
    {
      if confirmed {
        agent.Resume();
        exclamationMark.SetActive(false);
        perception.SetViewConeColor(pursuitColor);
        state := Pursuit;
      } else {
        agent.Stop();
        exclamationMark.SetActive(true);
        waitTime := waitTime - dt;
        if waitTime <= 0.0 {
          agent.Resume();
          exclamationMark.SetActive(false);
          perception.SetViewConeColor(suspectColor);
          waitTime := investigateTime;
          state := Investigate;
        }
      }
    }

    /**
     * Investigate: on sight, pursue; otherwise head for the last known position, and once
     * there count the wait down, then patrol again.
     */
    method UpdateInvestigate(confirmed: bool, dt: real, position: P)
      modifies this`state, this`waitTime, agent`destination, perception`viewConeColor
      ensures confirmed ==>
        state == Pursuit && waitTime == old(waitTime) && perception.viewConeColor == pursuitColor &&
        agent.destination == old(agent.destination)
      ensures !confirmed ==> agent.destination == Some(perception.lastPosition)
      ensures !confirmed && !Arrived(position) ==>
        state == old(state) && waitTime == old(waitTime) && perception.viewConeColor == old(perception.viewConeColor)
      ensures !confirmed && Arrived(position) ==> waitTime == old(waitTime) - dt
      ensures !confirmed && Arrived(position) && waitTime <= 0.0 ==>
        state == Patrol && perception.viewConeColor == normalColor
      ensures !confirmed && Arrived(position) && waitTime > 0.0 ==>
        state == old(state) && perception.viewConeColor == old(perception.viewConeColor)
    {
      if confirmed {
        perception.SetViewConeColor(pursuitColor);
        state := Pursuit;
      } else {
        agent.SetDestination(perception.GetLastPosition());
        var d := distance(perception.GetLastPosition(), position);
        if d <= agent.stoppingDistance {
          waitTime := waitTime - dt;
          if waitTime <= 0.0 {
            perception.SetViewConeColor(normalColor);
            state := Patrol;
          }
        }
      }
    }

    /** Pursuit: follow the target while it is in sight; when sight is lost, investigate. */
    method UpdatePursuit(confirmed: bool, targetPosition: P)
      modifies this`state, this`waitTime, agent`destination, perception`viewConeColor
      ensures confirmed ==>
        state == old(state) && waitTime == old(waitTime) && agent.destination == Some(targetPosition) &&
        perception.viewConeColor == old(perception.viewConeColor)
      ensures !confirmed ==>
        state == Investigate && waitTime == investigateTime && perception.viewConeColor == suspectColor &&
        agent.destination == old(agent.destination)
    {
      if confirmed {
        agent.SetDestination(targetPosition);
      } else {
        perception.SetViewConeColor(suspectColor);
        waitTime := investigateTime;
        state := Investigate;
      }
    }

    /** Capture: stand still (turning toward the target is rotation maths). */
    method UpdateCapture()
      modifies agent`stopped
      ensures agent.stopped
    {
      agent.Stop();
    }

    /** While playing, the agent moves at the shaped speed; otherwise it stands still. */
    method LateUpdate(gm: GameplayManager, dot: real)
      modifies agent`speed
      ensures gm.CanPlay() ==> agent.speed == ShapedSpeed(speed, dot)
      ensures !gm.CanPlay() ==> agent.speed == 0.0
    {
      if gm.CanPlay() {
        agent.speed := ShapedSpeed(speed, dot);
      } else {
        agent.speed := 0.0;
      }
    }

    /** Touching the player while playing captures them and ends the game; any other contact does nothing. */
    method OnTriggerEnter(isPlayer: bool, gm: GameplayManager)
      modifies this`state, perception`viewConeColor, gm`state, gm.ui.ScreenObjects()
      ensures old(gm.CanPlay()) && isPlayer ==>
        state == Capture && perception.viewConeColor == pursuitColor && gm.state == GameOver &&
        forall i :: 0 <= i < gm.ui.screens.Length ==>
          gm.ui.screens[i].active == (gm.ui.screens[i].name == "GameOver")
      ensures !(old(gm.CanPlay()) && isPlayer) ==>
        state == old(state) && unchanged(gm, perception) && unchanged(gm.ui.ScreenObjects())
    {
      if gm.CanPlay() && isPlayer {
        perception.SetViewConeColor(pursuitColor);
        state := Capture;
        gm.OnPlayerCaught();
      }
    }
  }
}
