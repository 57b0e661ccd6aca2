/**
 * The player: whether it runs (which is what the guards can hear), the speed it moves at,
 * and what touching a pickup or the goal does.
 */
module Player {
  import opened Common
  import opened Managers

  /** One physics tick's input: the raw movement axes and the two shift keys. */
  datatype PlayerInput = PlayerInput(moveX: real, moveZ: real, leftShift: bool, rightShift: bool)
  {
    predicate Moving()
    {
      moveX != 0.0 || moveZ != 0.0
    }
  }

  class PlayerController {
    const walkSpeed: real
    const runSpeed: real
    var running: bool

    constructor (walkSpeed: real, runSpeed: real)
      ensures this.walkSpeed == walkSpeed && this.runSpeed == runSpeed && !running
    {
      this.walkSpeed := walkSpeed;
      this.runSpeed := runSpeed;
      running := false;
    }

    /** The speed the player moves at: runSpeed while running, walkSpeed otherwise. */
    function MoveSpeed(): (speed: real)
      reads this
      ensures running ==> speed == runSpeed
      ensures !running ==> speed == walkSpeed
    {
      if running then runSpeed else walkSpeed
    }

    function IsRunning(): (r: bool)
      reads this
      ensures r == running
    {
      running
    }

    /**
     * Updates the running flag. While playing, a moving player runs exactly when a shift key
     * is held and a still player does not run; outside play the flag keeps its value. When
     * the player moves, the speed of that move is returned.
     */
    method FixedUpdate(gm: GameplayManager, input: PlayerInput) returns (moveSpeed: Option<real>)
      modifies this`running
      ensures gm.CanPlay() && input.Moving() ==>
        running == (input.leftShift || input.rightShift) && moveSpeed == Some(MoveSpeed())
      ensures gm.CanPlay() && !input.Moving() ==> !running && moveSpeed == None
      ensures !gm.CanPlay() ==> running == old(running) && moveSpeed == None
    {
      moveSpeed := None;
      if gm.CanPlay() {
        if input.moveX != 0.0 || input.moveZ != 0.0 {
          running := input.leftShift || input.rightShift;
          var speed := if running then runSpeed else walkSpeed;
          moveSpeed := Some(speed);
        } else {
          running := false;
        }
      }
    }

    /**
     * Touching a trigger while playing: a "Pickup" is collected, the "Goal" ends the game,
     * any other tag does nothing. Outside play nothing happens.
     */
    method OnTriggerEnter(tag: string, gm: GameplayManager)
      requires gm.Valid()
      modifies gm`score, gm`rank, gm`state, gm.ui`scoreText, gm.ui`timerText, gm.ui`rankText
      modifies gm.ui.ScreenObjects()
      ensures gm.Valid()
      ensures old(gm.CanPlay()) && tag == "Pickup" ==>
        gm.score == old(gm.score) + 1 && gm.rank == gm.level.GetRank(gm.timeSpent, gm.score) &&
        gm.state == old(gm.state) && gm.ui.ShowsHUD(gm.score, gm.timeSpent, gm.rank) &&
        unchanged(gm.ui.ScreenObjects())
      ensures old(gm.CanPlay()) && tag != "Pickup" && tag == "Goal" ==>
        gm.state == GameOver && gm.score == old(gm.score) && gm.rank == old(gm.rank) && unchanged(gm.ui) &&
        forall i :: 0 <= i < gm.ui.screens.Length ==>
          gm.ui.screens[i].active == (gm.ui.screens[i].name == "YouWin")
      ensures !old(gm.CanPlay()) || (tag != "Pickup" && tag != "Goal") ==>
        unchanged(gm, gm.ui) && unchanged(gm.ui.ScreenObjects())
    {
      if gm.CanPlay() {
        if tag == "Pickup" {
          gm.OnPickup();
        } else if tag == "Goal" {
          gm.OnGoal();
        }
      }
    }
  }
}
