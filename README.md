# ISAAC stealth game core, modelled in Dafny

ISAAC is a small Unity stealth game. The player walks or runs through a level, collects
pickups and tries to reach the goal. Patrolling guards see the player through a view cone
and hear them when they run. This project models the game's core scripts:

- the guard's controller, with its five-state machine (Patrol, Alert, Investigate, Pursuit,
  Capture), its navigation commands, its speed shaping and its capture contact (`Behaviour`,
  `AIStates`);
- the guard's perception: the view-cone triangle fan, the ray angles, ranges and texture
  coordinates, the sight test and hearing (`Perception`);
- the gameplay manager's game flow, the UI manager's screens and HUD, and the localisation
  manager's table lookups (`Managers`, `LocTable`);
- the level manager's ranking (`Ranking`);
- the text the HUD shows: integer formatting, zero-padded timer fields, rank keys
  (`Formatting`, `Hud`);
- the player's running flag, its move speed, and what touching a pickup or the goal does
  (`Player`).

Modelling choices:

- Every component whose fields the scripts update in place is a class of the same name.
  Its methods carry `modifies` frames, and their `ensures` state the new value of everything
  the frame lets them change.
- The static `Instance` singletons are passed as explicit references. Because
  GameplayManager, UIManager and LocalizationManager refer to one another in a circle, they
  share the module `Managers`.
- The two statics that survive a scene reload are constructor arguments:
  `GameplayManager.Restart` and `LocalizationManager.currentLanguage`.
- Positions have an arbitrary type `P`, compared through a `distance` function that stands
  for `Vector3.Distance`.
- The physics raycast is a function from a world yaw angle to `Option<real>`: the hit
  distance, or nothing.
- The view-cone colour is a value of the `Color` datatype.
- The Unity navigation agent, the alert icon and the UI screen objects are small classes
  (`Behaviour.NavAgent`, `Behaviour.Marker`, `Managers.Screen`). They hold just the fields
  the scripts read and write.
- Floats are modelled as mathematical reals.

Several behaviours of the code are worth knowing before reading the contracts. Some handlers
are unfinished stubs: Patrol's handler (Assets/Scripts/AIController.cs:160-163) and the sight
test (Assets/Scripts/AIPerception.cs:127-132) hold only a placeholder comment. The model
captures the code as it stands:

- No transition into Alert exists, so Alert is unreachable (`AIStates.AlertNeverEntered`).
  The Alert handler is still modelled in full. `alertTime` is never read.
- Patrol's handler is empty. The state never advances the waypoint index, and an agent in
  Patrol never leaves it (`AIStates.PatrolAndCaptureAbsorb`).
- The sight test only clears the confirmed flag, so `targetConfirmed` is always false after
  a perception tick.
- The last known position is written only by hearing. It is never written when the target
  is confirmed.
- `AIController.Update` does not check `CanPlay()`, so the wait timers run outside play. Only
  the agent's speed (`LateUpdate`) is gated.
- Leaving Investigate for Patrol leaves `waitTime` at or below zero. It is re-armed only on
  entry to Investigate.
- The ray count is at least 3, from the inspector range of `numRays`.
- The HUD timer shows minutes, seconds and milliseconds of the time span. Whole hours are
  dropped, so the timer shows the time modulo one hour (`Hud.TimerTextRoundTrip`).

## Model

| member | source | states |
|---|---|---|
| Ranking.LevelManager.TotalTime | Assets/Scripts/LevelManager.cs:35 | without pickups the total time is the time spent, and with a non-negative bonus pickups never add time |
| Ranking.LevelManager.GetRank | Assets/Scripts/LevelManager.cs:29-48 | Gold exactly when the total time (time spent minus the pickup bonus) is within the gold limit; Silver exactly when it exceeds the gold limit but is within the silver limit; Bronze exactly when it exceeds both |
| Ranking.LevelManager.RankAntitone | Assets/Scripts/LevelManager.cs:35-47 | the rank depends only on the total time and never improves as the total time grows |
| Ranking.LevelManager.MorePickupsNeverWorse | Assets/Scripts/LevelManager.cs:35-47 | with a non-negative time bonus, more pickups in the same time never give a worse rank |
| Ranking.LevelManager.MoreTimeNeverBetter | Assets/Scripts/LevelManager.cs:35-47 | with the pickups fixed, more time spent never gives a better rank |
| Formatting.Digits | Assets/Scripts/UIManager.cs:80 | `int.ToString` digits: non-empty, all decimal digits, no leading zero |
| Formatting.DigitsValue | Assets/Scripts/UIManager.cs:80 | reading the digits of n back gives n |
| Formatting.DigitsLength | Assets/Scripts/UIManager.cs:90 | a number below 10^w has at most w digits |
| Formatting.LeadingZerosValue | Assets/Scripts/UIManager.cs:90 | leading zeros do not change the value of a digit string |
| Formatting.ZeroPad | Assets/Scripts/UIManager.cs:90 | the `00` / `000` custom format: all digits, exactly as long as the width or the number's own digits, whichever is longer |
| Formatting.ZeroPadExact | Assets/Scripts/UIManager.cs:90 | a number below 10^width pads to exactly width digits that read back as the number |
| Formatting.IntToString | Assets/Scripts/UIManager.cs:80 | the score text is non-empty |
| Formatting.IntToStringRoundTrip | Assets/Scripts/UIManager.cs:80 | every integer, negative ones included, is recovered from its text |
| Hud.Milliseconds | Assets/Scripts/UIManager.cs:89 | the time span's whole milliseconds lie within half a millisecond of the time in seconds |
| Hud.MinutesOf | Assets/Scripts/UIManager.cs:89-90 | the Minutes component of a time span is below 60 |
| Hud.SecondsOf | Assets/Scripts/UIManager.cs:89-90 | the Seconds component is below 60 |
| Hud.MillisOf | Assets/Scripts/UIManager.cs:89-90 | the Milliseconds component is below 1000 |
| Hud.TimerString | Assets/Scripts/UIManager.cs:90 | the `{0:00}:{1:00}:{2:000}` format; no contract of its own, and `Hud.TimerText` states the string's shape and fields |
| Hud.TimerText | Assets/Scripts/UIManager.cs:89-90 | the timer reads `mm:ss:fff`: nine characters, colons at 2 and 5, digit fields equal to the span's Minutes, Seconds and Milliseconds |
| Hud.TimerTextRoundTrip | Assets/Scripts/UIManager.cs:89-90 | the three fields rebuild the time in milliseconds modulo one hour |
| Hud.ClockComponents | Assets/Scripts/UIManager.cs:89-90 | a time span's Minutes, Seconds and Milliseconds make up its time within the hour |
| Hud.RankName | Assets/Scripts/UIManager.cs:100 | `PlayerRank.ToString()`; no contract of its own, and `Hud.RankKeyInjective` shows the names are distinct |
| Hud.RankKey | Assets/Scripts/UIManager.cs:100 | the rank's key is "Rank " followed by the rank's name |
| Hud.RankKeyInjective | Assets/Scripts/UIManager.cs:100 | different ranks are looked up under different keys |
| LocTable.OrderedMap.First | Assets/Scripts/LocalizationManager.cs:20 | `ElementAt(0).Value` of a non-empty table is the row of the first key inserted |
| LocTable.EmptyTable | Assets/Scripts/LocalizationManager.cs:11 | a valid table with no keys |
| Managers.LocalizationManager.constructor | Assets/Scripts/LocalizationManager.cs:10-12 | no languages, an empty table, and the current language the static already holds |
| Managers.LocalizationManager.Awake | Assets/Scripts/LocalizationManager.cs:14-30 | the table is the parsed one; the languages are the first row's columns in order; an unset current language becomes the first language, and a set one is kept |
| Managers.LocalizationManager.GetLocString | Assets/Scripts/LocalizationManager.cs:42-53 | the table's text when both the key and the language are present, `?_no_key_?` when either is missing |
| Managers.LocalizationManager.GetString | Assets/Scripts/LocalizationManager.cs:32-35 | the lookup of the key in the current language |
| Managers.LocalizationManager.GetLanguageString | Assets/Scripts/LocalizationManager.cs:37-40 | the lookup of the key "Language" in the given language |
| Managers.LocalizationManager.GetLanguages | Assets/Scripts/LocalizationManager.cs:55-58 | the list of languages, as a value that cannot alias the field |
| Managers.LocalizationManager.GetCurrentLanguage | Assets/Scripts/LocalizationManager.cs:60-63 | the current language |
| Managers.LocalizationManager.SetLanguage | Assets/Scripts/LocalizationManager.cs:65-76 | a known language becomes current and the HUD is redrawn in it; an unknown one leaves the language and the whole UI unchanged |
| Managers.UIManager.constructor | Assets/Scripts/UIManager.cs:16-20 | the screens, the localisation manager and the HUD flag as given; blank HUD texts |
| Managers.UIManager.ShowScreen | Assets/Scripts/UIManager.cs:41-50 | every screen is active exactly when its name is the given one |
| Managers.UIManager.ShowHUD | Assets/Scripts/UIManager.cs:56-59 | the HUD is shown exactly when asked |
| Managers.UIManager.UpdateHUD | Assets/Scripts/UIManager.cs:67-72 | the HUD shows the score, the timer and the rank, each in the current language's template |
| Managers.UIManager.ShowScore | Assets/Scripts/UIManager.cs:78-81 | the score text is the "HUD Score" template applied to the score's digits |
| Managers.UIManager.ShowTimer | Assets/Scripts/UIManager.cs:87-92 | the timer text is the "HUD Timer" template applied to the `mm:ss:fff` string |
| Managers.UIManager.ShowRank | Assets/Scripts/UIManager.cs:98-102 | the rank text is the "HUD Rank" template applied to the localised rank name |
| Managers.GameplayManager.CanPlay | Assets/Scripts/GameplayManager.cs:140-144 | play is possible exactly when the game is neither in the tutorial nor over |
| Managers.GameplayManager.constructor | Assets/Scripts/GameplayManager.cs:29-33 | a fresh scene: Tutorial (so play is off), Gold, no time, no score, the static restart flag as it stands |
| Managers.GameplayManager.Start | Assets/Scripts/GameplayManager.cs:41-61 | the HUD is refreshed; after a restart the flag is cleared, the game is InGame, the HUD is shown and every named screen is hidden; otherwise the HUD is hidden and only the tutorial screen is shown |
| Managers.GameplayManager.Update | Assets/Scripts/GameplayManager.cs:63-76 | while playing, the time grows by the frame time, the rank is the level's rank for it and the HUD shows both; otherwise time, rank and UI are unchanged |
| Managers.GameplayManager.OnStartGame | Assets/Scripts/GameplayManager.cs:89-94 | InGame, HUD shown, every named screen hidden |
| Managers.GameplayManager.OnRestart | Assets/Scripts/GameplayManager.cs:99-106 | the restart flag is set |
| Managers.GameplayManager.OnPickup | Assets/Scripts/GameplayManager.cs:111-116 | the score grows by one, the rank is recomputed for it and the HUD shows both |
| Managers.GameplayManager.OnPlayerCaught | Assets/Scripts/GameplayManager.cs:121-125 | GameOver (play is off) and only the GameOver screen is shown |
| Managers.GameplayManager.OnGoal | Assets/Scripts/GameplayManager.cs:130-134 | GameOver (play is off) and only the YouWin screen is shown |
| Managers.GameplayManager.OnLanguageChanged | Assets/Scripts/GameplayManager.cs:146-150 | the HUD shows the score, time and rank in the current language |
| Player.PlayerController.constructor | Assets/Scripts/PlayerController.cs:6-11 | the speeds as configured; not running |
| Player.PlayerController.MoveSpeed | Assets/Scripts/PlayerController.cs:49 | the run speed while running, the walk speed otherwise |
| Player.PlayerController.IsRunning | Assets/Scripts/PlayerController.cs:114-117 | whether the player runs |
| Player.PlayerInput.Moving | Assets/Scripts/PlayerController.cs:41 | some movement axis is non-zero; no contract of its own, used by the FixedUpdate contract |
| Player.PlayerController.FixedUpdate | Assets/Scripts/PlayerController.cs:34-90 | while playing, a moving player runs exactly when a shift key is held and moves at the matching speed, and a still player stops running; outside play the flag keeps its value and there is no move |
| Player.PlayerController.OnTriggerEnter | Assets/Scripts/PlayerController.cs:92-108 | while playing, a pickup adds one to the score, recomputes the rank and redraws the HUD, leaving the state and the screens as they were; the goal ends the game on the YouWin screen, leaving score, rank and HUD texts as they were; time, restart flag and HUD flag never change; any other tag, or any contact outside play, changes nothing |
| Perception.TriangleIndices | Assets/Scripts/AIPerception.cs:40-50 | the index buffer holds (numRays - 1) triangles of three indices |
| Perception.FanTriangles | Assets/Scripts/AIPerception.cs:45-50 | triangle t joins the apex with vertices t + 1 and t + 2, and every index names one of the numRays + 1 vertices |
| Perception.FillTriangleFan | Assets/Scripts/AIPerception.cs:45-50 | the loop writes exactly the triangle fan into the index array |
| Perception.ConeEdges | Assets/Scripts/AIPerception.cs:79-84 | the first ray lies at minus half the view angle and the last at plus half |
| Perception.RayAnglesIncrease | Assets/Scripts/AIPerception.cs:79-84 | with a positive view angle the ray angles strictly increase from left to right |
| Perception.RayAngle | Assets/Scripts/AIPerception.cs:79-84 | ray i's angle; no contract of its own, and `Perception.ConeEdges` and `Perception.RayAnglesIncrease` state its edges and order |
| Perception.RayRange | Assets/Scripts/AIPerception.cs:87-98 | the view range when nothing is hit, the hit distance otherwise; never beyond the view range when the hit lies within it |
| Perception.RangeU | Assets/Scripts/AIPerception.cs:114 | not a finite number exactly when the view range is zero; otherwise u times the view range gives back 0.99 times the ray's range |
| Perception.EdgeV | Assets/Scripts/AIPerception.cs:105-111 | v is 0 exactly on the two edge rays and 1 inside the cone |
| Perception.RangeUBounds | Assets/Scripts/AIPerception.cs:87-98 | within a positive view range, u is a finite value in [0, 0.99], and exactly 0.99 when nothing is hit |
| Perception.AIPerception.constructor | Assets/Scripts/AIPerception.cs:11-31 | the inspector settings as given; no target; last position at the origin; no arrays yet |
| Perception.AIPerception.Start | Assets/Scripts/AIPerception.cs:33-62 | fresh arrays of numRays + 1 vertices and UVs; the apex at height 1 with UV (0, 1) and every other vertex and UV zero; the index buffer is the triangle fan; the confirmed flag is cleared |
| Perception.AIPerception.UpdateViewCone | Assets/Scripts/AIPerception.cs:75-122 | the end of ray i, vertex i + 1, lies at the ray's angle and at where the ray stops (the hit, else the view range); its UV is the range's u and the edge v; the apex is untouched |
| Perception.AIPerception.UpdateVision | Assets/Scripts/AIPerception.cs:127-132 | the confirmed flag is cleared |
| Perception.AIPerception.UpdateHearing | Assets/Scripts/AIPerception.cs:137-163 | a confirmed target is suspected; otherwise the target is suspected exactly when the player is within hearing range and running, and only then does the player's position become the last known one; a confirmed target always implies a suspected one |
| Perception.AIPerception.Update | Assets/Scripts/AIPerception.cs:64-70 | after cone, vision and hearing: the ray ends and their UVs as in UpdateViewCone with the apex untouched, nothing confirmed, suspected exactly when heard, and the last position moves only when heard |
| Perception.AIPerception.SetViewConeColor | Assets/Scripts/AIPerception.cs:179-182 | the target colour is the given one |
| Perception.AIPerception.HasConfirmedTarget | Assets/Scripts/AIPerception.cs:184-187 | the confirmed flag |
| Perception.AIPerception.HasSuspectedTarget | Assets/Scripts/AIPerception.cs:189-192 | the suspected flag |
| Perception.AIPerception.GetLastPosition | Assets/Scripts/AIPerception.cs:199-202 | the last known position |
| AIStates.Step | Assets/Scripts/AIController.cs:93-113 | one tick of the state machine: Patrol and Capture stay as they are; only Capture leads to Capture; only Alert leads to Alert; from Alert, Investigate and Pursuit the next state is Pursuit exactly when the target is confirmed, with the wait timer kept; losing sight in Pursuit re-arms the timer and investigates; investigating away from the last known position changes nothing |
| AIStates.PatrolAndCaptureAbsorb | Assets/Scripts/AIController.cs:160-163 | no run of ticks leaves Patrol or Capture |
| AIStates.AlertNeverEntered | Assets/Scripts/AIController.cs:93-113 | a run that does not start in Alert never reaches it |
| AIStates.CaptureOnlyByContact | Assets/Scripts/AIController.cs:93-113 | no run of ticks reaches Capture from another state |
| AIStates.AlertTimesOut | Assets/Scripts/AIController.cs:185-199 | waiting in Alert without sight for at least the wait time ends in Investigate with a fresh timer |
| AIStates.StaysInvestigating | Assets/Scripts/AIController.cs:216-223 | investigating without sight and without arriving keeps the mode unchanged |
| AIStates.InvestigateGivesUp | Assets/Scripts/AIController.cs:223-232 | waiting at the last known position without sight for at least the wait time ends in Patrol |
| AIStates.PursuitDecaysToPatrol | Assets/Scripts/AIController.cs:240-255 | after losing sight in Pursuit, standing at the last known position without sight for the investigate time ends in Patrol |
| Behaviour.ClosestWaypoint | Assets/Scripts/AIController.cs:78-87 | an index of the waypoints no farther than any other, and strictly nearer than every earlier one (ties go to the lowest index) |
| Behaviour.ShapedSpeed | Assets/Scripts/AIController.cs:134 | the nominal speed times the facing dot, never below a tenth of the speed and never above it for dot ≤ 1 |
| Behaviour.ShapedSpeedMonotone | Assets/Scripts/AIController.cs:134 | facing the steering target better never slows the guard |
| Behaviour.AIController.constructor | Assets/Scripts/AIController.cs:35-38 | Patrol, zero speed, zero wait time, waypoint 0 |
| Behaviour.AIController.Start | Assets/Scripts/AIController.cs:52-91 | Patrol with the normal colour, the agent's speed kept, the patrol path stored, the nearest waypoint chosen, the icon hidden |
| Behaviour.AIController.Arrived | Assets/Scripts/AIController.cs:222-223 | the guard stands within the agent's stopping distance of the last known position; no contract of its own, it is the `arrived` input of `AIStates.Step` |
| Behaviour.AIController.UpdatePatrol | Assets/Scripts/AIController.cs:160-163 | empty in the source, so it changes nothing; no contract of its own, and `AIStates.PatrolAndCaptureAbsorb` states the consequence |
| Behaviour.AIController.Update | Assets/Scripts/AIController.cs:93-113 | the state and wait timer move as `AIStates.Step` says; each state issues its navigation, icon and colour commands and nothing else |
| Behaviour.AIController.UpdateAlert | Assets/Scripts/AIController.cs:168-201 | on sight: resume, hide the icon, pursue; otherwise stop, show the icon and count down, and at zero resume, hide the icon and investigate with a fresh timer |
| Behaviour.AIController.UpdateInvestigate | Assets/Scripts/AIController.cs:206-235 | on sight: pursue; otherwise head for the last known position, and once within stopping distance count down and at zero patrol again |
| Behaviour.AIController.UpdatePursuit | Assets/Scripts/AIController.cs:240-255 | on sight: follow the target; otherwise investigate with a fresh timer |
| Behaviour.AIController.UpdateCapture | Assets/Scripts/AIController.cs:260-263 | the agent is stopped |
| Behaviour.AIController.LateUpdate | Assets/Scripts/AIController.cs:125-141 | while playing, the agent moves at the shaped speed; otherwise it stands still |
| Behaviour.AIController.OnTriggerEnter | Assets/Scripts/AIController.cs:143-155 | touching the player while playing captures them with the pursuit colour and ends the game on the GameOver screen; any other contact changes nothing |

## Left out

- Audio: every audio source is left out, with its creation, playing and stopping. This covers the guard's drone sounds after the state switch, the player's footsteps and pickup sound, and `UIManager.Start` / `UIManager.OnButton`.
- Rendering: the cone's mesh assignment, `RecalculateBounds` and the tint fade (`UpdateTintColor`, a colour lerp) are presentation. Only the target colour is modelled.
- Vertex placement: a cone vertex is `Polar(angle, range)`. It is not converted to x and z with sine and cosine, because trigonometry on reals is not available.
- `viewThreshold` is computed in `AIPerception.Start` but never read, since the sight test is a stub. `viewLayerMask` is read only by the view-cone raycast, and the raycast parameter stands for that query together with its obstacle mask.
- `GetTarget`: the player object is not modelled. Its position is a parameter of the methods that use it.
- Rotation: the capture swing in `UpdateCapture`, the icon's reset rotation, the player's `RotateTowards`, and the Rotator.cs and DoNotRotate.cs scripts are quaternion maths and are not part of this model.
- Player movement: `MovePosition` with the normalised direction is left out. `Player.PlayerController.FixedUpdate` returns the speed of the move instead. The input axes and shift keys are a parameter.
- Pickup removal: `Destroy` of the collected pickup is scene management and is left out.
- Scene reload: `ReloadScene` and the half-second `Invoke` are left out. A reloaded scene is a new GameplayManager built with the restart flag.
- CSV parsing: CSVReader is not part of this model. `Managers.LocalizationManager.Awake` takes the parsed table as a parameter.
- Managers.LocalizationManager.Awake: requires a non-empty table, and a non-empty first row when no language is set, because the source's `ElementAt(0)` and `First()` throw otherwise.
- Unknown languages: the warning logged by `SetLanguage` for an unknown language is I/O and is left out.
- Static texts: `UIManager.OnLanguageChanged` walks the screens' StaticTextManager components. StaticTextManager is not part of this model, so `Managers.GameplayManager.OnLanguageChanged` only redraws the HUD.
- Managers.UIManager.ShowScore: `string.Format` with a localised template is kept as a template and an argument (`HudText.Formatted`). The substitution itself is not modelled.
- Managers.UIManager.ShowTimer: requires a non-negative time, which the gameplay manager's time always is. `Hud.Milliseconds` rounds halves up, while .NET's `TimeSpan.FromSeconds` rounding of a float is only bounded to within half a millisecond.
- Floating point: floats are reals, so float rounding is not modelled. Integer scores are unbounded, so the score has no overflow.
- Perception.AIPerception.UpdateVision: models the stub exactly. No test of range, view angle or line of sight exists in the code, so none is modelled.
- Behaviour.AIController.Update: the perception's confirmed flag is passed in as `confirmed`. The order in which the engine runs the scripts within a frame is not modelled.
- Behaviour.AIController.Start: the nearest-waypoint scan starts from index 0, the field's initial value. A second Start that finds another index already in the field is not modelled.
- Behaviour.AIController.Start: requires a patrol path with at least one waypoint, because the source reads `waypoints[0]` and throws on an empty path.
- Managers.LocalizationManager.SetLanguage: requires that the gameplay manager's UI uses this localisation manager. The source reaches both through the one `LocalizationManager.Instance`.
- Behaviour.AIController.UpdatePatrol: has no body in the source, so it has no contract. Waypoint cycling does not exist in the code.
- Empty lifecycle methods: the empty `Start` and `Update` of LocalizationManager, and the singleton registration in the managers' `Awake`, do nothing the model needs.
