/**
 * The three scene singletons and the way they call one another: the gameplay manager
 * drives the game flow and refreshes the UI manager; the UI manager switches screens and
 * writes the HUD from localised templates; the localisation manager looks texts up and
 * notifies the gameplay manager when the language changes. Each singleton is passed as an
 * explicit reference instead of through a static Instance. Because the references go in a
 * circle, the three classes share one module.
 */
module Managers {
  import opened Ranking
  import opened Formatting
  import opened Hud
  import opened LocTable

  /** The text returned for a key or a language the table does not have. */
  const NoKey: string := "?_no_key_?"

  // ---------------------------------------------------------------- localisation

  class LocalizationManager {
    var languages: seq<string>
    var locDictionary: Table
    /** A static in the source: it keeps its value when a scene is reloaded. "" stands for null or empty. */
    var currentLanguage: string

    /** A new manager; currentLanguage is the value the static already holds. */
    constructor (currentLanguage: string)
      ensures languages == [] && locDictionary == EmptyTable()
      ensures this.currentLanguage == currentLanguage
    {
      languages := [];
      locDictionary := EmptyTable();
      this.currentLanguage := currentLanguage;
    }

    /**
     * Takes the parsed table, lists the languages of its first row in column order and,
     * when no language is set yet, picks the first one.
     */
    method Awake(parsed: Table)
      requires parsed.Valid() && |parsed.keys| > 0
      requires currentLanguage == "" ==> |parsed.First().keys| > 0
      modifies this
      ensures locDictionary == parsed
      ensures languages == parsed.First().keys
      ensures old(currentLanguage) == "" ==> currentLanguage == languages[0]
      ensures old(currentLanguage) != "" ==> currentLanguage == old(currentLanguage)
    {
      languages := [];
      locDictionary := parsed;
      var first := parsed.First();
      var i := 0;
      while i < |first.keys|
        invariant 0 <= i <= |first.keys|
        invariant languages == first.keys[..i]
        invariant locDictionary == parsed && currentLanguage == old(currentLanguage)
      {
        languages := languages + [first.keys[i]];
        i := i + 1;
      }
      if currentLanguage == "" {
        currentLanguage := languages[0];
      }
    }

    /** The text of key in language, or NoKey when the table lacks either. */
    function GetLocString(key: string, language: string): (text: string)
      reads this
      ensures key in locDictionary.entries && language in locDictionary.entries[key].entries ==>
        text == locDictionary.entries[key].entries[language]
      ensures key !in locDictionary.entries || language !in locDictionary.entries[key].entries ==>
        text == NoKey
    {
      if key in locDictionary.entries && language in locDictionary.entries[key].entries then
        locDictionary.entries[key].entries[language]
      else
        NoKey
    }

    /** The text of key in the current language. */
    function GetString(key: string): (text: string)
      reads this
      ensures text == GetLocString(key, currentLanguage)
    {
      GetLocString(key, currentLanguage)
    }

    /** A language's own name, stored under the key "Language". */
    function GetLanguageString(language: string): (text: string)
      reads this
      ensures text == GetLocString("Language", language)
    {
      GetLocString("Language", language)
    }

    /** A copy of the list of languages (a sequence is a value, so the copy cannot alias the field). */
    function GetLanguages(): (list: seq<string>)
      reads this
      ensures list == languages
    {
      languages
    }

    function GetCurrentLanguage(): (language: string)
      reads this
      ensures language == currentLanguage
    {
      currentLanguage
    }

    /**
     * Switches to a known language and has the gameplay manager refresh the HUD; an unknown
     * language is ignored (the source only logs a warning).
     */
    method SetLanguage(language: string, gm: GameplayManager)
      requires gm.Valid() && gm.ui.loc == this
      modifies this`currentLanguage, gm.ui`scoreText, gm.ui`timerText, gm.ui`rankText
      ensures language in old(languages) ==>
        currentLanguage == language && gm.ui.ShowsHUD(gm.score, gm.timeSpent, gm.rank)
      ensures language !in old(languages) ==>
        currentLanguage == old(currentLanguage) && unchanged(gm.ui)
    {
      if language in languages {
        currentLanguage := language;
        gm.OnLanguageChanged();
      }
    }
  }

  // ---------------------------------------------------------------- user interface

  /** A UI screen object: its name and whether it is active. */
  class Screen {
    const name: string
    var active: bool

    constructor (name: string, active: bool)
      ensures this.name == name && this.active == active
    {
      this.name := name;
      this.active := active;
    }
  }

  class UIManager {
    const screens: array<Screen>
    const loc: LocalizationManager
    var hudActive: bool
    var scoreText: HudText
    var timerText: HudText
    var rankText: HudText

    constructor (screens: array<Screen>, loc: LocalizationManager, hudActive: bool)
      ensures this.screens == screens && this.loc == loc && this.hudActive == hudActive
      ensures scoreText == Blank && timerText == Blank && rankText == Blank
    {
      this.screens := screens;
      this.loc := loc;
      this.hudActive := hudActive;
      scoreText, timerText, rankText := Blank, Blank, Blank;
    }

    /** The screen objects, the only objects ShowScreen writes. */
    ghost function ScreenObjects(): set<Screen>
      reads screens
    {
      set i | 0 <= i < screens.Length :: screens[i]
    }

    /** The HUD shows the given score, time and rank in the current language. */
    ghost predicate ShowsHUD(score: int, timeSpent: real, rank: PlayerRank)
      requires timeSpent >= 0.0
      reads this`scoreText, this`timerText, this`rankText, loc
    {
      && scoreText == Formatted(loc.GetString("HUD Score"), IntToString(score))
      && timerText == Formatted(loc.GetString("HUD Timer"), TimerText(Milliseconds(timeSpent)))
      && rankText == Formatted(loc.GetString("HUD Rank"), loc.GetString(RankKey(rank)))
    }

    /** Activates every screen whose name is name and deactivates all others. */
    method ShowScreen(name: string)
      modifies ScreenObjects()
      ensures forall i :: 0 <= i < screens.Length ==> screens[i].active == (screens[i].name == name)
    {
      for i := 0 to screens.Length
        invariant forall j :: 0 <= j < i ==> screens[j].active == (screens[j].name == name)
      {
        screens[i].active := screens[i].name == name;
      }
    }

    method ShowHUD(show: bool)
      modifies this`hudActive
      ensures hudActive == show
    {
      hudActive := show;
    }

    /** Writes the score, then the timer, then the rank. */
    method UpdateHUD(score: int, timeSpent: real, rank: PlayerRank)
      requires timeSpent >= 0.0
      modifies this`scoreText, this`timerText, this`rankText
      ensures ShowsHUD(score, timeSpent, rank)
    {
      ShowScore(score);
      ShowTimer(timeSpent);
      ShowRank(rank);
    }

    method ShowScore(score: int)
      modifies this`scoreText
      ensures scoreText == Formatted(loc.GetString("HUD Score"), IntToString(score))
    {
      scoreText := Formatted(loc.GetString("HUD Score"), IntToString(score));
    }

    method ShowTimer(timeSpent: real)
      requires timeSpent >= 0.0
      modifies this`timerText
      ensures timerText == Formatted(loc.GetString("HUD Timer"), TimerText(Milliseconds(timeSpent)))
    {
      var timeString := TimerText(Milliseconds(timeSpent));
      timerText := Formatted(loc.GetString("HUD Timer"), timeString);
    }

    method ShowRank(rank: PlayerRank)
      modifies this`rankText
      ensures rankText == Formatted(loc.GetString("HUD Rank"), loc.GetString(RankKey(rank)))
    {
      var rankKey := RankKey(rank);
      rankText := Formatted(loc.GetString("HUD Rank"), loc.GetString(rankKey));
    }
  }

  // ---------------------------------------------------------------- game flow

  datatype GameState = Tutorial | InGame | GameOver

  class GameplayManager {
    const ui: UIManager
    const level: LevelManager
    var state: GameState
    var rank: PlayerRank
    var timeSpent: real
    var score: int
    /** The static Restart flag: it keeps its value when the scene is reloaded. */
    var restart: bool

    ghost predicate Valid()
      reads this
    {
      timeSpent >= 0.0 && score >= 0
    }

    /** A new manager in a freshly loaded scene; restart is the value the static flag holds. */
    constructor (ui: UIManager, level: LevelManager, restart: bool)
      ensures Valid() && this.ui == ui && this.level == level && this.restart == restart
      ensures state == Tutorial && !CanPlay()
      ensures rank == Gold && timeSpent == 0.0 && score == 0
    {
      this.ui := ui;
      this.level := level;
      this.restart := restart;
      state := Tutorial;
      rank := Gold;
      timeSpent := 0.0;
      score := 0;
    }

    /** The player can play only in the InGame state. */
    predicate CanPlay()
      reads this
      ensures CanPlay() <==> state != Tutorial && state != GameOver
    {
      state == InGame
    }

    /** Hides and refreshes the HUD; a restart skips the tutorial and starts the game. */
    method Start()
      requires Valid()
      modifies this`restart, this`state, ui, ui.ScreenObjects()
      ensures Valid() && !restart
      ensures old(restart) ==> state == InGame
      ensures !old(restart) ==> state == old(state)
      ensures ui.hudActive == old(restart)
      ensures ui.ShowsHUD(score, timeSpent, rank)
      ensures old(restart) ==> forall i :: 0 <= i < ui.screens.Length ==>
        ui.screens[i].active == (ui.screens[i].name == "")
      ensures !old(restart) ==> forall i :: 0 <= i < ui.screens.Length ==>
        ui.screens[i].active == (ui.screens[i].name == "Tutorial")
    {
      ui.ShowHUD(false);
      ui.UpdateHUD(score, timeSpent, rank);
      if restart {
        restart := false;
        OnStartGame();
      } else {
        ui.ShowScreen("Tutorial");
      }
    }

    /** Time runs, and the rank follows it, only while the game can be played. */
    method Update(dt: real)
      requires Valid() && dt >= 0.0
      modifies this`timeSpent, this`rank, ui`scoreText, ui`timerText, ui`rankText
      ensures Valid()
      ensures old(CanPlay()) ==>
        timeSpent == old(timeSpent) + dt && rank == level.GetRank(timeSpent, score) &&
        ui.ShowsHUD(score, timeSpent, rank)
      ensures !old(CanPlay()) ==>
        timeSpent == old(timeSpent) && rank == old(rank) && unchanged(ui)
    {
      if CanPlay() {
        timeSpent := timeSpent + dt;
        rank := level.GetRank(timeSpent, score);
        ui.UpdateHUD(score, timeSpent, rank);
      }
    }

    /** Starts play: shows the HUD and hides every screen with a name. */
    method OnStartGame()
      modifies this`state, ui`hudActive, ui.ScreenObjects()
      ensures state == InGame && ui.hudActive
      ensures forall i :: 0 <= i < ui.screens.Length ==> ui.screens[i].active == (ui.screens[i].name == "")
    {
      state := InGame;
      ui.ShowHUD(true);
      ui.ShowScreen("");
    }

    /** Sets the static flag so that the reloaded scene skips the tutorial. */
    method OnRestart()
      modifies this`restart
      ensures restart
    {
      restart := true;
    }

    /** One more pickup: the score grows by one and the rank is recomputed. */
    method OnPickup()
      requires Valid()
      modifies this`score, this`rank, ui`scoreText, ui`timerText, ui`rankText
      ensures Valid()
      ensures score == old(score) + 1 && rank == level.GetRank(timeSpent, score)
      ensures ui.ShowsHUD(score, timeSpent, rank)
    {
      score := score + 1;
      rank := level.GetRank(timeSpent, score);
      ui.UpdateHUD(score, timeSpent, rank);
    }

    method OnPlayerCaught()
      modifies this`state, ui.ScreenObjects()
      ensures state == GameOver && !CanPlay()
      ensures forall i :: 0 <= i < ui.screens.Length ==>
        ui.screens[i].active == (ui.screens[i].name == "GameOver")
    {
      state := GameOver;
      ui.ShowScreen("GameOver");
    }

    method OnGoal()
      modifies this`state, ui.ScreenObjects()
      ensures state == GameOver && !CanPlay()
      ensures forall i :: 0 <= i < ui.screens.Length ==>
        ui.screens[i].active == (ui.screens[i].name == "YouWin")
    {
      state := GameOver;
      ui.ShowScreen("YouWin");
    }

    /** Redraws the HUD in the new language. */
    method OnLanguageChanged()
      requires Valid()
      modifies ui`scoreText, ui`timerText, ui`rankText
      ensures ui.ShowsHUD(score, timeSpent, rank)
    {
      ui.UpdateHUD(score, timeSpent, rank);
    }
  }
}
