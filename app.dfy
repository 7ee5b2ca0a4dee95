/**
 * The page controller: the module-level state of the chat page and the
 * handlers that update it in place. Browser storage is modelled by the
 * fields it would hold; dialogs, clocks and form inputs are parameters.
 */
module App {
  import opened Wrappers
  import opened Navigation
  import opened Characters
  import opened ApiSettings

  /** What the delete-selected button did. */
  datatype DeleteOutcome = NothingSelected | Declined | Deleted

  class ChatApp {
    var characters: seq<Character>
    var apiConfig: ApiConfig
    var activeCharacterId: Option<int>
    var isBatchDeleteMode: bool
    var screenHistory: seq<string>
    /** The id of the screen element currently shown, None when every screen is hidden. */
    var visibleScreen: Option<string>
    /** localStorage "aiChatCharacters" */
    var storedCharacters: Option<seq<Character>>
    /** localStorage "aiChatApiConfig" */
    var storedApiConfig: Option<ApiConfig>
    /** sessionStorage "activeCharacterId", as the number it parses to */
    var sessionActiveId: Option<int>

    /**
     * The history is one showScreen and goBack can build, and the screen on
     * view is the one mapped to the history's top entry.
     */
    ghost predicate Valid()
      reads this
    {
      && ValidHistory(screenHistory)
      && (screenHistory != [] ==> visibleScreen == ScreenElement(screenHistory[|screenHistory| - 1]))
    }

    /** The state before the page's start-up code runs, over the browser's storage. */
    constructor (storedCharacters: Option<seq<Character>>, storedApiConfig: Option<ApiConfig>, sessionActiveId: Option<int>)
      ensures Valid()
      ensures characters == [] && apiConfig == EmptyApiConfig && activeCharacterId == None
      ensures !isBatchDeleteMode && screenHistory == [] && visibleScreen == None
      ensures this.storedCharacters == storedCharacters && this.storedApiConfig == storedApiConfig
      ensures this.sessionActiveId == sessionActiveId
    {
      characters := [];
      apiConfig := EmptyApiConfig;
      activeCharacterId := None;
      isBatchDeleteMode := false;
      screenHistory := [];
      visibleScreen := None;
      this.storedCharacters := storedCharacters;
      this.storedApiConfig := storedApiConfig;
      this.sessionActiveId := sessionActiveId;
    }

    method SaveCharacters()
      modifies this`storedCharacters
      ensures storedCharacters == Some(characters)
    {
      storedCharacters := Some(characters);
    }

    /**
     * Loads the stored list, or seeds it with the default character and
     * stores that; the session's active id is taken unless it is 0.
     */
    method LoadCharacters(now: int)
      modifies this`characters, this`storedCharacters, this`activeCharacterId
      ensures characters == LoadedCharacters(old(storedCharacters), now)
      ensures storedCharacters == Some(characters)
      ensures activeCharacterId == if sessionActiveId == Some(0) then None else sessionActiveId
    {
      characters := LoadedCharacters(storedCharacters, now);
      if storedCharacters.None? {
        SaveCharacters();
      }
      activeCharacterId := if sessionActiveId == Some(0) then None else sessionActiveId;
    }

    method LoadApiConfig()
      modifies this`apiConfig
      ensures apiConfig == LoadedApiConfig(storedApiConfig)
    {
      apiConfig := LoadedApiConfig(storedApiConfig);
    }

    method SaveApiConfig()
      modifies this`storedApiConfig
      ensures storedApiConfig == Some(apiConfig)
    {
      storedApiConfig := Some(apiConfig);
    }

    method EnterBatchDeleteMode()
      modifies this`isBatchDeleteMode
      ensures isBatchDeleteMode
    {
      isBatchDeleteMode := true;
    }

    method ExitBatchDeleteMode()
      modifies this`isBatchDeleteMode
      ensures !isBatchDeleteMode
    {
      isBatchDeleteMode := false;
    }

    /**
     * Shows a screen: an empty name changes nothing; any other name leaves
     * batch-delete mode unless it is "home", becomes the history's top
     * (pushed only if it is not already there, evicting the oldest entry
     * beyond the capacity) and reveals its screen element, if it has one.
     */
    method ShowScreen(name: string)
      requires Valid()
      modifies this`isBatchDeleteMode, this`screenHistory, this`visibleScreen
      ensures Valid()
      ensures name == "" ==>
        isBatchDeleteMode == old(isBatchDeleteMode) && screenHistory == old(screenHistory)
        && visibleScreen == old(visibleScreen)
      ensures name != "" ==>
        && isBatchDeleteMode == (old(isBatchDeleteMode) && name == Home)
        && screenHistory == PushHistory(old(screenHistory), name)
        && visibleScreen == ScreenElement(name)
    {
      if name == "" {
        return;
      }
      if isBatchDeleteMode && name != Home {
        ExitBatchDeleteMode();
      }
      PushHistoryKeepsValid(screenHistory, name);
      screenHistory := PushHistory(screenHistory, name);
      visibleScreen := ScreenElement(name);
    }

    /**
     * Goes back: with more than one entry the top one is dropped and the
     * screen of the entry below it is revealed, without pushing anything;
     * otherwise nothing changes. Batch-delete mode is left as it is.
     */
    method GoBack()
      requires Valid()
      modifies this`screenHistory, this`visibleScreen
      ensures Valid()
      ensures screenHistory == PopHistory(old(screenHistory))
      ensures |old(screenHistory)| > 1 ==>
        visibleScreen == ScreenElement(old(screenHistory)[|old(screenHistory)| - 2])
      ensures |old(screenHistory)| <= 1 ==> visibleScreen == old(visibleScreen)
    {
      if |screenHistory| > 1 {
        screenHistory := PopHistory(screenHistory);
        visibleScreen := ScreenElement(screenHistory[|screenHistory| - 1]);
      }
    }

    /** The add button: appends a placeholder character, stores the list, makes it active and opens the editor. */
    method AddCharacter(now: int)
      requires Valid()
      modifies this`characters, this`storedCharacters, this`activeCharacterId
      modifies this`isBatchDeleteMode, this`screenHistory, this`visibleScreen
      ensures Valid()
      ensures characters == old(characters) + [NewCharacter(now)]
      ensures storedCharacters == Some(characters)
      ensures activeCharacterId == Some(now)
      ensures !isBatchDeleteMode
      ensures screenHistory == PushHistory(old(screenHistory), "characterEdit")
      ensures visibleScreen == Some("character-edit-screen")
    {
      characters := characters + [NewCharacter(now)];
      SaveCharacters();
      activeCharacterId := Some(now);
      ShowScreen("characterEdit");
    }

    /**
     * The delete-selected button, given the ids of the checked boxes and the
     * answer to the confirmation (asked only when some box is checked).
     */
    method DeleteSelected(ids: seq<int>, confirmed: bool) returns (outcome: DeleteOutcome)
      modifies this`characters, this`storedCharacters, this`isBatchDeleteMode
      ensures outcome == if |ids| == 0 then NothingSelected else if !confirmed then Declined else Deleted
      ensures outcome != Deleted ==>
        characters == old(characters) && storedCharacters == old(storedCharacters)
        && isBatchDeleteMode == old(isBatchDeleteMode)
      ensures outcome == Deleted ==>
        characters == WithoutIds(old(characters), ids) && storedCharacters == Some(characters)
        && !isBatchDeleteMode
    {
      if |ids| == 0 {
        return NothingSelected;
      }
      if !confirmed {
        return Declined;
      }
      characters := WithoutIds(characters, ids);
      SaveCharacters();
      ExitBatchDeleteMode();
      outcome := Deleted;
    }

    /**
     * The API settings form's submit: overwrites the provider in use with the
     * trimmed fields, stores the configuration and goes back. When the
     * configuration holds no settings for that provider, nothing changes.
     */
    method SubmitApiSettings(baseUrl: string, apiKey: string, model: string) returns (saved: bool)
      requires Valid()
      modifies this`apiConfig, this`storedApiConfig, this`screenHistory, this`visibleScreen
      ensures Valid()
      ensures saved == (old(apiConfig).provider in old(apiConfig).providers)
      ensures !saved ==>
        apiConfig == old(apiConfig) && storedApiConfig == old(storedApiConfig)
        && screenHistory == old(screenHistory) && visibleScreen == old(visibleScreen)
      ensures saved ==>
        && Some(apiConfig) == SubmitSettings(old(apiConfig), baseUrl, apiKey, model)
        && storedApiConfig == Some(apiConfig)
        && screenHistory == PopHistory(old(screenHistory))
      ensures saved && |old(screenHistory)| <= 1 ==> visibleScreen == old(visibleScreen)
    {
      var updated := SubmitSettings(apiConfig, baseUrl, apiKey, model);
      if updated.None? {
        return false;
      }
      apiConfig := updated.value;
      SaveApiConfig();
      GoBack();
      saved := true;
    }

    /**
     * A click on a character card. Outside batch-delete mode it makes the
     * character active, remembers it for the session and opens its details;
     * in batch-delete mode the card has no click handler.
     */
    method SelectCharacter(id: int)
      requires Valid()
      modifies this`activeCharacterId, this`sessionActiveId
      modifies this`isBatchDeleteMode, this`screenHistory, this`visibleScreen
      ensures Valid()
      ensures isBatchDeleteMode == old(isBatchDeleteMode)
      ensures old(isBatchDeleteMode) ==>
        activeCharacterId == old(activeCharacterId) && sessionActiveId == old(sessionActiveId)
        && screenHistory == old(screenHistory) && visibleScreen == old(visibleScreen)
      ensures !old(isBatchDeleteMode) ==>
        activeCharacterId == Some(id) && sessionActiveId == Some(id)
        && screenHistory == PushHistory(old(screenHistory), "characterDetail")
        && visibleScreen == Some("character-detail-screen")
    {
      if !isBatchDeleteMode {
        activeCharacterId := Some(id);
        sessionActiveId := Some(id);
        ShowScreen("characterDetail");
      }
    }

    /** The home menu: its "batch-delete" entry enters batch-delete mode; other entries do nothing. */
    method MenuAction(action: string)
      modifies this`isBatchDeleteMode
      ensures isBatchDeleteMode == (old(isBatchDeleteMode) || action == "batch-delete")
    {
      if action == "batch-delete" {
        EnterBatchDeleteMode();
      }
    }

    /**
     * A button of the floating panel: one with a target screen shows it, one
     * whose action is "back" goes back, any other only shows a notice.
     * Empty strings stand for absent data attributes.
     */
    method PanelClick(targetScreen: string, action: string)
      requires Valid()
      modifies this`isBatchDeleteMode, this`screenHistory, this`visibleScreen
      ensures Valid()
      ensures targetScreen != "" ==>
        screenHistory == PushHistory(old(screenHistory), targetScreen)
        && visibleScreen == ScreenElement(targetScreen)
        && isBatchDeleteMode == (old(isBatchDeleteMode) && targetScreen == Home)
      ensures targetScreen == "" && action == "back" ==>
        screenHistory == PopHistory(old(screenHistory)) && isBatchDeleteMode == old(isBatchDeleteMode)
      ensures targetScreen == "" && action == "back" && |old(screenHistory)| <= 1 ==>
        visibleScreen == old(visibleScreen)
      ensures targetScreen == "" && action != "back" ==>
        screenHistory == old(screenHistory) && visibleScreen == old(visibleScreen)
        && isBatchDeleteMode == old(isBatchDeleteMode)
    {
      if targetScreen != "" {
        ShowScreen(targetScreen);
      } else if action == "back" {
        GoBack();
      }
    }

    /**
     * Start-up: load the characters and the API configuration, then show the
     * screen the "start" query parameter names, or "home" when it is absent
     * or empty.
     */
    method InitialSetup(now: int, startScreen: Option<string>)
      requires Valid()
      modifies this`characters, this`storedCharacters, this`activeCharacterId, this`apiConfig
      modifies this`isBatchDeleteMode, this`screenHistory, this`visibleScreen
      ensures Valid()
      ensures characters == LoadedCharacters(old(storedCharacters), now)
      ensures storedCharacters == Some(characters)
      ensures activeCharacterId == if sessionActiveId == Some(0) then None else sessionActiveId
      ensures apiConfig == LoadedApiConfig(storedApiConfig)
      ensures var start := if startScreen.Some? && startScreen.value != "" then startScreen.value else Home;
              && screenHistory == PushHistory(old(screenHistory), start) && visibleScreen == ScreenElement(start)
              && isBatchDeleteMode == (old(isBatchDeleteMode) && start == Home)
    {
      LoadCharacters(now);
      LoadApiConfig();
      var start := if startScreen.Some? && startScreen.value != "" then startScreen.value else Home;
      ShowScreen(start);
    }
  }

  /**
   * Home, character details, chat, then back: the details screen is on view
   * again, which the lookup of script.js:169 fails to find.
   */
  method BackFromChatShowsDetail() returns (shown: Option<string>, history: seq<string>)
    ensures history == ["home", "characterDetail"]
    ensures shown == Some("character-detail-screen")
  {
    var app := new ChatApp(None, None, None);
    app.ShowScreen("home");
    app.ShowScreen("characterDetail");
    app.ShowScreen("chat");
    app.GoBack();
    shown, history := app.visibleScreen, app.screenHistory;
  }

  /** A fresh page with nothing stored starts on the home screen with the seeded character. */
  method FirstRun(now: int) returns (list: seq<Character>, stored: Option<seq<Character>>, shown: Option<string>)
    ensures |list| == 1 && list[0].name == "Helpful Assistant" && list[0].history == []
    ensures stored == Some(list)
    ensures shown == Some("home-screen")
  {
    var app := new ChatApp(None, None, None);
    app.InitialSetup(now, None);
    list, stored, shown := app.characters, app.storedCharacters, app.visibleScreen;
  }
}
