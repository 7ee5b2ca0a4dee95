/**
 * The screen-history stack behind showScreen and goBack: a bounded list of
 * screen names, the newest last, and the map from names to screen elements.
 */
module Navigation {
  import opened Wrappers

  /** showScreen keeps at most this many entries and drops the oldest beyond it. */
  const HistoryCapacity: nat := 10

  /** The screen whose display leaves batch-delete mode on. */
  const Home := "home"

  /** The ids of the page's screen elements, looked up once at start-up. */
  const ScreenElementIds: set<string> := {
    "home-screen", "my-dashboard-screen", "character-detail-screen", "character-edit-screen",
    "chat-screen", "profile-settings-screen", "api-settings-screen", "background-settings-screen",
    "prompts-screen", "space-screen"
  }

  /** showScreen's `screenMap`: screen name to the id of the element it reveals. */
  const ScreenMap: map<string, string> := map[
    "home" := "home-screen", "myDashboard" := "my-dashboard-screen",
    "characterDetail" := "character-detail-screen", "characterEdit" := "character-edit-screen",
    "chat" := "chat-screen", "apiSettings" := "api-settings-screen",
    "profileSettings" := "profile-settings-screen", "backgroundSettings" := "background-settings-screen",
    "prompts" := "prompts-screen", "space" := "space-screen"
  ]

  /** The element showScreen reveals for `name`; None when nothing is revealed. */
  function ScreenElement(name: string): (e: Option<string>)
    ensures e.Some? <==> name in ScreenMap
    ensures e.Some? ==> e.value in ScreenElementIds
  {
    if name in ScreenMap then Some(ScreenMap[name]) else None
  }

  /** The entry on top of the history (`currentScreen`), None when it is empty. */
  function Current(h: seq<string>): (r: Option<string>)
    ensures r.Some? <==> h != []
    ensures r.Some? ==> r.value == h[|h| - 1]
  {
    if |h| > 0 then Some(h[|h| - 1]) else None
  }

  ghost predicate NoAdjacentDuplicates(h: seq<string>) {
    forall k :: 0 < k < |h| ==> h[k - 1] != h[k]
  }

  /** What every history built by showScreen and goBack satisfies. */
  ghost predicate ValidHistory(h: seq<string>) {
    && |h| <= HistoryCapacity
    && NoAdjacentDuplicates(h)
    && forall k :: 0 <= k < |h| ==> h[k] != ""
  }

  /** showScreen's history update for a non-empty name. */
  function PushHistory(h: seq<string>, name: string): (r: seq<string>)
    ensures Current(r) == Some(name)
    ensures Current(h) == Some(name) ==> r == h
    ensures Current(h) != Some(name) && |h| < HistoryCapacity ==> r == h + [name]
    ensures Current(h) != Some(name) && |h| >= HistoryCapacity ==> r == h[1..] + [name]
  {
    if Current(h) == Some(name) then h
    else
      var pushed := h + [name];
      if |pushed| > HistoryCapacity then pushed[1..] else pushed
  }

  /** goBack's history update: the top entry goes unless it is the only one. */
  function PopHistory(h: seq<string>): (r: seq<string>)
    ensures |h| <= 1 ==> r == h
    ensures |h| > 1 ==> h == r + [h[|h| - 1]]
    ensures ValidHistory(h) ==> ValidHistory(r)
  {
    if |h| > 1 then h[..|h| - 1] else h
  }

  /** Showing a non-empty screen keeps the bound, the non-empty names and the absence of adjacent repeats. */
  lemma PushHistoryKeepsValid(h: seq<string>, name: string)
    requires ValidHistory(h) && name != ""
    ensures ValidHistory(PushHistory(h, name))
  {
    var r := PushHistory(h, name);
    if Current(h) != Some(name) {
      var pushed := h + [name];
      assert NoAdjacentDuplicates(pushed) by {
        forall k | 0 < k < |pushed| ensures pushed[k - 1] != pushed[k] {
          if k < |h| {
            assert pushed[k - 1] == h[k - 1] && pushed[k] == h[k];
          }
        }
      }
      if |h| >= HistoryCapacity {
        assert r == pushed[1..];
        forall k | 0 < k < |r| ensures r[k - 1] != r[k] {
          assert r[k - 1] == pushed[k] && r[k] == pushed[k + 1];
        }
      }
    }
  }

  /** Going back right after showing a new screen returns to the screen shown before it. */
  lemma BackUndoesShow(h: seq<string>, name: string)
    requires ValidHistory(h) && h != [] && Current(h) != Some(name)
    ensures PopHistory(PushHistory(h, name)) == if |h| < HistoryCapacity then h else h[1..]
    ensures Current(PopHistory(PushHistory(h, name))) == Current(h)
  {
    var r := PushHistory(h, name);
    if |h| < HistoryCapacity {
      assert r[..|r| - 1] == h;
    } else {
      assert r[..|r| - 1] == h[1..];
    }
  }

  /** A click that navigates: showScreen with a name (empty names are ignored) or goBack. */
  datatype NavEvent = Show(name: string) | Back

  function Step(h: seq<string>, e: NavEvent): seq<string> {
    match e
    case Show(name) => if name == "" then h else PushHistory(h, name)
    case Back => PopHistory(h)
  }

  function Replay(h: seq<string>, events: seq<NavEvent>): seq<string>
    decreases |events|
  {
    if events == [] then h else Replay(Step(h, events[0]), events[1..])
  }

  /** Any sequence of navigations from a valid history leaves a valid history. */
  lemma {:induction false} ReplayKeepsValid(h: seq<string>, events: seq<NavEvent>)
    requires ValidHistory(h)
    ensures ValidHistory(Replay(h, events))
    decreases |events|
  {
    if events != [] {
      if events[0].Show? && events[0].name != "" {
        PushHistoryKeepsValid(h, events[0].name);
      }
      ReplayKeepsValid(Step(h, events[0]), events[1..]);
    }
  }

  /**
   * The element goBack reveals as script.js:169 writes it: the element whose
   * id is the screen name followed by "-screen", if the page has one.
   */
  function BackElementAsWritten(previous: string): (e: Option<string>)
    ensures e.Some? <==> previous + "-screen" in ScreenElementIds
    ensures e.Some? ==> e.value == previous + "-screen"
  {
    var id := previous + "-screen";
    if id in ScreenElementIds then Some(id) else None
  }

  /**
   * Home, detail, chat; back from chat. The history's top is the detail
   * screen again, but the lookup of script.js:169 finds no
   * "characterDetail-screen" and reveals nothing, where showScreen revealed
   * "character-detail-screen" for the same name.
   */
  lemma BackAsWrittenHidesDetailScreen()
    ensures var h := Replay([], [Show("home"), Show("characterDetail"), Show("chat"), Back]);
            && h == ["home", "characterDetail"]
            && BackElementAsWritten(h[|h| - 1]) == None
            && ScreenElement(h[|h| - 1]) == Some("character-detail-screen")
  {
    var h := Replay([], [Show("home"), Show("characterDetail"), Show("chat"), Back]);
    assert h == ["home", "characterDetail"];
    assert "characterDetail-screen" !in ScreenElementIds;
  }

  /**
   * Of the ten names of `screenMap`, the lookup of script.js:169 finds the
   * element showScreen reveals only for the four one-word names.
   */
  lemma BackAsWrittenFindsOnlyOneWordScreens(name: string)
    requires name in ScreenMap
    ensures BackElementAsWritten(name) == ScreenElement(name) <==> name in {"home", "chat", "prompts", "space"}
  {
    assert "home" + "-screen" == "home-screen";
    assert "chat" + "-screen" == "chat-screen";
    assert "prompts" + "-screen" == "prompts-screen";
    assert "space" + "-screen" == "space-screen";
  }
}
