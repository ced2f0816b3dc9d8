// The story scene navigator of story-system.js: a state machine over the
// current scene, the line index, the story-mode flag and the stored battle.
// The pure functions below give each operation's effect on a Nav value;
// the class StorySystem updates its fields as story-system.js does and is
// proved against them.

module StorySystem {
  import opened StoryData

  /** The navigator's state: currentScene, currentLineIndex, isStoryMode and
      battleResult. */
  datatype Nav = Nav(scene: Option<Scene>, index: int, storyMode: bool, battle: Option<Battle>)

  /** What the speaker name element shows: hidden for sound effects, else a
      name. */
  datatype Label = Hidden | Named(name: string)

  /** What displayCurrentLine puts on screen: speaker, text, and the choice
      when its buttons are shown. */
  datatype Frame = Frame(speaker: Label, text: string, choices: Option<Choice>)

  /** The TypeErrors story-system.js can raise: the call of the undefined
      endScene, reading the lines of a missing scene, and reading the
      speaker of a line before the first one. */
  datatype Fault = EndSceneMissing | NoScene | NoLine

  /** The visible result of an operation. */
  datatype Outcome = Quiet | Shown(frame: Frame) | Failed(fault: Fault)

  const SystemName: string := "시스템"

  const Initial: Nav := Nav(None, 0, false, None)

  /** The speaker label of displayCurrentLine. */
  function SpeakerLabel(characters: map<string, string>, speaker: string): (r: Label)
    ensures r.Hidden? <==> speaker == "SFX"
    ensures speaker == "SYS" ==> r == Named(SystemName)
    ensures speaker != "SFX" && speaker != "SYS" && speaker in characters ==> r == Named(characters[speaker])
    ensures speaker != "SFX" && speaker != "SYS" && speaker !in characters ==> r == Named(speaker)
  {
    if speaker == "SFX" then Hidden
    else if speaker == "SYS" then Named(SystemName)
    else if speaker in characters then Named(characters[speaker])
    else Named(speaker)
  }

  /** Choice buttons appear only on the last line of a scene with a choice. */
  predicate ChoicesShown(s: Scene, index: int) {
    s.choice.Some? && index == |s.lines| - 1
  }

  /** displayCurrentLine. */
  function Display(characters: map<string, string>, scene: Option<Scene>, index: int): (r: Outcome)
    ensures r != Quiet
    ensures r == Failed(EndSceneMissing) <==> scene.None? || index >= |scene.value.lines|
    ensures r.Failed? <==> scene.None? || index < 0 || index >= |scene.value.lines|
    ensures r.Shown? ==> r.frame.text == scene.value.lines[index].text
    ensures r.Shown? ==> r.frame.speaker == SpeakerLabel(characters, scene.value.lines[index].speaker)
    ensures r.Shown? ==> (r.frame.choices.Some? <==> ChoicesShown(scene.value, index))
    ensures r.Shown? && r.frame.choices.Some? ==> r.frame.choices == scene.value.choice
  {
    if scene.None? || index >= |scene.value.lines| then Failed(EndSceneMissing)
    else if index < 0 then Failed(NoLine)
    else
      var line := scene.value.lines[index];
      Shown(Frame(SpeakerLabel(characters, line.speaker), line.text,
                  if ChoicesShown(scene.value, index) then scene.value.choice else None))
  }

  /** startStory(sceneId). */
  function Start(story: Story, nav: Nav, id: string): (r: (Nav, Outcome))
    ensures r.0.storyMode && r.0.index == 0 && r.0.battle == nav.battle
    ensures r.0.scene == Find(story.scenes, id)
    ensures r.1 == Quiet <==> Find(story.scenes, id).None?
    ensures r.0.scene.Some? ==> r.1 == Display(story.characters, r.0.scene, 0)
  {
    var found := Find(story.scenes, id);
    var n := Nav(found, 0, true, nav.battle);
    (n, if found.Some? then Display(story.characters, found, 0) else Quiet)
  }

  /** hideStoryUI. */
  function UiHidden(nav: Nav): (r: Nav)
    ensures !r.storyMode && r.scene == nav.scene && r.index == nav.index && r.battle == nav.battle
  {
    nav.(storyMode := false)
  }

  /** startBattle(battleData): the story UI is hidden and the battle kept. */
  function BattleBegun(nav: Nav, b: Battle): (r: Nav)
    ensures !r.storyMode && r.battle == Some(b) && r.scene == nav.scene && r.index == nav.index
  {
    UiHidden(nav).(battle := Some(b))
  }

  /** A next field that JavaScript treats as true: present and non-empty. */
  predicate Continues(next: Option<string>) {
    next.Some? && next.value != ""
  }

  /** nextLine. */
  function Next(story: Story, nav: Nav): (r: (Nav, Outcome)) {
    var n := nav.(index := nav.index + 1);
    if nav.scene.None? then (n, Failed(NoScene))
    else
      var s := nav.scene.value;
      if n.index >= |s.lines| then
        if s.choice.Some? then
          var pinned := n.(index := |s.lines| - 1);
          (pinned, Display(story.characters, pinned.scene, pinned.index))
        else if s.battle.Some? then (BattleBegun(n, s.battle.value), Quiet)
        else if Continues(s.next) then Start(story, n, s.next.value)
        else if s.end then (UiHidden(n), Quiet)
        else (n, Quiet)
      else (n, Display(story.characters, n.scene, n.index))
  }

  /** handleBattleResult(victory). */
  function BattleResolved(story: Story, nav: Nav, victory: bool): (r: (Nav, Outcome)) {
    if nav.battle.None? then (nav, Quiet)
    else
      var id := if victory then nav.battle.value.winNext else nav.battle.value.loseNext;
      if id != "" then Start(story, nav, id) else (nav, Quiet)
  }

  // ---- Properties of the navigator ----

  /** nextLine on a line that is not the last one moves to the next line of
      the same scene and shows it. */
  lemma NextAdvances(story: Story, nav: Nav)
    requires nav.scene.Some? && nav.index + 1 < |nav.scene.value.lines|
    ensures var r := Next(story, nav);
            r.0.scene == nav.scene && r.0.index == nav.index + 1
            && r.0.storyMode == nav.storyMode && r.0.battle == nav.battle
            && r.1 == Display(story.characters, nav.scene, nav.index + 1)
  {
  }

  /** Past the last line of a choice scene the index is pinned to the last
      line, the scene stays and its choices are shown again, so nextLine
      never leaves a choice scene. */
  lemma ChoiceScenePins(story: Story, nav: Nav)
    requires nav.scene.Some? && nav.scene.value.choice.Some?
    requires nav.index + 1 >= |nav.scene.value.lines| >= 1
    ensures var r := Next(story, nav);
            r.0.scene == nav.scene && r.0.index == |nav.scene.value.lines| - 1
            && r.0.storyMode == nav.storyMode
            && r.1.Shown? && r.1.frame.choices == nav.scene.value.choice
  {
  }

  /** What nextLine does past the last line, checking choice, battle, next
      and end in that order. */
  lemma PastLastLine(story: Story, nav: Nav)
    requires nav.scene.Some? && nav.index + 1 >= |nav.scene.value.lines|
    requires nav.scene.value.choice.None?
    ensures var s := nav.scene.value; var r := Next(story, nav);
            && (s.battle.Some? ==> !r.0.storyMode && r.0.battle == s.battle && r.1 == Quiet)
            && (s.battle.None? && Continues(s.next) ==>
                  r.0.storyMode && r.0.index == 0 && r.0.scene == Find(story.scenes, s.next.value))
            && (s.battle.None? && !Continues(s.next) && s.end ==> !r.0.storyMode && r.0.scene == nav.scene && r.1 == Quiet)
            && (s.battle.None? && !Continues(s.next) && !s.end ==> r.0 == nav.(index := nav.index + 1) && r.1 == Quiet)
  {
  }

  /** handleBattleResult starts winNext after a victory and loseNext after a
      defeat, and does nothing without stored battle data. */
  lemma BattleResolution(story: Story, nav: Nav, victory: bool)
    ensures nav.battle.None? ==> BattleResolved(story, nav, victory) == (nav, Quiet)
    ensures nav.battle.Some? && victory && nav.battle.value.winNext != "" ==>
              BattleResolved(story, nav, victory) == Start(story, nav, nav.battle.value.winNext)
    ensures nav.battle.Some? && !victory && nav.battle.value.loseNext != "" ==>
              BattleResolved(story, nav, victory) == Start(story, nav, nav.battle.value.loseNext)
  {
  }

  /** Every scene of the story has at least one line. */
  predicate AllHaveLines(story: Story) {
    forall k :: 0 <= k < |story.scenes| ==> |story.scenes[k].lines| >= 1
  }

  /** The states the navigator reaches from its initial state: the index is
      never negative and the scene is one of the story's. */
  predicate NavOk(story: Story, nav: Nav) {
    nav.index >= 0 && (nav.scene.Some? ==> nav.scene.value in story.scenes)
  }

  lemma InitialOk(story: Story)
    ensures NavOk(story, Initial)
  {
  }

  /** startStory keeps NavOk and, when every scene has a line, shows the
      first line of the scene or nothing: it never raises. */
  lemma StartSafe(story: Story, nav: Nav, id: string)
    requires AllHaveLines(story)
    ensures NavOk(story, Start(story, nav, id).0)
    ensures !Start(story, nav, id).1.Failed?
  {
    FindSpec(story.scenes, id);
    var found := Find(story.scenes, id);
    if found.Some? {
      var k :| 0 <= k < |story.scenes| && story.scenes[k] == found.value;
    }
  }

  /** nextLine from a reachable state with a scene keeps NavOk and, when
      every scene has a line, never raises; in particular the undefined
      endScene is never called. */
  lemma NextSafe(story: Story, nav: Nav)
    requires AllHaveLines(story) && NavOk(story, nav) && nav.scene.Some?
    ensures NavOk(story, Next(story, nav).0)
    ensures !Next(story, nav).1.Failed?
  {
    var s := nav.scene.value;
    var k :| 0 <= k < |story.scenes| && story.scenes[k] == s;
    if nav.index + 1 >= |s.lines| && s.choice.None? && s.battle.None? && Continues(s.next) {
      StartSafe(story, nav.(index := nav.index + 1), s.next.value);
    }
  }

  /** handleBattleResult keeps NavOk and never raises. */
  lemma BattleResultSafe(story: Story, nav: Nav, victory: bool)
    requires AllHaveLines(story) && NavOk(story, nav)
    ensures NavOk(story, BattleResolved(story, nav, victory).0)
    ensures !BattleResolved(story, nav, victory).1.Failed?
  {
    if nav.battle.Some? {
      var id := if victory then nav.battle.value.winNext else nav.battle.value.loseNext;
      if id != "" {
        StartSafe(story, nav, id);
      }
    }
  }

  /** STORY_DATA gives every scene a line, so the results above apply to it. */
  lemma TheStoryHasLines()
    ensures AllHaveLines(TheStory)
  {
    StoryWellFormed();
  }

  /** Losing S7's battle and then winning it: S7's last line starts the
      battle, a defeat enters S7_RETRY and a victory enters S8, each at its
      first line. */
  lemma FirstBattle(nav: Nav)
    requires nav.scene == Some(S7) && nav.index == |S7.lines| - 1
    ensures var fight := Next(TheStory, nav).0;
            && !fight.storyMode && fight.battle == S7.battle
            && BattleResolved(TheStory, fight, false).0.scene == Some(S7Retry)
            && BattleResolved(TheStory, fight, true).0.scene == Some(S8)
            && BattleResolved(TheStory, fight, true).0.index == 0
            && BattleResolved(TheStory, fight, true).0.storyMode
  {
    Lookups();
  }

  /** The navigator object. */
  class StorySystem {
    const story: Story
    var currentScene: Option<Scene>
    var currentLineIndex: int
    var isStoryMode: bool
    var battleResult: Option<Battle>

    function State(): Nav
      reads this
    {
      Nav(currentScene, currentLineIndex, isStoryMode, battleResult)
    }

    /** new StorySystem() over STORY_DATA (initStorySystem). */
    constructor()
      ensures story == TheStory && State() == Initial
    {
      story := TheStory;
      currentScene := None;
      currentLineIndex := 0;
      isStoryMode := false;
      battleResult := None;
    }

    method DisplayCurrentLine() returns (out: Outcome)
      ensures out == Display(story.characters, currentScene, currentLineIndex)
    {
      if currentScene.None? || currentLineIndex >= |currentScene.value.lines| {
        return Failed(EndSceneMissing);
      }
      if currentLineIndex < 0 {
        return Failed(NoLine);
      }
      var line := currentScene.value.lines[currentLineIndex];
      var name: Label;
      if line.speaker == "SFX" {
        name := Hidden;
      } else if line.speaker == "SYS" {
        name := Named(SystemName);
      } else if line.speaker in story.characters {
        name := Named(story.characters[line.speaker]);
      } else {
        name := Named(line.speaker);
      }
      var choices := None;
      if currentScene.value.choice.Some? && currentLineIndex == |currentScene.value.lines| - 1 {
        choices := currentScene.value.choice;
      }
      out := Shown(Frame(name, line.text, choices));
    }

    method StartStory(sceneId: string) returns (out: Outcome)
      modifies this
      ensures State() == Start(story, old(State()), sceneId).0
      ensures out == Start(story, old(State()), sceneId).1
    {
      isStoryMode := true;
      currentScene := Find(story.scenes, sceneId);
      currentLineIndex := 0;
      out := Quiet;
      if currentScene.Some? {
        out := DisplayCurrentLine();
      }
    }

    /** startStoryMode: startStory with its default scene. */
    method StartStoryMode() returns (out: Outcome)
      modifies this
      ensures State() == Start(story, old(State()), "S1").0
      ensures out == Start(story, old(State()), "S1").1
    {
      out := StartStory("S1");
    }

    method HideStoryUI()
      modifies this`isStoryMode
      ensures State() == UiHidden(old(State()))
    {
      isStoryMode := false;
    }

    method StartBattle(battleData: Battle)
      modifies this`isStoryMode, this`battleResult
      ensures State() == BattleBegun(old(State()), battleData)
    {
      HideStoryUI();
      battleResult := Some(battleData);
    }

    method EndStory()
      modifies this`isStoryMode
      ensures State() == UiHidden(old(State()))
    {
      HideStoryUI();
    }

    method MakeChoice(gotoSceneId: string) returns (out: Outcome)
      modifies this
      ensures State() == Start(story, old(State()), gotoSceneId).0
      ensures out == Start(story, old(State()), gotoSceneId).1
    {
      out := StartStory(gotoSceneId);
    }

    method NextLine() returns (out: Outcome)
      modifies this
      ensures State() == Next(story, old(State())).0
      ensures out == Next(story, old(State())).1
    {
      currentLineIndex := currentLineIndex + 1;
      if currentScene.None? {
        return Failed(NoScene);
      }
      var s := currentScene.value;
      out := Quiet;
      if currentLineIndex >= |s.lines| {
        if s.choice.Some? {
          currentLineIndex := |s.lines| - 1;
          out := DisplayCurrentLine();
        } else if s.battle.Some? {
          StartBattle(s.battle.value);
        } else if s.next.Some? && s.next.value != "" {
          out := StartStory(s.next.value);
        } else if s.end {
          EndStory();
        }
      } else {
        out := DisplayCurrentLine();
      }
    }

    method HandleBattleResult(victory: bool) returns (out: Outcome)
      modifies this
      ensures State() == BattleResolved(story, old(State()), victory).0
      ensures out == BattleResolved(story, old(State()), victory).1
    {
      out := Quiet;
      if battleResult.Some? {
        var nextSceneId := if victory then battleResult.value.winNext else battleResult.value.loseNext;
        if nextSceneId != "" {
          out := StartStory(nextSceneId);
        }
      }
    }
  }
}
