// The scene graph of story-data.js, as a constant, and the lemmas that
// check it is well formed: distinct ids, targets that exist, one
// continuation per scene, known speakers and an ending reachable from S1.

module StoryData {

  datatype Option<T> = None | Some(value: T)

  /** One line of dialogue; its emotion and sound effect only style the UI. */
  datatype Line = Line(speaker: string, text: string)

  datatype Battle = Battle(enemy: string, winNext: string, loseNext: string)

  datatype ChoiceOption = ChoiceOption(caption: string, goto: string)

  datatype Choice = Choice(prompt: string, options: seq<ChoiceOption>)

  /** A scene: its lines, then how it continues (a next scene, a battle, a
      choice, or the end of the story). Background and music are left out. */
  datatype Scene = Scene(
    id: string,
    title: string,
    lines: seq<Line>,
    next: Option<string>,
    battle: Option<Battle>,
    choice: Option<Choice>,
    end: bool)

  /** The character table (key to display name) and the scenes in order. */
  datatype Story = Story(characters: map<string, string>, scenes: seq<Scene>)

  const Characters: map<string, string> := map[
    "MOMO" := "모모",
    "IGU" := "나무이구",
    "AGWI" := "나무악귀",
    "MOMAMA" := "모마마",
    "NADAY" := "나데이",
    "ZZ" := "즈즈"
  ]

  function Linear(id: string, title: string, lines: seq<Line>, next: string): Scene {
    Scene(id, title, lines, Some(next), None, None, false)
  }

  const S1: Scene := Linear("S1", "평범한 오후", [
    Line("MOMO", "오늘도 똑같은 하루네… 뭐 재미있는 일 없을까?"),
    Line("SFX", "또르르…"),
    Line("MOMO", "응? 창고 쪽에서 소리가…?")
  ], "S2")

  const S2: Scene := Linear("S2", "창고 뒤, 빛나는 포털", [
    Line("MOMO", "저게… 뭐야? 파란빛이 새어나와."),
    Line("SFX", "쉬잉—!"),
    Line("MOMO", "들어가… 볼까?")
  ], "S3")

  const S3: Scene := Linear("S3", "차원 이동", [
    Line("MOMO", "우왁—!"),
    Line("SFX", "파직!"),
    Line("MOMO", "여긴… 어디지?")
  ], "S4")

  const S4: Scene := Linear("S4", "에테리움 평원", [
    Line("MOMO", "하늘이… 움직여? 저건 고래 구름…?"),
    Line("IGU", "…누구냐. 여긴 너희 세계가 아니다."),
    Line("MOMO", "나… 길을 잃었어요. 집으로 돌아가야 해요."),
    Line("IGU", "돌아가려면 포털의 열쇠를 찾아라. 수호자들이 지키고 있다.")
  ], "S5")

  const S5: Scene := Linear("S5", "숲의 오두막", [
    Line("MOMAMA", "길 잃은 아이구나."),
    Line("MOMO", "열쇠를 찾아야 집에 돌아갈 수 있대요."),
    Line("MOMAMA", "혼자는 위험해. 도움이 될 친구들을 만나보렴.")
  ], "S6")

  const S6: Scene := Linear("S6", "동료 합류", [
    Line("NADAY", "네가 그 아이? 듣던 것보다 평범하네."),
    Line("ZZ", "왈! 난 평범하지 않아. 포털 비밀을 알고 있거든!"),
    Line("MOMO", "개가… 말을 하네?!"),
    Line("ZZ", "말도 하고, 뛰기도 잘하지! 열쇠는 유적에 있어.")
  ], "S7")

  const S7: Scene := Scene("S7", "첫 수호자", [
    Line("AGWI", "외부인은 물러가라!"),
    Line("MOMO", "그 열쇠가 필요해! 싸워야겠어!")
  ], None, Some(Battle("AGWI", "S8", "S7_RETRY")), None, false)

  const S7Retry: Scene := Linear("S7_RETRY", "다시 도전", [
    Line("ZZ", "호흡을 가다듬고! 꼬리 공격을 조심해!")
  ], "S7")

  const S8: Scene := Linear("S8", "열쇠 조각 획득", [
    Line("MOMO", "해냈다! 첫 번째 열쇠 조각!"),
    Line("ZZ", "좋아. 하지만 나머지는 더 어렵다!"),
    Line("MOMAMA", "포기하지 마. 네 선택이 이 세계를 바꿔.")
  ], "S9")

  const S9: Scene := Scene("S9", "최종 포털 앞", [
    Line("MOMO", "내일이면… 집으로 돌아갈 수 있을까?"),
    Line("NADAY", "돌아갈 수는 있어. 하지만 잊을 순 없지."),
    Line("MOMAMA", "남을지, 돌아갈지… 선택은 너의 몫.")
  ], None, None, Some(Choice("모모의 선택은?", [
    ChoiceOption("현실로 돌아간다", "E1"),
    ChoiceOption("이곳에 남아 지킨다", "E2")
  ])), false)

  const E1: Scene := Scene("E1", "엔딩 — 귀환", [
    Line("MOMO", "돌아왔다… 그런데, 하늘에 고래 구름이…?"),
    Line("SYS", "엔딩: 귀환 — 새로운 일상이 시작됩니다.")
  ], None, None, None, true)

  const E2: Scene := Scene("E2", "엔딩 — 잔류", [
    Line("MOMO", "이 세계… 내가 지켜줄게."),
    Line("ZZ", "그럼 모험은 이제부터 시작이지!"),
    Line("SYS", "엔딩: 잔류 — 추가 퀘스트가 해금되었습니다.")
  ], None, None, None, true)

  /** STORY_DATA. */
  const TheStory: Story := Story(Characters, [S1, S2, S3, S4, S5, S6, S7, S7Retry, S8, S9, E1, E2])

  /** Array.prototype.find over the scenes by id: the first scene with that
      id, or none. */
  function Find(scenes: seq<Scene>, id: string): Option<Scene> {
    if scenes == [] then None
    else if scenes[0].id == id then Some(scenes[0])
    else Find(scenes[1..], id)
  }

  /** find yields a scene with the id when there is one, and nothing
      otherwise. */
  lemma {:induction false} FindSpec(scenes: seq<Scene>, id: string)
    ensures Find(scenes, id).Some? ==> Find(scenes, id).value in scenes && Find(scenes, id).value.id == id
    ensures Find(scenes, id).None? <==> forall s :: s in scenes ==> s.id != id
  {
    if scenes != [] && scenes[0].id != id {
      FindSpec(scenes[1..], id);
      assert scenes == [scenes[0]] + scenes[1..];
    }
  }

  /** find returns the earliest match: no scene before it has the id. */
  lemma {:induction false} FindFirst(scenes: seq<Scene>, id: string)
    requires Find(scenes, id).Some?
    ensures exists k :: 0 <= k < |scenes| && scenes[k] == Find(scenes, id).value
                        && forall j :: 0 <= j < k ==> scenes[j].id != id
  {
    if scenes[0].id != id {
      FindFirst(scenes[1..], id);
      var k :| 0 <= k < |scenes[1..]| && scenes[1..][k] == Find(scenes[1..], id).value
               && forall j :: 0 <= j < k ==> scenes[1..][j].id != id;
      assert scenes[k + 1] == Find(scenes, id).value;
      forall j | 0 <= j < k + 1
        ensures scenes[j].id != id
      {
        if j > 0 { assert scenes[j] == scenes[1..][j - 1]; }
      }
    } else {
      assert scenes[0] == Find(scenes, id).value;
    }
  }

  /** With distinct ids, find returns exactly the scene carrying the id. */
  lemma {:induction false} FindUnique(scenes: seq<Scene>, k: nat)
    requires k < |scenes| && DistinctIds(scenes)
    ensures Find(scenes, scenes[k].id) == Some(scenes[k])
  {
    if k > 0 {
      assert scenes[0].id != scenes[k].id;
      assert DistinctIds(scenes[1..]) by {
        forall i, j | 0 <= i < j < |scenes[1..]|
          ensures scenes[1..][i].id != scenes[1..][j].id
        {
          assert scenes[1..][i] == scenes[i + 1] && scenes[1..][j] == scenes[j + 1];
        }
      }
      FindUnique(scenes[1..], k - 1);
    }
  }

  predicate DistinctIds(scenes: seq<Scene>) {
    forall i, j :: 0 <= i < j < |scenes| ==> scenes[i].id != scenes[j].id
  }

  predicate Exists(story: Story, id: string) {
    Find(story.scenes, id).Some?
  }

  /** How many of the four continuation kinds a scene has. */
  function Continuations(s: Scene): nat {
    (if s.next.Some? then 1 else 0) + (if s.battle.Some? then 1 else 0)
    + (if s.choice.Some? then 1 else 0) + (if s.end then 1 else 0)
  }

  predicate KnownSpeaker(story: Story, speaker: string) {
    speaker == "SFX" || speaker == "SYS" || speaker in story.characters
  }

  /** Every scene a scene can continue to exists. */
  predicate TargetsExist(story: Story, s: Scene) {
    && (s.next.Some? ==> Exists(story, s.next.value))
    && (s.battle.Some? ==> Exists(story, s.battle.value.winNext) && Exists(story, s.battle.value.loseNext))
    && (s.choice.Some? ==> forall m :: 0 <= m < |s.choice.value.options| ==> Exists(story, s.choice.value.options[m].goto))
  }

  predicate SceneWellFormed(story: Story, s: Scene) {
    && |s.lines| >= 1
    && Continuations(s) == 1
    && (forall m :: 0 <= m < |s.lines| ==> KnownSpeaker(story, s.lines[m].speaker))
    && TargetsExist(story, s)
  }

  predicate WellFormed(story: Story) {
    && DistinctIds(story.scenes)
    && Exists(story, "S1")
    && forall k :: 0 <= k < |story.scenes| ==> SceneWellFormed(story, story.scenes[k])
  }

  /** Whether scene `from` can hand over to scene `to`: by next, by either
      battle outcome, or by one of its choice options. */
  predicate Leads(story: Story, from: string, to: string) {
    var s := Find(story.scenes, from);
    && s.Some?
    && ((s.value.next == Some(to))
        || (s.value.battle.Some? && (s.value.battle.value.winNext == to || s.value.battle.value.loseNext == to))
        || (s.value.choice.Some? && exists o :: o in s.value.choice.value.options && o.goto == to))
  }

  predicate IsEnding(story: Story, id: string) {
    Find(story.scenes, id).Some? && Find(story.scenes, id).value.end
  }

  predicate Path(story: Story, route: seq<string>) {
    forall i :: 0 <= i < |route| - 1 ==> Leads(story, route[i], route[i + 1])
  }

  /** The route through the story that wins the battle and returns home. */
  const HomeRoute: seq<string> := ["S1", "S2", "S3", "S4", "S5", "S6", "S7", "S8", "S9", "E1"]

  lemma IdsDistinct()
    ensures DistinctIds(TheStory.scenes)
  {
    var ss := TheStory.scenes;
    forall i, j | 0 <= i < j < |ss|
      ensures ss[i].id != ss[j].id
    {
      var ids := ["S1", "S2", "S3", "S4", "S5", "S6", "S7", "S7_RETRY", "S8", "S9", "E1", "E2"];
      assert forall k :: 0 <= k < |ss| ==> ss[k].id == ids[k];
      assert ids[i] != ids[j] by {
        if |ids[i]| == |ids[j]| {
          assert ids[i][0] != ids[j][0] || ids[i][1] != ids[j][1];
        }
      }
    }
  }

  /** Where each id of the story is found. */
  lemma Lookups()
    ensures Find(TheStory.scenes, "S1") == Some(S1) && Find(TheStory.scenes, "S2") == Some(S2)
    ensures Find(TheStory.scenes, "S3") == Some(S3) && Find(TheStory.scenes, "S4") == Some(S4)
    ensures Find(TheStory.scenes, "S5") == Some(S5) && Find(TheStory.scenes, "S6") == Some(S6)
    ensures Find(TheStory.scenes, "S7") == Some(S7) && Find(TheStory.scenes, "S7_RETRY") == Some(S7Retry)
    ensures Find(TheStory.scenes, "S8") == Some(S8) && Find(TheStory.scenes, "S9") == Some(S9)
    ensures Find(TheStory.scenes, "E1") == Some(E1) && Find(TheStory.scenes, "E2") == Some(E2)
  {
    IdsDistinct();
    var ss := TheStory.scenes;
    FindUnique(ss, 0); FindUnique(ss, 1); FindUnique(ss, 2); FindUnique(ss, 3);
    FindUnique(ss, 4); FindUnique(ss, 5); FindUnique(ss, 6); FindUnique(ss, 7);
    FindUnique(ss, 8); FindUnique(ss, 9); FindUnique(ss, 10); FindUnique(ss, 11);
  }

  const SceneIds: set<string> := {"S1", "S2", "S3", "S4", "S5", "S6", "S7", "S7_RETRY", "S8", "S9", "E1", "E2"}

  const Speakers: set<string> := {"SFX", "SYS", "MOMO", "IGU", "AGWI", "MOMAMA", "NADAY", "ZZ"}

  lemma IdsExist()
    ensures forall id :: id in SceneIds ==> Exists(TheStory, id)
  {
    Lookups();
  }

  /** A scene whose speakers and targets are among the known ones is well
      formed in STORY_DATA. */
  lemma SceneChecks(s: Scene)
    requires |s.lines| >= 1 && Continuations(s) == 1
    requires forall m :: 0 <= m < |s.lines| ==> s.lines[m].speaker in Speakers
    requires s.next.Some? ==> s.next.value in SceneIds
    requires s.battle.Some? ==> s.battle.value.winNext in SceneIds && s.battle.value.loseNext in SceneIds
    requires s.choice.Some? ==> forall m :: 0 <= m < |s.choice.value.options| ==> s.choice.value.options[m].goto in SceneIds
    ensures SceneWellFormed(TheStory, s)
  {
    IdsExist();
    assert TheStory.characters == Characters;
  }

  /** STORY_DATA is well formed. */
  lemma StoryWellFormed()
    ensures WellFormed(TheStory)
  {
    IdsDistinct();
    IdsExist();
    SceneChecks(S1); SceneChecks(S2); SceneChecks(S3); SceneChecks(S4);
    SceneChecks(S5); SceneChecks(S6); SceneChecks(S7); SceneChecks(S7Retry);
    SceneChecks(S8); SceneChecks(S9); SceneChecks(E1); SceneChecks(E2);
  }

  /** The battle of S7 leads to S8 when won and to S7_RETRY when lost, and
      S7_RETRY leads back to S7. */
  lemma BattleLoop()
    ensures Find(TheStory.scenes, "S7").Some? && Find(TheStory.scenes, "S7").value.battle == Some(Battle("AGWI", "S8", "S7_RETRY"))
    ensures Find(TheStory.scenes, "S7_RETRY").Some? && Find(TheStory.scenes, "S7_RETRY").value.next == Some("S7")
    ensures Leads(TheStory, "S7", "S8") && Leads(TheStory, "S7", "S7_RETRY") && Leads(TheStory, "S7_RETRY", "S7")
  {
    Lookups();
  }

  /** S9's choice offers E1 and E2, and both are endings. */
  lemma FinalChoice()
    ensures Find(TheStory.scenes, "S9").Some?
    ensures var c := Find(TheStory.scenes, "S9").value.choice;
            c.Some? && |c.value.options| == 2
            && c.value.options[0].goto == "E1" && c.value.options[1].goto == "E2"
    ensures IsEnding(TheStory, "E1") && IsEnding(TheStory, "E2")
  {
    Lookups();
  }

  /** An ending is reachable from the default start scene S1. */
  lemma EndingReachable()
    ensures Exists(TheStory, "S1")
    ensures HomeRoute[0] == "S1" && Path(TheStory, HomeRoute) && IsEnding(TheStory, HomeRoute[|HomeRoute| - 1])
  {
    Lookups();
    var c := S9.choice.value;
    assert c.options[0] in c.options && c.options[0].goto == "E1";
    assert Leads(TheStory, "S1", "S2") && Leads(TheStory, "S2", "S3") && Leads(TheStory, "S3", "S4");
    assert Leads(TheStory, "S4", "S5") && Leads(TheStory, "S5", "S6") && Leads(TheStory, "S6", "S7");
    assert Leads(TheStory, "S7", "S8") && Leads(TheStory, "S8", "S9") && Leads(TheStory, "S9", "E1");
  }
}
