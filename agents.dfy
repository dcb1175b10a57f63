/**
 * The two shipped agents (src/agents/outline_agent.py, src/agents/chapter_agent.py)
 * and the task and result shapes they exchange with the workflow. Both agents
 * are deterministic stubs, so each is a pure function of the task it is given.
 */
module Agents {
  import opened Values

  /** An outline chapter entry; either key may be missing from the dictionary. */
  datatype ChapterInfo = ChapterInfo(title: Option<string>, summary: Option<string>)

  datatype Outline = Outline(title: string, logline: string, chapters: seq<ChapterInfo>)

  /** The three task dictionaries the workflow builds. */
  datatype Task =
    | OutlineTask(name: string, description: string)
    | CharacterTask(name: string, prompt: string, outline: Outline)
    | ChapterTask(name: string, description: string, chapterInfo: ChapterInfo)

  /** The task's `"description"` entry; the character task has none. */
  function Description(t: Task): (d: Option<string>)
    ensures d.None? <==> t.CharacterTask?
  {
    match t
    case OutlineTask(_, description) => Some(description)
    case CharacterTask(_, _, _) => None
    case ChapterTask(_, description, _) => Some(description)
  }

  /** `task.get("chapter_info", {})`. */
  function ChapterInfoOf(t: Task): (info: ChapterInfo)
    ensures t.ChapterTask? ==> info == t.chapterInfo
    ensures !t.ChapterTask? ==> info.title.None? && info.summary.None?
  {
    if t.ChapterTask? then t.chapterInfo else ChapterInfo(None, None)
  }

  /** The `"result"` of a completed task: an outline dictionary or a chapter text. */
  datatype Payload = OutlinePayload(outline: Outline) | TextPayload(text: string)

  /** A reply dictionary, by its `"status"`. */
  datatype Reply =
    | Completed(payload: Payload)
    | Acknowledged(response: string)
    | Error(message: string)

  datatype Agent = OutlineAgent(name: string) | ChapterAgent(name: string)

  const DefaultOutlineAgentName := "OutlineAgent"
  const DefaultChapterAgentName := "ChapterAgent"

  const MissingDescription := "KeyError: 'description'"
  const MissingContent := "KeyError: 'content'"

  /** The outline the outline agent returns for every task. */
  function GeneratedOutline(): (o: Outline)
    ensures |o.chapters| == 3
    ensures forall i :: 0 <= i < |o.chapters| ==> o.chapters[i].title.Some? && o.chapters[i].summary.Some?
    ensures o.chapters[0].title == Some("第一章：霓虹之影")
    ensures o.chapters[1].title == Some("第二章：数据迷宫")
    ensures o.chapters[2].title == Some("第三章：真相边缘")
  {
    Outline("赛博朋克侦探",
      "在一个反乌托邦的未来，一名侦探揭露了一场涉及人工智能和企业阴谋的巨大阴谋。",
      [ChapterInfo(Some("第一章：霓虹之影"), Some("介绍主角和赛博朋克世界。")),
       ChapterInfo(Some("第二章：数据迷宫"), Some("侦探开始调查案件。")),
       ChapterInfo(Some("第三章：真相边缘"), Some("揭露部分阴谋。"))])
  }

  const ChapterTextIntro := "这是关于 "
  const ChapterTextMiddle := " 的内容。\n\n"
  const UnknownChapterTitle := "未知章节"

  /**
   * The chapter text: a fixed introduction, the title (default "未知章节"), a fixed
   * middle part, then the summary (default empty). The text splits back into
   * those parts.
   */
  function ChapterText(info: ChapterInfo): (text: string)
    ensures var title, summary := info.title.GetOr(UnknownChapterTitle), info.summary.GetOr("");
      && |text| == |ChapterTextIntro| + |title| + |ChapterTextMiddle| + |summary|
      && text[..|ChapterTextIntro|] == ChapterTextIntro
      && text[|ChapterTextIntro|..|ChapterTextIntro| + |title|] == title
      && text[|ChapterTextIntro| + |title|..|text| - |summary|] == ChapterTextMiddle
      && text[|text| - |summary|..] == summary
  {
    var title, summary := info.title.GetOr(UnknownChapterTitle), info.summary.GetOr("");
    var text := ChapterTextIntro + title + ChapterTextMiddle + summary;
    assert text[..|ChapterTextIntro|] == ChapterTextIntro;
    assert text[|ChapterTextIntro|..|ChapterTextIntro| + |title|] == title;
    assert text[|ChapterTextIntro| + |title|..|text| - |summary|] == ChapterTextMiddle;
    assert text[|text| - |summary|..] == summary;
    text
  }

  /** Recovers the title from a chapter text whose summary is known. */
  function TitleOfChapterText(text: string, summary: string): string
    requires |ChapterTextIntro| + |ChapterTextMiddle| + |summary| <= |text|
  {
    text[|ChapterTextIntro|..|text| - |ChapterTextMiddle| - |summary|]
  }

  /** Given the summary, the title reads back out of the chapter text. */
  lemma ChapterTextKeepsTitle(info: ChapterInfo)
    ensures TitleOfChapterText(ChapterText(info), info.summary.GetOr("")) == info.title.GetOr(UnknownChapterTitle)
  {
  }

  /**
   * `OutlineAgent.execute_task`: reads `task["description"]` (for its log line),
   * so a task without one raises; otherwise it completes with the fixed outline.
   */
  function OutlineExecuteTask(task: Task): (r: Outcome<Reply>)
    ensures r.Raised? <==> Description(task).None?
    ensures r.Raised? ==> r.exception == MissingDescription
    ensures r.Returned? ==> r.value == Completed(OutlinePayload(GeneratedOutline()))
  {
    if Description(task).None? then Raised(MissingDescription)
    else Returned(Completed(OutlinePayload(GeneratedOutline())))
  }

  /**
   * `ChapterAgent.execute_task`: reads `task["description"]` first, so a task
   * without one raises; otherwise it completes with the text for the task's
   * chapter info.
   */
  function ChapterExecuteTask(task: Task): (r: Outcome<Reply>)
    ensures r.Raised? <==> Description(task).None?
    ensures r.Raised? ==> r.exception == MissingDescription
    ensures r.Returned? ==> r.value == Completed(TextPayload(ChapterText(ChapterInfoOf(task))))
  {
    if Description(task).None? then Raised(MissingDescription)
    else Returned(Completed(TextPayload(ChapterText(ChapterInfoOf(task)))))
  }

  /** `execute_task` on an agent of either class: every reply that returns is completed. */
  function ExecuteTask(agent: Agent, task: Task): (r: Outcome<Reply>)
    ensures r.Raised? <==> Description(task).None?
    ensures r.Returned? ==> r.value.Completed?
    ensures r.Returned? && agent.OutlineAgent? ==> r.value.payload.OutlinePayload?
    ensures r.Returned? && agent.ChapterAgent? ==> r.value.payload.TextPayload?
  {
    match agent
    case OutlineAgent(_) => OutlineExecuteTask(task)
    case ChapterAgent(_) => ChapterExecuteTask(task)
  }

  /** The outline agent's result is the same for every task that has a description. */
  lemma OutlineIgnoresTask(t1: Task, t2: Task)
    requires Description(t1).Some? && Description(t2).Some?
    ensures OutlineExecuteTask(t1) == OutlineExecuteTask(t2)
  {
  }

  /** The chapter agent's result depends only on the task's chapter info. */
  lemma ChapterDependsOnlyOnInfo(t1: Task, t2: Task)
    requires Description(t1).Some? && Description(t2).Some? && ChapterInfoOf(t1) == ChapterInfoOf(t2)
    ensures ChapterExecuteTask(t1) == ChapterExecuteTask(t2)
  {
  }

  /** `OutlineAgent.communicate`: needs a `"content"` entry and acknowledges with a fixed response. */
  function OutlineCommunicate(message: map<string, Value>): (r: Outcome<Reply>)
    ensures r.Raised? <==> "content" !in message
    ensures r.Raised? ==> r.exception == MissingContent
    ensures r.Returned? ==> r.value == Acknowledged("收到大纲请求。")
  {
    if "content" !in message then Raised(MissingContent) else Returned(Acknowledged("收到大纲请求。"))
  }

  /** `ChapterAgent.communicate`: needs a `"content"` entry and acknowledges with a fixed response. */
  function ChapterCommunicate(message: map<string, Value>): (r: Outcome<Reply>)
    ensures r.Raised? <==> "content" !in message
    ensures r.Raised? ==> r.exception == MissingContent
    ensures r.Returned? ==> r.value == Acknowledged("收到章节创作请求。")
  {
    if "content" !in message then Raised(MissingContent) else Returned(Acknowledged("收到章节创作请求。"))
  }

  /** `communicate` on an agent of either class: every reply that returns is an acknowledgement. */
  function Communicate(agent: Agent, message: map<string, Value>): (r: Outcome<Reply>)
    ensures r.Raised? <==> "content" !in message
    ensures r.Returned? ==> r.value.Acknowledged?
  {
    match agent
    case OutlineAgent(_) => OutlineCommunicate(message)
    case ChapterAgent(_) => ChapterCommunicate(message)
  }

  /** The dictionary of a chapter entry: only the keys that are present. */
  function InfoToValue(info: ChapterInfo): (v: Value)
    ensures v.VDict?
    ensures "title" in v.fields <==> info.title.Some?
    ensures "summary" in v.fields <==> info.summary.Some?
  {
    var withTitle: map<string, Value> := if info.title.Some? then map["title" := VStr(info.title.value)] else map[];
    VDict(if info.summary.Some? then withTitle["summary" := VStr(info.summary.value)] else withTitle)
  }

  function OptionalStr(d: map<string, Value>, key: string): Option<Option<string>> {
    if key !in d then Some(None)
    else if d[key].VStr? then Some(Some(d[key].s))
    else None
  }

  function InfoFromValue(v: Value): Option<ChapterInfo> {
    if !v.VDict? then None
    else
      var title, summary := OptionalStr(v.fields, "title"), OptionalStr(v.fields, "summary");
      if title.Some? && summary.Some? then Some(ChapterInfo(title.value, summary.value)) else None
  }

  function InfosToValues(infos: seq<ChapterInfo>): (vs: seq<Value>)
    ensures |vs| == |infos|
  {
    if infos == [] then [] else [InfoToValue(infos[0])] + InfosToValues(infos[1..])
  }

  function InfosFromValues(vs: seq<Value>): Option<seq<ChapterInfo>> {
    if vs == [] then Some([])
    else
      match (InfoFromValue(vs[0]), InfosFromValues(vs[1..]))
      case (Some(info), Some(rest)) => Some([info] + rest)
      case _ => None
  }

  /** The outline dictionary the agent returns and the workflow shares. */
  function OutlineToValue(o: Outline): (v: Value)
    ensures v.VDict? && v.fields.Keys == {"title", "logline", "chapters"}
  {
    VDict(map["title" := VStr(o.title), "logline" := VStr(o.logline), "chapters" := VList(InfosToValues(o.chapters))])
  }

  function OutlineFromValue(v: Value): Option<Outline> {
    if !v.VDict? || "title" !in v.fields || "logline" !in v.fields || "chapters" !in v.fields then None
    else
      var title, logline, chapters := v.fields["title"], v.fields["logline"], v.fields["chapters"];
      if title.VStr? && logline.VStr? && chapters.VList? then
        match InfosFromValues(chapters.items)
        case Some(infos) => Some(Outline(title.s, logline.s, infos))
        case None => None
      else None
  }

  lemma InfoRoundTrip(info: ChapterInfo)
    ensures InfoFromValue(InfoToValue(info)) == Some(info)
  {
  }

  lemma {:induction false} InfosRoundTrip(infos: seq<ChapterInfo>)
    ensures InfosFromValues(InfosToValues(infos)) == Some(infos)
  {
    if infos != [] {
      InfoRoundTrip(infos[0]);
      InfosRoundTrip(infos[1..]);
      var vs := InfosToValues(infos);
      assert vs[0] == InfoToValue(infos[0]) && vs[1..] == InfosToValues(infos[1..]);
      assert [infos[0]] + infos[1..] == infos;
    }
  }

  /** The shared outline dictionary holds the whole outline: it decodes back to it. */
  lemma OutlineRoundTrip(o: Outline)
    ensures OutlineFromValue(OutlineToValue(o)) == Some(o)
  {
    InfosRoundTrip(o.chapters);
  }
}
