/**
 * What one iteration of the dispatch loop of `start_workflow`
 * (src/workflow/creative_workflow.py:26-82) does to the queue, the story state
 * and the shared context, and what the whole loop computes. Exceptions the
 * loop body raises end the run, as they propagate out of `start_workflow`.
 */
module WorkflowSpec {
  import opened Values
  import opened Agents
  import opened AgentRegistry
  import opened StateManager

  /** A queue entry: the id of the agent to run and the task to give it. */
  datatype Job = Job(agent: string, task: Task)

  /** The workflow's state as the loop sees it. */
  datatype WState = WState(queue: seq<Job>, story: ManagerState, shared: map<string, Value>)

  /** One iteration either carries on from a new state or raises. */
  datatype StepOutcome = Continue(next: WState) | Raise(exception: string)

  const NovelOutlineKey := "novel_outline"
  const OutlineSharer := "OutlineAgent"

  const MissingTitle := "KeyError: 'title'"
  const MissingChapterInfo := "KeyError: 'chapter_info'"
  const MissingChaptersWritten := "KeyError: 'chapters_written'"
  /** `chapters_written + 1` on a non-number; Python's message names the operand types, so only the class is kept. */
  const NotAnInteger := "TypeError"
  const MissingGetInformation := "AttributeError: 'CollaborationProtocol' object has no attribute 'get_information'"

  /** The job `start_workflow` seeds the queue with. */
  function OutlineJob(prompt: string): (j: Job)
    ensures j.agent == OutlineAgentId && j.task.OutlineTask?
  {
    Job(OutlineAgentId, OutlineTask("Generate Novel Outline", "根据提示 '" + prompt + "' 生成小说大纲"))
  }

  function CharacterJob(prompt: string, outline: Outline): (j: Job)
    ensures j.agent == CharacterAgentId && j.task.CharacterTask?
  {
    Job(CharacterAgentId, CharacterTask("Generate Novel Characters", prompt, outline))
  }

  /** The job for the outline chapter at position `i` (0-based); its name counts from 1. */
  function ChapterJob(i: nat, info: ChapterInfo): (j: Job)
    requires info.title.Some?
    ensures j.agent == ChapterAgentId && j.task.ChapterTask? && j.task.chapterInfo == info
  {
    Job(ChapterAgentId, ChapterTask("Write Chapter " + NatToString(i + 1), "创作章节: " + info.title.value, info))
  }

  predicate AllTitled(chapters: seq<ChapterInfo>) {
    forall i :: 0 <= i < |chapters| ==> chapters[i].title.Some?
  }

  /** One chapter job per outline chapter, in outline order. */
  function ChapterJobs(chapters: seq<ChapterInfo>): (jobs: seq<Job>)
    requires AllTitled(chapters)
    ensures |jobs| == |chapters|
    ensures forall i :: 0 <= i < |chapters| ==> jobs[i] == ChapterJob(i, chapters[i])
  {
    if chapters == [] then []
    else ChapterJobs(chapters[..|chapters| - 1]) + [ChapterJob(|chapters| - 1, chapters[|chapters| - 1])]
  }

  /**
   * The follow-up to a completed outline: record progress, share the outline,
   * enqueue the character job and then one job per chapter. Building a chapter
   * job reads the chapter's title, so an untitled chapter raises.
   */
  function OutlineStage(s: WState, outline: Outline, prompt: string): (r: StepOutcome)
    ensures r.Continue? <==> AllTitled(outline.chapters)
    ensures r.Raise? ==> r.exception == MissingTitle
  {
    var story := SetTotal(SetProgress(s.story, OutlineGeneratedKey, VBool(true)), |outline.chapters|);
    var shared := s.shared[NovelOutlineKey := OutlineToValue(outline)];
    if AllTitled(outline.chapters) then
      Continue(WState(s.queue + [CharacterJob(prompt, outline)] + ChapterJobs(outline.chapters), story, shared))
    else Raise(MissingTitle)
  }

  /**
   * A completed outline leaves the jobs already queued in front, adds the
   * character job and then one job per chapter, in outline order, behind them,
   * marks the outline generated with its chapter count as the total, shares the
   * outline, and leaves the stored chapters and story elements alone.
   */
  lemma OutlineStageAppends(s: WState, outline: Outline, prompt: string)
    requires OutlineStage(s, outline, prompt).Continue?
    ensures var next := OutlineStage(s, outline, prompt).next;
      && |next.queue| == |s.queue| + 1 + |outline.chapters| && next.queue[..|s.queue|] == s.queue
      && next.story.chapters == s.story.chapters && next.story.elements == s.story.elements
  ensures var next := OutlineStage(s, outline, prompt).next;
      && next.queue[|s.queue|] == CharacterJob(prompt, outline)
      && (forall i :: 0 <= i < |outline.chapters| ==> next.queue[|s.queue| + 1 + i] == ChapterJob(i, outline.chapters[i]))
  ensures var next := OutlineStage(s, outline, prompt).next;
      && Get(next.story.progress, OutlineGeneratedKey) == VBool(true)
      && Get(next.story.progress, TotalChaptersKey) == VInt(|outline.chapters|)
      && Get(next.shared, NovelOutlineKey) == OutlineToValue(outline)
  {
    var next := OutlineStage(s, outline, prompt).next;
    assert next.queue == s.queue + ([CharacterJob(prompt, outline)] + ChapterJobs(outline.chapters));
  }

  /**
   * The follow-up to a completed chapter: the text is stored at
   * `chapters_written + 1`; the log line then reads the chapter's title.
   */
  function ChapterStage(s: WState, task: Task, content: string): (r: StepOutcome)
    ensures r.Continue? <==> && task.ChapterTask? && task.chapterInfo.title.Some?
                             && ChaptersWrittenKey in s.story.progress && AsInt(s.story.progress[ChaptersWrittenKey]).Some?
    ensures r.Continue? ==> var n := AsInt(s.story.progress[ChaptersWrittenKey]).value;
      r.next.story.chapters == s.story.chapters[n + 1 := content]
    ensures r.Continue? ==> r.next.queue == s.queue && r.next.shared == s.shared && r.next.story.elements == s.story.elements
  {
    if !task.ChapterTask? then Raise(MissingChapterInfo)
    else if ChaptersWrittenKey !in s.story.progress then Raise(MissingChaptersWritten)
    else match AsInt(s.story.progress[ChaptersWrittenKey])
      case None => Raise(NotAnInteger)
      case Some(n) =>
        if task.chapterInfo.title.None? then Raise(MissingTitle)
        else Continue(s.(story := AddChapter(s.story, n + 1, content)))
  }

  /**
   * One loop iteration on a job already taken off the queue (`s` is the state
   * after the pop). Agent ids are resolved against the shipped registry.
   */
  function Step(s: WState, job: Job, prompt: string): (r: StepOutcome)
    ensures r.Raise? ==> job.agent == OutlineAgentId || job.agent == ChapterAgentId
    ensures r.Continue? && job.agent != OutlineAgentId ==> r.next.queue == s.queue && r.next.shared == s.shared
  {
    match GetAgent(NewAgentManager(), job.agent)
    case None => Continue(s)
    case Some(agent) =>
      match ExecuteTask(agent, job.task)
      case Raised(e) => Raise(e)
      case Returned(result) =>
        if !result.Completed? then Continue(s)
        else if job.agent == OutlineAgentId then OutlineStage(s, result.payload.outline, prompt)
        else if job.agent == CharacterAgentId then Raise(MissingGetInformation)
        else if job.agent == ChapterAgentId then ChapterStage(s, job.task, result.payload.text)
        else Continue(s)
  }

  /** The number of queued jobs addressed to the outline agent. */
  function OutlineCount(q: seq<Job>): nat {
    if q == [] then 0 else (if q[0].agent == OutlineAgentId then 1 else 0) + OutlineCount(q[1..])
  }

  lemma {:induction false} OutlineCountAppend(a: seq<Job>, b: seq<Job>)
    ensures OutlineCount(a + b) == OutlineCount(a) + OutlineCount(b)
  {
    if a != [] {
      assert (a + b)[1..] == a[1..] + b;
      OutlineCountAppend(a[1..], b);
    } else {
      assert a + b == b;
    }
  }

  lemma {:induction false} NoOutlineJobs(q: seq<Job>)
    requires forall i :: 0 <= i < |q| ==> q[i].agent != OutlineAgentId
    ensures OutlineCount(q) == 0
  {
    if q != [] {
      NoOutlineJobs(q[1..]);
    }
  }

  /**
   * What an iteration does to the queue: only an outline job enqueues anything,
   * and no iteration ever enqueues an outline job.
   */
  lemma StepQueueEffect(s: WState, job: Job, prompt: string)
    requires Step(s, job, prompt).Continue?
    ensures var next := Step(s, job, prompt).next;
      && (job.agent != OutlineAgentId ==> next.queue == s.queue)
      && OutlineCount(next.queue) == OutlineCount(s.queue)
  {
    var next := Step(s, job, prompt).next;
    if job.agent == OutlineAgentId {
      var o := GeneratedOutline();
      var added := [CharacterJob(prompt, o)] + ChapterJobs(o.chapters);
      assert next.queue == s.queue + added;
      NoOutlineJobs(added);
      OutlineCountAppend(s.queue, added);
    }
  }

  /** The loop from state `s` until the queue is empty or an iteration raises. */
  function RunFrom(s: WState, prompt: string): (r: StepOutcome)
    ensures r.Continue? ==> r.next.queue == []
    decreases OutlineCount(s.queue), |s.queue|
  {
    if s.queue == [] then Continue(s)
    else
      var popped := s.(queue := s.queue[1..]);
      match Step(popped, s.queue[0], prompt)
      case Raise(e) => Raise(e)
      case Continue(next) =>
        StepQueueEffect(popped, s.queue[0], prompt);
        RunFrom(next, prompt)
  }

  /** A run on a non-empty queue is one iteration followed by the run from there. */
  lemma RunFromUnfold(s: WState, prompt: string)
    requires s.queue != []
    requires Step(s.(queue := s.queue[1..]), s.queue[0], prompt).Continue?
    ensures RunFrom(s, prompt) == RunFrom(Step(s.(queue := s.queue[1..]), s.queue[0], prompt).next, prompt)
  {
  }

  /** A job for an unregistered id only logs: nothing changes and the loop goes on. */
  lemma NotFoundOnlyLogs(s: WState, job: Job, prompt: string)
    requires job.agent !in {OutlineAgentId, ChapterAgentId}
    ensures Step(s, job, prompt) == Continue(s)
  {
  }

  /** Character jobs are never handled: their id is not registered. */
  lemma CharacterJobNeverRuns(s: WState, task: Task, prompt: string)
    ensures Step(s, Job(CharacterAgentId, task), prompt) == Continue(s)
  {
    NotFoundOnlyLogs(s, Job(CharacterAgentId, task), prompt);
  }

  /**
   * A completed outline marks the outline generated, sets the chapter total to
   * the outline's three chapters, shares the outline and enqueues the character
   * job followed by the chapter jobs in outline order.
   */
  lemma OutlineStepShape(s: WState, task: Task, prompt: string)
    requires Description(task).Some?
    ensures var o := GeneratedOutline();
      Step(s, Job(OutlineAgentId, task), prompt) == Continue(WState(
        s.queue + [CharacterJob(prompt, o), ChapterJob(0, o.chapters[0]), ChapterJob(1, o.chapters[1]), ChapterJob(2, o.chapters[2])],
        SetTotal(SetProgress(s.story, OutlineGeneratedKey, VBool(true)), 3),
        s.shared[NovelOutlineKey := OutlineToValue(o)]))
  {
    var o := GeneratedOutline();
    var jobs := ChapterJobs(o.chapters);
    assert jobs == [ChapterJob(0, o.chapters[0]), ChapterJob(1, o.chapters[1]), ChapterJob(2, o.chapters[2])];
    assert s.queue + [CharacterJob(prompt, o)] + jobs == s.queue + [CharacterJob(prompt, o), jobs[0], jobs[1], jobs[2]];
  }

  /**
   * A completed chapter job, with consistent progress, stores the chapter text at
   * the next chapter number, whichever outline chapter it came from.
   */
  lemma ChapterStepStoresNext(s: WState, description: string, name: string, info: ChapterInfo, prompt: string)
    requires ProgressConsistent(s.story) && info.title.Some?
    ensures Step(s, Job(ChapterAgentId, ChapterTask(name, description, info)), prompt)
      == Continue(s.(story := AddChapter(s.story, |s.story.chapters| + 1, ChapterText(info))))
  {
  }

  /**
   * Every iteration that carries on keeps `chapters_written` equal to the number of
   * stored chapters and the chapter numbers exactly 1..`chapters_written`.
   */
  lemma StepPreservesConsistency(s: WState, job: Job, prompt: string)
    requires ProgressConsistent(s.story) && ChaptersNumbered(s.story)
    requires Step(s, job, prompt).Continue?
    ensures ProgressConsistent(Step(s, job, prompt).next.story)
    ensures ChaptersNumbered(Step(s, job, prompt).next.story)
  {
    if job.agent == ChapterAgentId {
      NextChapterKeepsNumbering(s.story, ChapterText(ChapterInfoOf(job.task)));
    } else if job.agent == OutlineAgentId {
      var m1 := SetProgress(s.story, OutlineGeneratedKey, VBool(true));
      UpdateOtherKeyKeepsConsistency(s.story, OutlineGeneratedKey, VBool(true));
      UpdateOtherKeyKeepsConsistency(m1, TotalChaptersKey, VInt(|GeneratedOutline().chapters|));
    }
  }

  /** The state `start_workflow` enters its loop with. */
  function Seeded(s: WState, prompt: string): (r: WState)
    ensures r.queue == s.queue + [OutlineJob(prompt)] && r.story == s.story && r.shared == s.shared
  {
    s.(queue := s.queue + [OutlineJob(prompt)])
  }

  /** The chapter texts the run stores, in outline order. */
  function Texts(): (t: seq<string>)
    ensures |t| == 3
    ensures forall i :: 0 <= i < 3 ==> t[i] == ChapterText(GeneratedOutline().chapters[i])
  {
    var o := GeneratedOutline();
    [ChapterText(o.chapters[0]), ChapterText(o.chapters[1]), ChapterText(o.chapters[2])]
  }

  /**
   * The state a run from an empty queue ends in, given the three chapter texts:
   * the outline shared, the progress recorded and the texts stored at the next
   * three chapter numbers.
   */
  function Finished(s: WState, texts: seq<string>): WState
    requires |texts| == 3
  {
    var n := |s.story.chapters|;
    var story := SetTotal(SetProgress(s.story, OutlineGeneratedKey, VBool(true)), 3);
    var story := AddChapter(AddChapter(AddChapter(story, n + 1, texts[0]), n + 2, texts[1]), n + 3, texts[2]);
    WState([], story, s.shared[NovelOutlineKey := OutlineToValue(GeneratedOutline())])
  }

  /** `j` is a chapter job for the outline chapter `c`, whatever its name. */
  predicate ChapterJobFor(j: Job, c: ChapterInfo) {
    j.agent == ChapterAgentId && j.task.ChapterTask? && j.task.chapterInfo == c
  }

  /** A chapter job at the head of the queue stores its text at the next chapter number. */
  lemma ChapterJobAdvances(s: WState, c: ChapterInfo, prompt: string)
    requires ProgressConsistent(s.story) && ChaptersNumbered(s.story) && c.title.Some?
    requires s.queue != [] && ChapterJobFor(s.queue[0], c)
    ensures var story := AddChapter(s.story, |s.story.chapters| + 1, ChapterText(c));
      && RunFrom(s, prompt) == RunFrom(s.(queue := s.queue[1..], story := story), prompt)
      && ChaptersNumbered(story) && |story.chapters| == |s.story.chapters| + 1
  {
    NextChapterKeepsNumbering(s.story, ChapterText(c));
    var j := s.queue[0];
    ChapterStepStoresNext(s.(queue := s.queue[1..]), j.task.description, j.task.name, c, prompt);
    RunFromUnfold(s, prompt);
  }

  /** Three chapter jobs in a row store their texts, in queue order, at the next three numbers. */
  lemma ChapterJobsRun(s: WState, c0: ChapterInfo, c1: ChapterInfo, c2: ChapterInfo, prompt: string)
    requires ProgressConsistent(s.story) && ChaptersNumbered(s.story)
    requires c0.title.Some? && c1.title.Some? && c2.title.Some?
    requires |s.queue| == 3
    requires ChapterJobFor(s.queue[0], c0) && ChapterJobFor(s.queue[1], c1) && ChapterJobFor(s.queue[2], c2)
    ensures var n := |s.story.chapters|;
      RunFrom(s, prompt) == Continue(s.(queue := [], story :=
        AddChapter(AddChapter(AddChapter(s.story, n + 1, ChapterText(c0)), n + 2, ChapterText(c1)), n + 3, ChapterText(c2))))
  {
    var n := |s.story.chapters|;
    var story2 := AddChapter(s.story, n + 1, ChapterText(c0));
    var story3 := AddChapter(story2, n + 2, ChapterText(c1));
    var story4 := AddChapter(story3, n + 3, ChapterText(c2));

    ChapterJobAdvances(s, c0, prompt);
    var s3 := s.(queue := s.queue[1..], story := story2);
    ChapterJobAdvances(s3, c1, prompt);
    var s4 := s3.(queue := s3.queue[1..], story := story3);
    ChapterJobAdvances(s4, c2, prompt);
    var s5 := s4.(queue := s4.queue[1..], story := story4);
    assert s5.queue == [];
  }

  /** An outline job at the head of the queue is replaced by the outline stage's jobs. */
  lemma OutlineJobAdvances(s: WState, prompt: string)
    requires s.queue != [] && s.queue[0].agent == OutlineAgentId && Description(s.queue[0].task).Some?
    ensures var o := GeneratedOutline();
      RunFrom(s, prompt) == RunFrom(WState(
        s.queue[1..] + [CharacterJob(prompt, o), ChapterJob(0, o.chapters[0]), ChapterJob(1, o.chapters[1]), ChapterJob(2, o.chapters[2])],
        SetTotal(SetProgress(s.story, OutlineGeneratedKey, VBool(true)), 3),
        s.shared[NovelOutlineKey := OutlineToValue(o)]), prompt)
  {
    OutlineStepShape(s.(queue := s.queue[1..]), s.queue[0].task, prompt);
    RunFromUnfold(s, prompt);
  }

  /** A job for an unregistered id at the head of the queue is dropped. */
  lemma NotFoundJobDropped(s: WState, prompt: string)
    requires s.queue != [] && s.queue[0].agent !in {OutlineAgentId, ChapterAgentId}
    ensures RunFrom(s, prompt) == RunFrom(s.(queue := s.queue[1..]), prompt)
  {
    NotFoundOnlyLogs(s.(queue := s.queue[1..]), s.queue[0], prompt);
    RunFromUnfold(s, prompt);
  }

  /** The state once the outline job has run and the character job has been dropped. */
  function ChaptersQueued(s: WState): WState {
    var o := GeneratedOutline();
    WState([ChapterJob(0, o.chapters[0]), ChapterJob(1, o.chapters[1]), ChapterJob(2, o.chapters[2])],
      SetTotal(SetProgress(s.story, OutlineGeneratedKey, VBool(true)), 3),
      s.shared[NovelOutlineKey := OutlineToValue(o)])
  }

  /** From an empty queue, the outline job and the dropped character job leave the three chapter jobs. */
  lemma OutlineAndCharacterJobsRun(s: WState, prompt: string)
    requires s.queue == []
    ensures RunFrom(Seeded(s, prompt), prompt) == RunFrom(ChaptersQueued(s), prompt)
  {
    var o := GeneratedOutline();
    var s0 := Seeded(s, prompt);
    assert s0.queue == [OutlineJob(prompt)];
    OutlineJobAdvances(s0, prompt);
    var s1 := WState(
      s0.queue[1..] + [CharacterJob(prompt, o), ChapterJob(0, o.chapters[0]), ChapterJob(1, o.chapters[1]), ChapterJob(2, o.chapters[2])],
      SetTotal(SetProgress(s0.story, OutlineGeneratedKey, VBool(true)), 3),
      s0.shared[NovelOutlineKey := OutlineToValue(o)]);
    NotFoundJobDropped(s1, prompt);
    assert s1.(queue := s1.queue[1..]) == ChaptersQueued(s);
  }

  /** The three queued chapter jobs store the outline's chapter texts and end the run. */
  lemma QueuedChaptersRun(s: WState, prompt: string)
    requires ProgressConsistent(s.story) && ChaptersNumbered(s.story)
    ensures RunFrom(ChaptersQueued(s), prompt) == Continue(Finished(s, Texts()))
  {
    var o := GeneratedOutline();
    var c0, c1, c2 := o.chapters[0], o.chapters[1], o.chapters[2];
    var s2 := ChaptersQueued(s);
    assert ChapterJobFor(s2.queue[0], c0) && ChapterJobFor(s2.queue[1], c1) && ChapterJobFor(s2.queue[2], c2);
    OutlineProgressKeepsChapters(s.story);
    ChapterJobsRun(s2, c0, c1, c2, prompt);
    var texts := [ChapterText(c0), ChapterText(c1), ChapterText(c2)];
    assert texts == Texts();
    FinishedFrom(s, s2, texts);
  }

  /**
   * From an empty queue and consistent progress, a run never raises and ends in
   * the finished state for the outline's three chapter texts, in outline order.
   */
  lemma CompleteRun(s: WState, prompt: string)
    requires s.queue == [] && ProgressConsistent(s.story) && ChaptersNumbered(s.story)
    ensures RunFrom(Seeded(s, prompt), prompt) == Continue(Finished(s, Texts()))
  {
    OutlineAndCharacterJobsRun(s, prompt);
    QueuedChaptersRun(s, prompt);
  }

  /** The finished state, reached from the state after the outline and character jobs. */
  lemma FinishedFrom(s: WState, after: WState, texts: seq<string>)
    requires |texts| == 3
    requires after.story == SetTotal(SetProgress(s.story, OutlineGeneratedKey, VBool(true)), 3)
    requires after.shared == s.shared[NovelOutlineKey := OutlineToValue(GeneratedOutline())]
    ensures var n := |after.story.chapters|;
      after.(queue := [], story := AddChapter(AddChapter(AddChapter(after.story, n + 1, texts[0]), n + 2, texts[1]), n + 3, texts[2]))
      == Finished(s, texts)
  {
  }

  /** The outline stage's progress updates keep the chapter bookkeeping. */
  lemma OutlineProgressKeepsChapters(m: ManagerState)
    requires ProgressConsistent(m) && ChaptersNumbered(m)
    ensures var r := SetTotal(SetProgress(m, OutlineGeneratedKey, VBool(true)), 3);
      && r.chapters == m.chapters && ProgressConsistent(r) && ChaptersNumbered(r)
      && Get(r.progress, OutlineGeneratedKey) == VBool(true) && Get(r.progress, TotalChaptersKey) == VInt(3)
      && Get(r.progress, StatusKey) == Get(m.progress, StatusKey)
      && r.elements == m.elements && r.chapterIndex == m.chapterIndex
  {
    UpdateOtherKeyKeepsConsistency(m, OutlineGeneratedKey, VBool(true));
    UpdateOtherKeyKeepsConsistency(SetProgress(m, OutlineGeneratedKey, VBool(true)), TotalChaptersKey, VInt(3));
  }

  /** Three chapters stored at the next three numbers. */
  lemma ThreeChaptersStored(m: ManagerState, t0: string, t1: string, t2: string)
    requires ProgressConsistent(m) && ChaptersNumbered(m)
    ensures var n := |m.chapters|;
      var r := AddChapter(AddChapter(AddChapter(m, n + 1, t0), n + 2, t1), n + 3, t2);
      && r.chapters == m.chapters[n + 1 := t0][n + 2 := t1][n + 3 := t2]
      && ProgressConsistent(r) && ChaptersNumbered(r) && |r.chapters| == n + 3
      && Get(r.progress, OutlineGeneratedKey) == Get(m.progress, OutlineGeneratedKey)
      && Get(r.progress, TotalChaptersKey) == Get(m.progress, TotalChaptersKey)
      && Get(r.progress, StatusKey) == Get(m.progress, StatusKey)
      && r.elements == m.elements && r.chapterIndex == m.chapterIndex
  {
    var n := |m.chapters|;
    var m1 := AddChapter(m, n + 1, t0);
    NextChapterKeepsNumbering(m, t0);
    var m2 := AddChapter(m1, n + 2, t1);
    NextChapterKeepsNumbering(m1, t1);
    NextChapterKeepsNumbering(m2, t2);
  }

  /** What the finished state holds. */
  lemma FinishedState(s: WState, texts: seq<string>)
    requires |texts| == 3 && ProgressConsistent(s.story) && ChaptersNumbered(s.story)
    ensures var n, f := |s.story.chapters|, Finished(s, texts);
      && f.queue == []
      && f.story.chapters == s.story.chapters[n + 1 := texts[0]][n + 2 := texts[1]][n + 3 := texts[2]]
      && Get(f.story.progress, TotalChaptersKey) == VInt(3)
      && Get(f.story.progress, ChaptersWrittenKey) == VInt(n + 3)
      && Get(f.story.progress, OutlineGeneratedKey) == VBool(true)
      && Get(f.story.progress, StatusKey) == Get(s.story.progress, StatusKey)
      && ProgressConsistent(f.story) && ChaptersNumbered(f.story)
      && f.story.elements == s.story.elements && f.story.chapterIndex == s.story.chapterIndex
      && f.shared == s.shared[NovelOutlineKey := OutlineToValue(GeneratedOutline())]
  {
    var story1 := SetTotal(SetProgress(s.story, OutlineGeneratedKey, VBool(true)), 3);
    OutlineProgressKeepsChapters(s.story);
    ThreeChaptersStored(story1, texts[0], texts[1], texts[2]);
  }
}
