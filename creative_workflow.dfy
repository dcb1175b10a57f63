/**
 * The orchestrator (src/workflow/creative_workflow.py). `ProcessJob` is one
 * iteration of the dispatch loop and is proved against `Step`;
 * `StartWorkflow` seeds the outline job, drains the queue and saves, and is
 * proved against `RunFrom` and, from there, against the finished state.
 */
module Workflow {
  import opened Values
  import opened Agents
  import opened AgentRegistry
  import opened Collaboration
  import opened Persistence
  import opened StateManager
  import TaskQueues
  import opened WorkflowSpec

  class CreativeWorkflow {
    const agentManager: AgentManager
    const storyStateManager: StoryStateManager
    const collaborationProtocol: CollaborationProtocol
    const taskQueue: TaskQueues.TaskQueue<Job>
    const initialPrompt: string
    const storage: FileStorage

    /** The state the dispatch loop works on. */
    function Abs(): WState
      reads taskQueue, storyStateManager, storyStateManager.currentStoryElements, collaborationProtocol
    {
      WState(taskQueue.queue, storyStateManager.Abs(), collaborationProtocol.sharedContext)
    }

    /** The collaborators are wired as the constructor wires them. */
    predicate Wired() {
      agentManager == NewAgentManager() && storyStateManager.storage == storage
    }

    /** Between runs: nothing queued, and the chapter bookkeeping consistent. */
    ghost predicate Valid()
      reads taskQueue, storyStateManager, storyStateManager.currentStoryElements
    {
      && Wired()
      && taskQueue.queue == []
      && storyStateManager.Valid()
      && ProgressConsistent(storyStateManager.Abs())
      && ChaptersNumbered(storyStateManager.Abs())
    }

    constructor (initialPrompt: string, storage: FileStorage)
      ensures Valid()
      ensures fresh(taskQueue) && fresh(storyStateManager) && fresh(storyStateManager.currentStoryElements)
      ensures fresh(collaborationProtocol)
      ensures this.initialPrompt == initialPrompt && this.storage == storage
      ensures Abs() == WState([], InitialState, map[])
    {
      agentManager := NewAgentManager();
      storyStateManager := new StoryStateManager(storage);
      collaborationProtocol := new CollaborationProtocol();
      taskQueue := new TaskQueues.TaskQueue<Job>();
      this.initialPrompt := initialPrompt;
      this.storage := storage;
      InitialStateConsistent();
    }

    /** One iteration of the dispatch loop, on a job already taken off the queue. */
    method ProcessJob(job: Job) returns (raised: Option<string>)
      requires Wired()
      modifies taskQueue, storyStateManager`chaptersContent, storyStateManager`overallProgress
      modifies collaborationProtocol`sharedContext
      ensures Step(old(Abs()), job, initialPrompt) == if raised.None? then Continue(Abs()) else Raise(raised.value)
    {
      var agent := GetAgent(agentManager, job.agent);
      if agent.None? {
        // The agent is not found: only logged.
        return None;
      }
      var result := ExecuteTask(agent.value, job.task);
      if result.Raised? {
        return Some(result.exception);
      }
      var reply := result.value;
      if !reply.Completed? {
        // The task failed: only logged.
        return None;
      }
      if job.agent == OutlineAgentId {
        raised := OutlineCompleted(reply.payload.outline);
      } else if job.agent == CharacterAgentId {
        // `update_elements` changes nothing; the next call names a method the
        // collaboration protocol does not have.
        raised := Some(MissingGetInformation);
      } else if job.agent == ChapterAgentId {
        raised := ChapterCompleted(job.task, reply.payload.text);
      } else {
        raised := None;
      }
    }

    /** The outline branch of the loop body. */
    method OutlineCompleted(outline: Outline) returns (raised: Option<string>)
      modifies taskQueue, storyStateManager`overallProgress, collaborationProtocol`sharedContext
      ensures OutlineStage(old(Abs()), outline, initialPrompt) == if raised.None? then Continue(Abs()) else Raise(raised.value)
    {
      storyStateManager.UpdateProgress(OutlineGeneratedKey, VBool(true));
      storyStateManager.SetTotalChapters(|outline.chapters|);
      collaborationProtocol.ShareInformation(OutlineSharer, NovelOutlineKey, OutlineToValue(outline));
      taskQueue.AddTask(CharacterJob(initialPrompt, outline));
      ghost var queued := taskQueue.queue;
      for i := 0 to |outline.chapters|
        invariant AllTitled(outline.chapters[..i])
        invariant taskQueue.queue == queued + ChapterJobs(outline.chapters[..i])
        modifies taskQueue
      {
        var chapterInfo := outline.chapters[i];
        if chapterInfo.title.None? {
          return Some(MissingTitle);
        }
        assert outline.chapters[..i + 1] == outline.chapters[..i] + [chapterInfo];
        taskQueue.AddTask(ChapterJob(i, chapterInfo));
      }
      assert outline.chapters[..|outline.chapters|] == outline.chapters;
      raised := None;
    }

    /** The chapter branch of the loop body. */
    method ChapterCompleted(task: Task, chapterContent: string) returns (raised: Option<string>)
      modifies storyStateManager`chaptersContent, storyStateManager`overallProgress
      ensures ChapterStage(old(Abs()), task, chapterContent) == if raised.None? then Continue(Abs()) else Raise(raised.value)
    {
      if !task.ChapterTask? {
        return Some(MissingChapterInfo);
      }
      var chapterInfo := task.chapterInfo;
      if ChaptersWrittenKey !in storyStateManager.overallProgress {
        return Some(MissingChaptersWritten);
      }
      var written := AsInt(storyStateManager.overallProgress[ChaptersWrittenKey]);
      if written.None? {
        return Some(NotAnInteger);
      }
      storyStateManager.AddChapterContent(written.value + 1, chapterContent);
      if chapterInfo.title.None? {
        return Some(MissingTitle);
      }
      raised := None;
    }

    /** The dispatch loop: runs jobs until the queue is empty or one raises. */
    method RunQueue() returns (raised: Option<string>)
      requires Wired()
      modifies taskQueue, storyStateManager`chaptersContent, storyStateManager`overallProgress
      modifies collaborationProtocol`sharedContext
      ensures RunFrom(old(Abs()), initialPrompt) == if raised.None? then Continue(Abs()) else Raise(raised.value)
    {
      ghost var run := RunFrom(Abs(), initialPrompt);
      raised := None;
      while !taskQueue.IsEmpty()
        invariant raised.None?
        invariant RunFrom(Abs(), initialPrompt) == run
        decreases OutlineCount(taskQueue.queue), |taskQueue.queue|
      {
        ghost var before := Abs();
        var currentJob := taskQueue.GetNextTask();
        if currentJob.None? {
          continue;
        }
        raised := ProcessJob(currentJob.value);
        if raised.Some? {
          break;
        }
        StepQueueEffect(before.(queue := before.queue[1..]), currentJob.value, initialPrompt);
      }
    }

    /**
     * `start_workflow` up to the save: seeds the outline job and runs the loop.
     * From a valid state it never raises, and it ends in the finished state
     * (`CompleteRun` states that this is where `RunFrom` ends).
     */
    method SeedAndRun() returns (raised: Option<string>)
      requires Valid()
      modifies taskQueue, storyStateManager`chaptersContent, storyStateManager`overallProgress
      modifies collaborationProtocol`sharedContext
      ensures raised.None? && Valid()
      ensures Abs() == Finished(old(Abs()), Texts())
    {
      taskQueue.AddTask(OutlineJob(initialPrompt));
      raised := RunQueue();
      CompleteRun(old(Abs()), initialPrompt);
      FinishedState(old(Abs()), Texts());
    }

    /**
     * `start_workflow`: seeds the outline job, runs the loop, then saves the state
     * once under the default file name. From a valid state it never raises, and
     * the state it ends in holds the three chapter texts.
     */
    method StartWorkflow() returns (raised: Option<string>)
      requires Valid()
      modifies taskQueue, storyStateManager`chaptersContent, storyStateManager`overallProgress
      modifies collaborationProtocol`sharedContext, storage
      ensures RunFrom(Seeded(old(Abs()), initialPrompt), initialPrompt)
        == if raised.None? then Continue(Abs()) else Raise(raised.value)
      ensures raised.None? && Valid()
      ensures Abs() == Finished(old(Abs()), Texts())
      ensures storage.files == old(storage.files)[DefaultStateFile := ToSaved(CurrentState(Abs().story))]
      ensures storage.saveCount == old(storage.saveCount) + 1
    {
      raised := SeedAndRun();
      ghost var finished := Abs();
      storyStateManager.SaveState(DefaultStateFile);
      assert Abs() == finished;
      CompleteRun(old(Abs()), initialPrompt);
    }
  }

  /**
   * The `start` command's wiring: a new workflow over the given storage, run to
   * completion. Chapters 1 to 3 hold the outline's chapter texts in order, the
   * counters say 3 of 3, no character was stored, and the state was saved. The
   * status entry and the current chapter index keep their initial values.
   */
  method StartNovel(prompt: string, storage: FileStorage) returns (workflow: CreativeWorkflow)
    modifies storage
    ensures fresh(workflow) && workflow.storage == storage && workflow.Valid()
    ensures workflow.storyStateManager.chaptersContent == map[1 := Texts()[0], 2 := Texts()[1], 3 := Texts()[2]]
    ensures Get(workflow.storyStateManager.overallProgress, ChaptersWrittenKey) == VInt(3)
    ensures Get(workflow.storyStateManager.overallProgress, TotalChaptersKey) == VInt(3)
    ensures Get(workflow.storyStateManager.overallProgress, OutlineGeneratedKey) == VBool(true)
    ensures Get(workflow.storyStateManager.overallProgress, StatusKey) == VStr("initialized")
    ensures workflow.storyStateManager.currentChapterIndex == 0
    ensures workflow.storyStateManager.currentStoryElements.characters == map[]
    ensures storage.files == old(storage.files)[DefaultStateFile := ToSaved(CurrentState(workflow.storyStateManager.Abs()))]
  {
    workflow := new CreativeWorkflow(prompt, storage);
    var raised := workflow.StartWorkflow();
    FinishedState(WState([], InitialState, map[]), Texts());
  }
}
