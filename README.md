# Multi-agent novel creator: workflow engine model

A Dafny model of the orchestration core of the multi-agent novel creator.

The engine is `CreativeWorkflow.start_workflow`:
1. It seeds a FIFO task queue with an outline job.
2. It takes jobs off the queue until the queue is empty. For each job it looks up the named agent in a fixed registry and runs the agent's `execute_task`.
3. It acts on the result:
   - a completed outline records progress, shares the outline on the collaboration blackboard, and enqueues a character job and one chapter job per outline chapter;
   - a completed chapter is stored in the story state.
4. It saves the story state once, through the storage collaborator.

The two shipped agents are deterministic stubs, so a whole run is computed and proved.

Modules (one per source file):

- `Values` (values.dfy): JSON-like values for Python `Any` data, Python truthiness, `dict.get`, and exceptions as `Outcome.Raised`.
- `TaskQueues` (task_queue.dfy): the `TaskQueue` class, plus a call-sequence semantics that FIFO order is proved over.
- `Collaboration` (collaboration_protocol.dfy): the `CollaborationProtocol` class, i.e. the blackboard and the append-only log.
- `Elements` (story_elements.dfy): the `World`, `Character` and `Plotline` records with their dictionary views and decoders, and the `StoryElements` class with upserts by name.
- `Persistence` (storage.dfy): storage as an in-memory map from file name to saved record.
- `StateManager` (story_state_manager.dfy): the `StoryStateManager` class, proved against pure functions on `ManagerState`, including `Load`.
- `Agents` (agents.dfy): tasks, replies, the outline and chapter agents as functions, and the outline's dictionary form.
- `AgentRegistry` (agent_manager.dfy): the registry with lookup, dispatch and messaging.
- `WorkflowSpec` (workflow_spec.dfy): `Step` (one loop iteration), `RunFrom` (the whole loop, with a termination measure) and the lemmas about them.
- `Workflow` (creative_workflow.dfy): the `CreativeWorkflow` class. Its methods are proved against `Step` and `RunFrom`.

Behaviour the model keeps as the code has it:

- `update_elements` does nothing (src/story/story_state_manager.py:20-29). Characters never enter the state, and a run ends with an empty character map.
- `"character_agent"` is not in the registry (src/agent_manager.py:7-10). Every character job therefore takes the "not found" branch and is dropped.
  - The character follow-up branch (src/workflow/creative_workflow.py:57-70) calls `get_information`, which `CollaborationProtocol` does not define; its lookup method is `get_context`. The model gives that branch the `AttributeError` it would raise. It is unreachable with this registry.
- A completed chapter is stored at `chapters_written + 1`, not at its position in the outline (src/workflow/creative_workflow.py:75).
- `current_chapter_index` and the `status` progress entry are never updated by the workflow.
- The constructors' arities do not match across files:
  - src/workflow/creative_workflow.py:11 passes `llm` to `AgentManager`, whose constructor takes no argument.
  - src/main.py:22 calls `CreativeWorkflow` without `llm`.
  
  The model wires the components the evident way: a registry with no arguments, and a workflow built from a prompt and a storage.
- `load_state` uses `World` without importing it (src/story/story_state_manager.py:61).
  - A record whose story elements contain a world raises `NameError` after resetting the elements.
  - Truthy story elements that are not a dictionary raise `AttributeError`.
- Python exceptions become `Raised`/`Raise` outcomes, which end the run as they propagate out of `start_workflow`:
  - a task without `description`;
  - an untitled outline chapter, when its job is built;
  - a chapter job without `chapter_info`;
  - a progress map without `chapters_written`, as after `load_state` of a record without `overall_progress`;
  - a non-integer `chapters_written`;
  - an untitled chapter, after its text is stored.

## Model

| member | source | states |
|---|---|---|
| Values.Truthy | src/story/story_state_manager.py:55-59 | Python truthiness as `if loaded_state:` and `.get("world")` test it: false exactly for None, False, 0, the empty string, the empty list and the empty dictionary |
| Values.Get | src/story/collaboration_protocol.py:15-17 | `dict.get`: the stored value when the key is present, None otherwise |
| Values.AsInt | src/workflow/creative_workflow.py:75 | the integer `chapters_written + 1` adds to: an int as itself; a bool as 0 or 1; any other value is a TypeError (None) |
| Values.StrList | src/story/story_elements.py:15 | a list of strings is stored as a list of the same length |
| Values.Strs | src/story/story_elements.py:15 | each string of the list becomes one stored element |
| Values.StrsRoundTrip | src/story/story_elements.py:11-16 | reading back a stored list of strings yields the same strings in order (induction) |
| Values.StrListRoundTrip | src/story/story_elements.py:11-16 | a stored string list reads back as the original list |
| Values.NatToString | src/workflow/creative_workflow.py:54 | the decimal rendering of a chapter number is never empty |
| Values.DigitsValue | src/workflow/creative_workflow.py:54 | a single digit denotes its own value (the reader that `NatToStringRoundTrip` reads the rendering back with) |
| Values.NatToStringRoundTrip | src/workflow/creative_workflow.py:54 | the chapter number `f"{i+1}"` is rendered in decimal: digits only, no leading zero, and the digits read back to the number (induction) |
| TaskQueues.TaskQueue.constructor | src/workflow/task_queue.py:7-8 | a new queue is empty |
| TaskQueues.TaskQueue.AddTask | src/workflow/task_queue.py:10-13 | the task is appended at the tail and the earlier tasks are unchanged |
| TaskQueues.TaskQueue.GetNextTask | src/workflow/task_queue.py:15-21 | on a non-empty queue returns the head and leaves the tail; on an empty queue returns None and stays empty |
| TaskQueues.TaskQueue.IsEmpty | src/workflow/task_queue.py:23-25 | true exactly when the size is 0, i.e. nothing is queued |
| TaskQueues.TaskQueue.Size | src/workflow/task_queue.py:27-29 | the number of queued tasks |
| TaskQueues.Apply | src/workflow/task_queue.py:10-21 | an add appends at the tail and returns nothing; a get returns None exactly on an empty queue, which it leaves alone, and otherwise returns the head, which followed by the new queue is the old queue |
| TaskQueues.Run | src/workflow/task_queue.py:10-21 | a sequence of add/get calls yields exactly one result per call |
| TaskQueues.RunIsFifo | src/workflow/task_queue.py:10-21 | under any interleaving of adds and gets, what was handed out followed by what is still queued equals the initial queue followed by the added tasks in add order (FIFO) |
| TaskQueues.SizeCountsAddsAndGets | src/workflow/task_queue.py:10-29 | from empty, the size is the number of adds minus the number of gets that returned a task |
| Collaboration.ProposalEntry | src/story/collaboration_protocol.py:24 | a proposal log entry holds exactly the agent, the change and status "accepted" |
| Collaboration.ResolutionEntry | src/story/collaboration_protocol.py:35 | a resolution log entry holds exactly the conflict and status "resolved" |
| Collaboration.Resolution | src/story/collaboration_protocol.py:36 | the resolution is "accepted_one_proposal" and echoes the conflict details |
| Collaboration.GetAfterShare | src/story/collaboration_protocol.py:10-17 | after sharing `d` under `k`, reading `k` gives `d`, every other key reads as before, and a never-shared key reads None |
| Collaboration.CollaborationProtocol.constructor | src/story/collaboration_protocol.py:6-8 | empty blackboard and empty log |
| Collaboration.CollaborationProtocol.ShareInformation | src/story/collaboration_protocol.py:10-13 | sets the key, overwriting; every other key is unchanged; the log is untouched |
| Collaboration.CollaborationProtocol.GetContext | src/story/collaboration_protocol.py:15-17 | the shared value for the key, or None when it was never shared |
| Collaboration.CollaborationProtocol.ProposeChange | src/story/collaboration_protocol.py:19-25 | always accepts and appends exactly one "accepted" entry; the blackboard is untouched |
| Collaboration.CollaborationProtocol.ResolveConflict | src/story/collaboration_protocol.py:27-36 | appends exactly one "resolved" entry and returns the echoing resolution; the blackboard is untouched |
| Elements.World.ToDict | src/story/story_elements.py:11-16 | the dictionary has exactly the keys name, description, rules |
| Elements.Character.ToDict | src/story/story_elements.py:25-31 | the dictionary has exactly the keys name, description, personality, backstory |
| Elements.Plotline.ToDict | src/story/story_elements.py:39-44 | the dictionary has exactly the keys name, summary, key_events |
| Elements.WorldRoundTrip | src/story/story_elements.py:5-16 | rebuilding a world from its dictionary yields an equal world |
| Elements.CharacterRoundTrip | src/story/story_elements.py:18-31 | rebuilding a character from its dictionary yields an equal character |
| Elements.PlotlineRoundTrip | src/story/story_elements.py:33-44 | rebuilding a plotline from its dictionary yields an equal plotline |
| Elements.CharactersToDict | src/story/story_elements.py:64 | the characters dictionary has exactly the in-memory names, each mapped to that character's dictionary |
| Elements.PlotlinesToDict | src/story/story_elements.py:65 | the plotlines dictionary has exactly the in-memory names, each mapped to that plotline's dictionary |
| Elements.ElementsToDict | src/story/story_elements.py:61-66 | keys world, characters, plotlines; the world is None exactly when absent |
| Elements.CharactersRoundTrip | src/story/story_elements.py:64 | the characters dictionary decodes back to the same character map |
| Elements.PlotlinesRoundTrip | src/story/story_elements.py:65 | the plotlines dictionary decodes back to the same plotline map |
| Elements.ElementsRoundTrip | src/story/story_elements.py:61-66 | the elements dictionary loses nothing: the world, every character and every plotline decode back |
| Elements.StoryElements.constructor | src/story/story_elements.py:47-50 | no world, no characters, no plotlines |
| Elements.StoryElements.AddWorld | src/story/story_elements.py:52-53 | replaces only the world |
| Elements.StoryElements.AddCharacter | src/story/story_elements.py:55-56 | stores the character under its name, replacing a same-named one wholesale; other names keep their entries |
| Elements.StoryElements.AddPlotline | src/story/story_elements.py:58-59 | stores the plotline under its name, replacing a same-named one wholesale; other names keep their entries |
| Elements.KeyedEntriesNamed | src/story/story_elements.py:55-66 | when every character and plotline is filed under its own name, every entry of the characters and plotlines dictionaries is a record whose "name" is its key |
| Elements.StoryElements.ToDict | src/story/story_elements.py:61-66 | the returned dictionary decodes back to exactly the object's content, and for an object kept by `add_character`/`add_plotline` each entry's "name" is its key |
| Persistence.Lookup | src/persistence/file_storage.py:20-29 | the record saved under the name, or None when there is no such file |
| Persistence.FileStorage.constructor | src/persistence/file_storage.py:8-11 | storage over the given files, nothing saved yet |
| Persistence.FileStorage.SaveData | src/persistence/file_storage.py:13-18 | the file now holds the data; other files are unchanged; one more save |
| Persistence.FileStorage.LoadData | src/persistence/file_storage.py:20-29 | returns the saved record, or None for a missing file |
| StateManager.InitialStateConsistent | src/story/story_state_manager.py:9-17 | the initial progress is outline_generated False, chapters_written 0, total_chapters 0, status "initialized", consistent with the empty chapter map |
| StateManager.AddChapter | src/story/story_state_manager.py:31-33 | stores the text at the index and sets chapters_written to the number of stored chapters; every other progress key is unchanged |
| StateManager.ReAddKeepsCount | src/story/story_state_manager.py:32-33 | re-adding an existing index replaces its text and leaves the progress unchanged |
| StateManager.NewChapterCounts | src/story/story_state_manager.py:31-33 | a new index raises chapters_written by one |
| StateManager.NextChapterKeepsNumbering | src/story/story_state_manager.py:31-33 | storing at chapters_written + 1 keeps the chapter keys exactly 1..chapters_written |
| StateManager.SetProgress | src/story/story_state_manager.py:38-39 | only the given progress key changes |
| StateManager.SetTotal | src/story/story_state_manager.py:35-36 | only total_chapters changes |
| StateManager.UpdateOtherKeyKeepsConsistency | src/story/story_state_manager.py:35-39 | updating any key but chapters_written keeps chapters_written equal to the chapter count |
| StateManager.CurrentState | src/story/story_state_manager.py:41-47 | the snapshot holds the elements' dictionary (which decodes back to them), the chapters, the index and the progress |
| StateManager.ToSaved | src/story/story_state_manager.py:49-51 | the saved record carries the snapshot's elements, chapters, index and progress under all four keys, so it is never an empty record |
| StateManager.Load | src/story/story_state_manager.py:53-69 | nothing happens exactly when storage returns nothing or an empty record; any other record resets the elements; it raises exactly when the record's story elements are truthy and either not a dictionary or with a truthy "world", and then only the elements were reset; otherwise chapters, index and progress are the record's, with defaults {}, 0 and {} |
| StateManager.LoadWithoutRecord | src/story/story_state_manager.py:53-69 | with no saved record, or an empty one, loading changes nothing |
| StateManager.LoadWithoutElements | src/story/story_state_manager.py:55-66 | a record without story elements restores chapters, index and progress with defaults {}, 0, {} and resets the elements |
| StateManager.SaveLoadRoundTrip | src/story/story_state_manager.py:49-66 | save then load restores chapters, index and progress and empties the elements; with a world, loading raises NameError after resetting the elements |
| StateManager.StoryStateManager.constructor | src/story/story_state_manager.py:8-18 | empty elements and chapters, index 0, the initial progress, the given storage |
| StateManager.StoryStateManager.UpdateElements | src/story/story_state_manager.py:20-29 | changes nothing, whatever it is given |
| StateManager.StoryStateManager.AddChapterContent | src/story/story_state_manager.py:31-33 | the new state is `AddChapter` of the old |
| StateManager.StoryStateManager.SetTotalChapters | src/story/story_state_manager.py:35-36 | the new state is `SetTotal` of the old |
| StateManager.StoryStateManager.UpdateProgress | src/story/story_state_manager.py:38-39 | the new state is `SetProgress` of the old |
| StateManager.StoryStateManager.GetCurrentState | src/story/story_state_manager.py:41-47 | the snapshot of the current content |
| StateManager.StoryStateManager.SaveState | src/story/story_state_manager.py:49-51 | storage gains the snapshot under the file name, with one save |
| StateManager.StoryStateManager.LoadState | src/story/story_state_manager.py:53-69 | outcome and new content are `Load` of the old content and the stored record |
| Agents.Description | src/agents/outline_agent.py:10 | only the character task lacks a description |
| Agents.ChapterInfoOf | src/agents/chapter_agent.py:11 | the task's chapter info, or an entry with neither title nor summary |
| Agents.GeneratedOutline | src/agents/outline_agent.py:12-20 | exactly three chapters in fixed order, each with a title and a summary |
| Agents.ChapterText | src/agents/chapter_agent.py:13 | the text is the fixed intro, the title (default "未知章节"), the fixed middle, then the summary (default empty) |
| Agents.ChapterTextKeepsTitle | src/agents/chapter_agent.py:13 | given the summary, the title is read back from the chapter text |
| Agents.OutlineExecuteTask | src/agents/outline_agent.py:9-22 | raises KeyError exactly when the task has no description; otherwise completes with the fixed outline |
| Agents.ChapterExecuteTask | src/agents/chapter_agent.py:9-15 | raises KeyError exactly when the task has no description; otherwise completes with the chapter text of the task's chapter info |
| Agents.ExecuteTask | src/agents/base_agent.py:9-12 | any agent raises exactly on a missing description, and otherwise completes, with an outline from the outline agent and a text from the chapter agent |
| Agents.OutlineIgnoresTask | src/agents/outline_agent.py:9-22 | the outline does not depend on the task |
| Agents.ChapterDependsOnlyOnInfo | src/agents/chapter_agent.py:9-15 | the chapter text depends only on the chapter info |
| Agents.OutlineCommunicate | src/agents/outline_agent.py:24-26 | needs "content" (KeyError otherwise) and acknowledges with its fixed response |
| Agents.ChapterCommunicate | src/agents/chapter_agent.py:17-19 | needs "content" (KeyError otherwise) and acknowledges with its fixed response |
| Agents.Communicate | src/agents/base_agent.py:14-17 | any agent raises exactly on a missing "content", and otherwise acknowledges |
| Agents.InfoToValue | src/agents/outline_agent.py:16-18 | a chapter entry has a title key and a summary key exactly when those are present |
| Agents.InfosToValues | src/agents/outline_agent.py:15-19 | one dictionary per chapter |
| Agents.OutlineToValue | src/agents/outline_agent.py:12-20 | the outline dictionary has exactly title, logline, chapters |
| Agents.InfoRoundTrip | src/agents/outline_agent.py:16-18 | a chapter entry decodes back to itself |
| Agents.InfosRoundTrip | src/agents/outline_agent.py:15-19 | the chapter list decodes back to itself, in order (induction) |
| Agents.OutlineRoundTrip | src/workflow/creative_workflow.py:41 | the outline shared on the blackboard decodes back to the outline |
| AgentRegistry.NewAgentManager | src/agent_manager.py:6-10 | exactly "outline_agent" and "chapter_agent" are registered; "character_agent" is absent |
| AgentRegistry.GetAgent | src/agent_manager.py:12-13 | the registered agent, or None for any other name |
| AgentRegistry.NotFound | src/agent_manager.py:20 | the error reply "Agent <name> not found." |
| AgentRegistry.DispatchTask | src/agent_manager.py:15-20 | an unknown name yields the not-found error without running an agent; a known name yields that agent's result unchanged |
| AgentRegistry.SendMessage | src/agent_manager.py:22-27 | an unknown name yields the not-found error; a known name yields that agent's `communicate` result unchanged |
| AgentRegistry.DispatchOutcomes | src/agent_manager.py:6-20 | with the shipped registry, a described task sent to a registered id completes, an undescribed one raises, and any other id is an error reply |
| AgentRegistry.CharacterTasksNotFound | src/agent_manager.py:6-20 | dispatching to "character_agent" always yields the not-found error |
| WorkflowSpec.OutlineJob | src/workflow/creative_workflow.py:23-24 | the seed job is an outline task addressed to "outline_agent" |
| WorkflowSpec.CharacterJob | src/workflow/creative_workflow.py:46-47 | the character job is a character task addressed to "character_agent" |
| WorkflowSpec.ChapterJob | src/workflow/creative_workflow.py:54-55 | a chapter job is a chapter task addressed to "chapter_agent" carrying the chapter info |
| WorkflowSpec.ChapterJobs | src/workflow/creative_workflow.py:53-55 | one chapter job per outline chapter, in outline order |
| WorkflowSpec.OutlineStage | src/workflow/creative_workflow.py:37-55 | the outline follow-up completes exactly when every outline chapter has a title, and otherwise raises the KeyError for the missing title |
| WorkflowSpec.OutlineStageAppends | src/workflow/creative_workflow.py:39-55 | a completed outline follow-up keeps the queued jobs in front, adds the character job for the prompt and outline and then `ChapterJob(i, chapters[i])` for each chapter in outline order behind them, sets outline_generated True and total_chapters to the chapter count, shares the outline under "novel_outline", and leaves chapters and elements alone |
| WorkflowSpec.ChapterStage | src/workflow/creative_workflow.py:72-77 | the chapter follow-up completes exactly when the task has chapter info with a title and chapters_written is present and integer-like; then the text is stored at chapters_written + 1 and queue, blackboard and elements are unchanged |
| WorkflowSpec.Step | src/workflow/creative_workflow.py:27-82 | an iteration raises only for the outline or chapter agent; any job but an outline job leaves the queue and blackboard as they were |
| WorkflowSpec.RunFrom | src/workflow/creative_workflow.py:26-82 | the loop either raises or stops with the queue empty |
| WorkflowSpec.StepQueueEffect | src/workflow/creative_workflow.py:26-82 | only an outline job enqueues anything, and no iteration enqueues an outline job (termination) |
| WorkflowSpec.RunFromUnfold | src/workflow/creative_workflow.py:26-35 | a run on a non-empty queue is one iteration on the head followed by the run from there |
| WorkflowSpec.NotFoundOnlyLogs | src/workflow/creative_workflow.py:79-82 | a job for an unregistered id changes nothing: no retry, no re-enqueue |
| WorkflowSpec.CharacterJobNeverRuns | src/workflow/creative_workflow.py:33-82 | a character job is always dropped as not found |
| WorkflowSpec.OutlineStepShape | src/workflow/creative_workflow.py:37-55 | a completed outline sets outline_generated and total_chapters 3, shares the outline, and enqueues the character job then the three chapter jobs in outline order |
| WorkflowSpec.ChapterStepStoresNext | src/workflow/creative_workflow.py:72-77 | a completed chapter job stores its text at chapters_written + 1, whatever its outline position |
| WorkflowSpec.StepPreservesConsistency | src/workflow/creative_workflow.py:26-82 | every iteration keeps chapters_written equal to the chapter count and the chapter keys exactly 1..chapters_written |
| WorkflowSpec.Seeded | src/workflow/creative_workflow.py:23-24 | seeding appends the outline job and changes nothing else |
| WorkflowSpec.Texts | src/agents/chapter_agent.py:13 | the three chapter texts of the outline, in outline order |
| WorkflowSpec.ChapterJobAdvances | src/workflow/creative_workflow.py:72-77 | a chapter job at the head is replaced by storing its text at the next number |
| WorkflowSpec.OutlineJobAdvances | src/workflow/creative_workflow.py:37-55 | an outline job at the head is replaced by the outline stage's jobs and progress |
| WorkflowSpec.NotFoundJobDropped | src/workflow/creative_workflow.py:79-82 | a job for an unregistered id at the head is dropped |
| WorkflowSpec.ChapterJobsRun | src/workflow/creative_workflow.py:26-77 | three chapter jobs store their texts, in queue order, at the next three numbers |
| WorkflowSpec.OutlineAndCharacterJobsRun | src/workflow/creative_workflow.py:23-82 | from an empty queue, the seeded outline job and the character job it enqueues leave exactly the three chapter jobs, the outline progress and the shared outline |
| WorkflowSpec.QueuedChaptersRun | src/workflow/creative_workflow.py:26-77 | the three queued chapter jobs store the outline's chapter texts and the run ends in the finished state |
| WorkflowSpec.CompleteRun | src/workflow/creative_workflow.py:18-82 | from an empty queue with consistent progress, the run never raises and ends in the finished state |
| WorkflowSpec.OutlineProgressKeepsChapters | src/workflow/creative_workflow.py:39-40 | marking the outline generated and setting the total to 3 leaves the chapters and their bookkeeping intact |
| WorkflowSpec.ThreeChaptersStored | src/story/story_state_manager.py:31-33 | three writes at the next three numbers store the texts there, count three more chapters, keep the numbering, and leave the other progress keys as they were |
| WorkflowSpec.FinishedState | src/workflow/creative_workflow.py:26-82 | the finished state has an empty queue, the three texts at the next three numbers, total_chapters 3, chapters_written up by 3, outline_generated True, status unchanged, the shared outline, and unchanged elements |
| Workflow.CreativeWorkflow.constructor | src/workflow/creative_workflow.py:10-16 | the shipped registry, a new state manager over the storage, an empty blackboard and an empty queue |
| Workflow.CreativeWorkflow.ProcessJob | src/workflow/creative_workflow.py:27-82 | one loop iteration does exactly what `Step` says, raising exactly when `Step` raises |
| Workflow.CreativeWorkflow.OutlineCompleted | src/workflow/creative_workflow.py:37-55 | the outline branch does exactly what `OutlineStage` says |
| Workflow.CreativeWorkflow.ChapterCompleted | src/workflow/creative_workflow.py:72-77 | the chapter branch does exactly what `ChapterStage` says |
| Workflow.CreativeWorkflow.RunQueue | src/workflow/creative_workflow.py:26-82 | the loop ends in the state `RunFrom` computes, or raises what it raises |
| Workflow.CreativeWorkflow.SeedAndRun | src/workflow/creative_workflow.py:18-82 | seeding and running the loop from a valid state never raises and ends in the finished state |
| Workflow.CreativeWorkflow.StartWorkflow | src/workflow/creative_workflow.py:18-86 | seeds, runs and ends in the finished state without raising, with the queue empty, then saves the state exactly once under "story_state.json" |
| Workflow.StartNovel | src/main.py:16-23 | a new workflow run to completion has chapters 1..3 holding the outline's chapter texts in order, 3 of 3 chapters written, the outline marked generated, status still "initialized", chapter index still 0, no characters, and the state saved |

## Left out

- src/main.py: the command-line presentation is left out. Only the wiring of the `start` command is modelled, as `Workflow.StartNovel`.
- src/llm_client.py: a network client; no shipped agent calls it.
- src/agents/character_agent.py: its behaviour is an LLM call followed by JSON decoding. It is also never registered, so the workflow cannot reach it.
- src/agents/base_agent.py: an abstract interface. It is modelled as the `Agent` datatype, with `ExecuteTask`/`Communicate` dispatching on the agent's class.
- src/persistence/file_storage.py: directories and JSON encoding are left out. Storage is a map from file name to record. Real JSON turns the integer chapter keys into strings, so the save/load round trip holds only for this in-memory storage.
- All `print` logging, and the `llm` constructor parameters.
- Persistence.SavedState: a saved record holds only the four snapshot keys. A record read back with other keys is not represented.
- Workflow.CreativeWorkflow.ProcessJob: when an iteration raises, the contract says only which exception is raised, not the partly updated state. In the source that state is abandoned, because the exception ends the run.
- StateManager.StoryStateManager.GetCurrentState: the returned dictionaries are copies. The source returns the live `chapters_content` and `overall_progress` objects, and that aliasing is not modelled.
- Agents.Task: task and reply dictionaries are typed. Each task carries exactly the keys the workflow builds. The `characters` entry of chapter tasks built by the unreachable character branch is not represented.
- Workflow.CreativeWorkflow.StartWorkflow: it requires an empty queue and consistent chapter bookkeeping. Every object the constructor returns satisfies both, and so does every object after a run.
- Workflow.CreativeWorkflow.RunQueue: the dispatch loop is a separate method, so that its contract can be stated on its own. `OutlineCompleted` and `ChapterCompleted` are separate for the same reason.
