# BlogSEO agent pipeline — a Dafny model

This project models the deterministic core of the BlogSEO multi-agent content
generator:

- the orchestrator that loads the fixed 21-step agent sequence and threads one
  state dictionary through it, failing fast on the first error;
- the callback dispatchers of the enhanced orchestrator;
- the rate limiter, the retry decorator and the client registry;
- the content data model (images, SEO metadata, sections, blog posts) with its
  Markdown, HTML and meta-tag renderers, word counts, reading time and
  validators;
- the agent-output validator, the JSON extraction of LLM replies and the one
  deterministic agent (`UserInputAgent`);
- the exporters (file names, the post dictionary, WordPress XML, bundles and
  batches, WordPress and Medium templates);
- the formatting helpers and the session bookkeeping of the Streamlit app.

Python values are modelled by `Values.Value`: strings, integers, floats,
booleans, None, lists, dictionaries and opaque objects. A dictionary is an
ordered list of entries, so key order is part of the model. Python's error
messages are those of CPython 3.11. Three things the code relies on but
does not define become function parameters:

- `str()` of non-strings (`repr`);
- `json.dumps`/`json.loads` (`dumps`, `loads`);
- the clock (`clock`, `timestamp`, `date` parameters).

Agent behaviour is a parameter `behave`. Resolving an agent path to a class is
a parameter `resolve` that may fail. A callback's exception is a parameter
`raises`.

Files:

| file | module(s) | models |
|---|---|---|
| values.dfy | `Values` | dictionaries, lists, `dict.get`, `.copy()`, `len`, `str` of numbers |
| text.dfy | `Text` | `str.split`, `strip`, `find`, `rfind`, `join`, `lower`, `replace` |
| seqs.dfy | `Sequences` | concatenation of lists built in loops; first-error collection |
| orchestrator.dfy | `Pipeline` | orchestrator/orchestrator.py |
| pipeline_properties.dfy | `PipelineProperties`, `RunProperties` | what `run` guarantees |
| enhanced.dfy | `Callbacks` | orchestrator/enhanced_orchestrator.py |
| api_clients.dfy | `RateLimiting`, `Retrying`, `Clients` | utilities/api_clients.py |
| models.dfy | `Models` | utilities/models.py |
| validators.dfy | `OutputValidation` | utilities/validators.py |
| base_agent.dfy | `AgentBase` | agents/base_agent.py |
| user_input.dfy | `UserInput` | agents/user_input.py |
| exporters.dfy | `Exporters` | utilities/exporters.py |
| advanced_exporters.dfy | `AdvancedExporters` | utilities/advanced_exporters.py |
| app_helpers.dfy | `AppHelpers` | the helpers of app.py |

`Orchestrator.Run` is a loop proved against the recursive specification
`RunSpec`. The lemmas in `pipeline_properties.dfy` prove what `run` promises
about `RunSpec`:

- order and fail-fast;
- replacement of the state rather than a merge;
- progress reports;
- snapshots.

### Where the code and the design description differ

The model follows the code in each case.

- **Observer exceptions.** The design description says an exception raised by
  the progress observer is swallowed. In `run`, the `ui_callback` calls at
  orchestrator/orchestrator.py:114, 122 and 149 sit outside any `try`.
  - The call at line 141 sits in the `except` handler, so its exception also
    leaves `run`.
  - An exception from the call at line 122 is raised before the step's `try`,
    so it escapes too.
  - The model has the outcome `ObserverRaised`.
- **Shape of the result.** The description has a result record with
  `completed`/`failed` lists and a status. The code returns the last state on
  success and `{"error": ..., "final_state": ...}` on failure.
  - Each step's output replaces the state (line 127); nothing is merged.
- **Empty topic.** The description says an empty topic is rejected. The code
  does no validation: an empty topic runs like any other.
- **The enhanced orchestrator's calls do not match `run`.** The enhanced
  orchestrator and app.py import an `AgentState` record that
  orchestrator/orchestrator.py does not define. They call
  `run(topic, ui_callbacks=...)` with a two-argument callback, but `run` takes
  `ui_callback` and calls it with one dictionary.
  - The callbacks of enhanced_orchestrator.py and `update_callback` of app.py
    are therefore modelled as stand-alone functions of `(progress, state_dict)`.

## Model

| member | source | states |
|---|---|---|
| Pipeline.SplitLast | orchestrator/orchestrator.py:59 | `rsplit(".", 1)` fails exactly when there is no dot; otherwise the path is module + "." + class name, and the class name has no dot |
| Pipeline.SplitLastOf | orchestrator/orchestrator.py:59 | splitting `m + "." + c` for a dot-free class name gives back `(m, c)` |
| Pipeline.AgentSequenceStart | orchestrator/orchestrator.py:20-42 | the sequence has 21 entries; the first is `agents.user_input.UserInputAgent` |
| Pipeline.LoadAgent | orchestrator/orchestrator.py:58-70 | a loaded entry keeps its path, is named by the suffix after the last dot and holds what resolving the module and class gave; a failure is "Cannot load agent <path>: ..." |
| Pipeline.LoadAgents | orchestrator/orchestrator.py:54-71 | succeeds iff every path loads; the result has the same length and order as the paths; otherwise the error is that of the first path that fails |
| Pipeline.NewOrchestrator | orchestrator/orchestrator.py:47-52 | the cache directory is the given one or "cache"; construction yields one loaded agent per sequence entry, in order, and fails exactly when some entry cannot be loaded |
| Pipeline.Orchestrator.constructor | orchestrator/orchestrator.py:48-52 | keeps the cache directory and the loaded agents |
| Pipeline.Loggable | orchestrator/orchestrator.py:80-88 | the snapshot copy has the state's keys in order; serialisable values are kept and others become their `str`; the copy is serialisable |
| Pipeline.Orchestrator.LogState | orchestrator/orchestrator.py:73-93 | returns the snapshot `_log_state` writes, or none when reading the topic fails (the failure is swallowed) |
| Pipeline.TryAgent | orchestrator/orchestrator.py:124-131 | the agent's constructor runs first, and its exception fails the step with the state kept; the agent runs iff it was built and the state has a `.copy()`; a missing `.copy()` fails the step with the state kept; when the agent runs, the attempt is the step's outcome |
| Pipeline.Orchestrator.Run | orchestrator/orchestrator.py:95-151 | the run's outcome, agent calls, reports and snapshots equal the recursive specification `RunSpec` |
| Pipeline.Orchestrator.RunAgent | orchestrator/orchestrator.py:116-143 | one loop iteration: it either stops with the rest of `RunSpec` or continues with the next state, leaving the overall execution unchanged |
| Pipeline.ContinueTwice | orchestrator/orchestrator.py:116-151 | appending two iterations' calls, reports and snapshots equals appending them at once |
| Pipeline.RunFromHalted | orchestrator/orchestrator.py:121-122 | an observer raising on the "Running" report ends the run with that exception before the agent runs |
| Pipeline.RunFromUnbuilt | orchestrator/orchestrator.py:124-143 | a constructor that raises fails the step before the copy and without calling the agent; the final state is the current state |
| Pipeline.RunFromNoCopy | orchestrator/orchestrator.py:126-143 | once the agent is built, a state without `.copy()` fails the step without calling the agent; the final state is that state |
| Pipeline.RunFromFailed | orchestrator/orchestrator.py:127-143 | a failed step ends the run after one call, with the step's reason and final state |
| Pipeline.RunFromPassed | orchestrator/orchestrator.py:127-134 | a passing step records the call, the report and its snapshot, then continues with the step's output |
| PipelineProperties.CallsShapeStep | orchestrator/orchestrator.py:116-134 | the invariant on the calls carries over one passing step |
| PipelineProperties.RunFromCalls | orchestrator/orchestrator.py:116-134 | agents are invoked in sequence order from the given one, each once; the first receives the given state and each next one exactly the previous output |
| PipelineProperties.AbortShapeStep | orchestrator/orchestrator.py:127-143 | the abort invariant carries over one passing step |
| PipelineProperties.RunFromAborted | orchestrator/orchestrator.py:130-143 | an aborted run stopped at its last call with "Agent '<name>' failed: ..." and that step's final state; with an observer its last report is the failing agent's error report |
| PipelineProperties.FinishShapeStep | orchestrator/orchestrator.py:145-151 | the finish invariant carries over one passing step |
| PipelineProperties.RunFromFinished | orchestrator/orchestrator.py:145-151 | a finished run called every remaining agent and returns the last output (the given state when none remain) |
| PipelineProperties.ObserverShapeStep | orchestrator/orchestrator.py:113-149 | the observer invariant carries over one passing step |
| PipelineProperties.RunFromObserver | orchestrator/orchestrator.py:113-149 | without an observer nothing is reported; an escaping exception is the observer's on its last report; only the last report can carry the error flag |
| PipelineProperties.ConsProgressing | orchestrator/orchestrator.py:114-149 | a report at or below the next ones keeps the progress non-decreasing |
| PipelineProperties.Fractions | orchestrator/orchestrator.py:122-141 | `i/n <= (i+1)/n`, both within [0,1] |
| PipelineProperties.ProgressStep | orchestrator/orchestrator.py:122-141 | monotone progress carries over one passing step |
| PipelineProperties.RunFromProgress | orchestrator/orchestrator.py:114-149 | reported progress never decreases and stays between i/n and 1 |
| PipelineProperties.AnnouncedStep | orchestrator/orchestrator.py:121-122 | the announcement invariant carries over one passing step |
| PipelineProperties.AnnouncedContinue | orchestrator/orchestrator.py:121-122 | the "Running" report of step i followed by the later reports announces step i + k before its call k |
| PipelineProperties.RunFromAnnounced | orchestrator/orchestrator.py:121-122 | with an observer, every invoked agent was announced first, in order |
| PipelineProperties.RunFromSnapshots | orchestrator/orchestrator.py:130-133 | snapshots are written exactly for the calls that passed, in order |
| PipelineProperties.RunSpecStarted | orchestrator/orchestrator.py:108-114 | the run starts from `{"topic": topic}` after the start report |
| PipelineProperties.RunSpecCalls | orchestrator/orchestrator.py:108-127 | the first agent receives exactly `{"topic": topic}`; each later one the previous output |
| PipelineProperties.RunSpecAborted | orchestrator/orchestrator.py:130-143 | the abort shape for a whole run |
| PipelineProperties.RunSpecFinished | orchestrator/orchestrator.py:145-151 | the finish shape for a whole run |
| PipelineProperties.RunSpecObserver | orchestrator/orchestrator.py:113-149 | the observer shape for a whole run; the first report is the start report |
| PipelineProperties.RunSpecProgress | orchestrator/orchestrator.py:114-149 | progress starts at 0, never decreases and stays at most 1 |
| PipelineProperties.DoneZero | orchestrator/orchestrator.py:114 | progress before any step is 0 |
| PipelineProperties.Announcements | orchestrator/orchestrator.py:122 | one "Running" report per announced agent |
| PipelineProperties.AnnouncedShift | orchestrator/orchestrator.py:114-122 | after the start report, the announcements come in call order |
| PipelineProperties.RunSpecAnnounced | orchestrator/orchestrator.py:114-122 | the start report is followed by the announcement of each invoked agent |
| PipelineProperties.RunSpecSnapshots | orchestrator/orchestrator.py:130-133 | a whole run writes snapshots only after passing steps |
| RunProperties.AgentStepCases | orchestrator/orchestrator.py:126-131 | a step passes iff the agent returned a value without an `'error'` key; raising keeps the input as final state; an error dictionary becomes the final state with its `str` as reason |
| RunProperties.PlanForAt | orchestrator/orchestrator.py:116-133 | the plan's step i is agent i's step and its log is the snapshot of agent i |
| RunProperties.RunInvokesInOrder | orchestrator/orchestrator.py:108-127 | agents are called in sequence order, each at most once; the first gets `{"topic": topic}` and each later one exactly what the previous returned |
| RunProperties.RunFailsFast | orchestrator/orchestrator.py:127-143 | an error record follows the last agent invoked, with no agent after it: the agent raised (the state stays its input), returned an `'error'` dict (which becomes the final state), or returned a non-container whose copy failed; with an observer, the last report has progress (j+1)/n for the failing agent j, the status "ERROR in <name>: <reason>" and the error flag |
| RunProperties.RunFinishes | orchestrator/orchestrator.py:145-151 | a finished run invoked every agent and returns the last agent's output (the initial state when there are none); the last report is the completion report |
| RunProperties.RunObserver | orchestrator/orchestrator.py:113-149 | the observer hears the start report first; an exception leaves `run` only from the observer |
| RunProperties.AnnouncementsOf | orchestrator/orchestrator.py:122 | one announcement per agent, at position i/n |
| RunProperties.RunProgress | orchestrator/orchestrator.py:114-149 | progress is non-decreasing within [0,1]; the start report is followed by the i/n announcement of each invoked agent |
| RunProperties.RunSnapshots | orchestrator/orchestrator.py:130-133 | snapshots are written after each passing agent only, in order |
| RunProperties.SnapshotContents | orchestrator/orchestrator.py:76-88 | a snapshot is written iff the state is a dict whose topic (if any) is a string; its name is topic-with-underscores `_` agent `_` timestamp `.json` and it holds the loggable copy |
| RunProperties.RunFromCompletes | orchestrator/orchestrator.py:116-151 | if every step passes and the observer never raises, the run calls every agent and finishes |
| RunProperties.RunCompletes | orchestrator/orchestrator.py:116-151 | with agents that always return error-free dictionaries and a quiet observer, the whole run finishes after one call per agent |
| Callbacks.WithAgentCallbackSpec | orchestrator/enhanced_orchestrator.py:54-56 | `add_agent_callback` creates the list if absent and appends; other agents' lists are unchanged |
| Callbacks.EnhancedOrchestrator.constructor | orchestrator/enhanced_orchestrator.py:21-26 | all three registries start empty |
| Callbacks.EnhancedOrchestrator.AddProgressCallback | orchestrator/enhanced_orchestrator.py:28-35 | appends to the progress callbacks; the other registries are unchanged |
| Callbacks.EnhancedOrchestrator.AddStateCallback | orchestrator/enhanced_orchestrator.py:37-44 | appends to the state callbacks; the other registries are unchanged |
| Callbacks.EnhancedOrchestrator.AddAgentCallback | orchestrator/enhanced_orchestrator.py:46-56 | updates the agent registry as `WithAgentCallback`; the other registries are unchanged |
| Callbacks.FiredAppend | orchestrator/enhanced_orchestrator.py:99-143 | the callbacks fired by two event runs are those of each, in order |
| Callbacks.FiredGuarded | orchestrator/enhanced_orchestrator.py:101-111 | a guarded call fires its callback exactly once, whatever it raises |
| Callbacks.FiredFires | orchestrator/enhanced_orchestrator.py:100-111 | a guarded call under a condition fires exactly when the condition holds |
| Callbacks.ReadState | orchestrator/enhanced_orchestrator.py:92-97 | reading `state` and `len(completed_agents)` succeeds iff the state is a dict and the list has a length; the index is that length |
| Callbacks.UnifiedEvents | orchestrator/enhanced_orchestrator.py:99-143 | the unified callback's events are the progress, state and agent-lambda events, in that order |
| Callbacks.UnifiedCallsFired | orchestrator/enhanced_orchestrator.py:99-143 | whatever the lambdas raise, the lambdas fired are the progress, state and agent lambdas due, in that order |
| Callbacks.UnifiedCallsFire | orchestrator/enhanced_orchestrator.py:99-143 | the lambdas fired are: the progress lambda, with the completed count, iff the current agent is non-empty; the state lambda iff registered; the current agent's lambda iff it has one and an entry in the outputs, receiving that entry. An exception escapes iff agent lambdas are registered and the current agent is unhashable |
| Callbacks.AgentLambdaFired | orchestrator/enhanced_orchestrator.py:127-143 | the agent lambda fires exactly when the outputs hold the current agent, and receives its entry |
| Callbacks.UnifiedCallbackSpec | orchestrator/enhanced_orchestrator.py:91-143 | an exception leaves `unified_callback` only from reading the state or an unhashable lookup, never from a lambda |
| Callbacks.CompleteFired | orchestrator/enhanced_orchestrator.py:185-191 | `on_agent_complete` fires when the outputs can be looked up, with the current agent's output (`{}` when absent) |
| Callbacks.WrapperCallsFire | orchestrator/enhanced_orchestrator.py:177-198 | `on_agent_start` fires iff the message starts with "Running", with position completed+1 of the agent count; `on_agent_complete` iff it starts with "Completed" and the outputs can be looked up; `on_progress` iff completed is a multiple of a non-zero interval. An exception escapes iff `on_progress` is set and the interval is 0 |
| Callbacks.CallbackWrapperSpec | orchestrator/enhanced_orchestrator.py:171-198 | an exception leaves `callback_wrapper` only from reading the state, a non-string message or a zero interval, never from a callback |
| Callbacks.ChainedCallback | orchestrator/enhanced_orchestrator.py:261-266 | the loop produces the chain's events |
| Callbacks.ChainCallsEach | orchestrator/enhanced_orchestrator.py:246-268 | every callback is called exactly once per invocation, in order, whatever earlier ones raise |
| Callbacks.StreamlitAgentNameIsClassName | orchestrator/enhanced_orchestrator.py:237-238 | `split(".")[-1]` is the class name that `rsplit(".", 1)` gives |
| Callbacks.StreamlitProgress | orchestrator/enhanced_orchestrator.py:222-225 | the bar value is (i+1)/len(AGENT_SEQUENCE), positive and at most 1 for an index inside the sequence; the status is "Processing: <agent> (<i+1>/<len>)" |
| Callbacks.StreamlitStatusReadsBack | orchestrator/enhanced_orchestrator.py:222-225 | between the parentheses the status reads back as the 1-based step, '/', and the number of agents; the bar value times that number is the step |
| Callbacks.CounterText | orchestrator/enhanced_orchestrator.py:225 | a prefix followed by "<x>/<y>)" in decimal reads back as x and y |
| RateLimiting.Recent | utilities/api_clients.py:42 | the filtered window keeps only timestamps after `now - period` and is no longer than before |
| RateLimiting.RecentAppend | utilities/api_clients.py:42-51 | filtering after an append filters the old window and keeps the new time only when recent |
| RateLimiting.RecentRecent | utilities/api_clients.py:42 | filtering twice keeps what the stricter filter keeps |
| RateLimiting.RecentConcat | utilities/api_clients.py:42 | filtering distributes over concatenation |
| RateLimiting.RecentDropsFirst | utilities/api_clients.py:42-45 | an expired first entry is dropped |
| RateLimiting.AdmitSpec | utilities/api_clients.py:40-51 | a call fails (index error) iff the limit is not positive and no recent entry remains; otherwise the window ends with `now`, older entries are after `now - period`, the sleep is non-negative and, with a positive limit, the window holds at most `calls` entries |
| RateLimiting.KeepRecent | utilities/api_clients.py:42 | the list comprehension computes `Recent` |
| RateLimiting.RateLimiter.constructor | utilities/api_clients.py:33-36 | the call list starts empty |
| RateLimiting.RateLimiter.Call | utilities/api_clients.py:39-52 | a call updates the window as `Admit` and invokes the function once, after the sleep; when `Admit` raises, the window has already been filtered and is left empty |
| RateLimiting.InvocationStep | utilities/api_clients.py:39-52 | unfolds one request of the as-written invocation schedule |
| RateLimiting.AsWrittenOverruns | utilities/api_clients.py:44-51 | with limit 2 per period p > 11, requests at 0, p−10, p−5 and p+1 invoke the function at 0, p−10, p and p+1: three invocations within one period |
| RateLimiting.OverrunWindow | utilities/api_clients.py:44-51 | three of those invocations fall in one period |
| RateLimiting.OverrunTail | utilities/api_clients.py:44-51 | the last three requests of the counterexample run as stated |
| RateLimiting.OverrunFirst | utilities/api_clients.py:40-51 | first request: admitted at once |
| RateLimiting.OverrunSecond | utilities/api_clients.py:40-51 | second request: admitted at once |
| RateLimiting.OverrunThird | utilities/api_clients.py:44-51 | third request: sleeps 5 s and clears the window |
| RateLimiting.OverrunFourth | utilities/api_clients.py:40-51 | fourth request: the cleared window admits it at once |
| RateLimiting.RecentAllAfter | utilities/api_clients.py:42 | a window of recent entries is unchanged by filtering |
| RateLimiting.AdmitCorrectedStep | utilities/api_clients.py:39-52 | corrected limiter (record the wake-up time, keep the window): the invocation is not before the request, the window is the recent history, and holds at most `calls` entries |
| RateLimiting.FullWindowCase | utilities/api_clients.py:44-51 | the corrected step when the window is full |
| RateLimiting.AdmitCorrectedFull | utilities/api_clients.py:44-51 | a full window wakes at oldest + period and keeps the entries still recent then |
| RateLimiting.RoomyWindowCase | utilities/api_clients.py:44-51 | the corrected step when the window has room |
| RateLimiting.RoomyWindowStep | utilities/api_clients.py:51 | appending `now` to the recent window gives the recent history with `now` |
| RateLimiting.FullWindowStep | utilities/api_clients.py:44-51 | waking at oldest + period leaves at most `calls` recent invocations, counting the new one |
| RateLimiting.WithinLimitCons | utilities/api_clients.py:44-51 | the per-period bound extends by one invocation |
| RateLimiting.InvocationsCorrectedBound | utilities/api_clients.py:39-52 | every invocation of the corrected limiter has at most `calls` invocations in the period ending at it, history included |
| RateLimiting.CorrectedWithinLimit | utilities/api_clients.py:39-52 | from an empty history, the corrected limiter never invokes more than `calls` times in any period |
| Retrying.Pow2 | utilities/api_clients.py:70 | `2 ** attempt` is at least 1 |
| Retrying.RetryLoop | utilities/api_clients.py:62-75 | the loop's result, attempt count and waits equal `Retry` |
| Retrying.RetryFromSpec | utilities/api_clients.py:64-75 | from attempt k, all earlier attempts failed; success returns the first successful result unchanged; failure makes `max_retries` attempts and raises the last error (`raise None` with no attempt); the waits are `delay * 2^j`, none after the final attempt; a negative delay with a wait due after attempt k makes that attempt the last, and its failure raises the sleep error |
| Retrying.RetrySpec | utilities/api_clients.py:58-77 | at most `max_retries` attempts; the first success is returned unchanged; the wait after failed attempt j is `delay * 2^j`, with no wait after the last; with `max_retries <= 0` it raises `TypeError`; with a negative delay and at least two retries allowed, a failed first attempt raises the `time.sleep` ValueError and no second attempt is made |
| Retrying.BackoffSign | utilities/api_clients.py:70-72 | the wait after a failed attempt is negative exactly when `delay` is, so `time.sleep` raises exactly for a negative delay |
| Clients.MultiAPIClient.constructor | utilities/api_clients.py:486-491 | the client map starts empty |
| Clients.MultiAPIClient.AddClient | utilities/api_clients.py:493-496 | stores the client for the provider, replacing any earlier one |
| Clients.MultiAPIClient.GetClient | utilities/api_clients.py:498-502 | returns `Lookup` of the stored map |
| Clients.MultiAPIClient.GenerateText | utilities/api_clients.py:504-518 | dispatches as `TextRoute` |
| Clients.MultiAPIClient.SearchImages | utilities/api_clients.py:520-536 | dispatches as `ImageRoute` |
| Clients.LookupAfterAdd | utilities/api_clients.py:493-502 | `get_client` returns what `add_client` stored, other providers are unaffected, and an unregistered one raises "Client for <p> not configured" |
| Clients.RoutesSpec | utilities/api_clients.py:504-536 | text generation succeeds iff the client is registered and OpenAI or Gemini; image search iff registered and Pixabay, Unsplash or Pexels; an unregistered provider fails the same way in both |
| Clients.CreateImageClient | utilities/api_clients.py:550-559 | succeeds iff the lower-cased name is pixabay, unsplash or pexels, passing the key on; otherwise "Unknown image provider: <name>" |
| Clients.CreateImageClientIgnoresCase | utilities/api_clients.py:550-559 | names equal up to case give the same client |
| Models.ImageAttrsSpec | utilities/models.py:54-63 | attributes start with src then alt; title, width and height appear iff truthy, in that order, with their values |
| Models.ImageRenderingSpec | utilities/models.py:50-63 | `<img` starts with src and alt; the Markdown title is `title` when set, else the alt text |
| Models.FilledOrdered | utilities/models.py:56-111 | the optional parts kept by the renderers stay in their fixed rank order |
| Models.FilledMembers | utilities/models.py:56-111 | a part is kept iff its slot is filled |
| Models.SlotMember | utilities/models.py:56-111 | membership by rank for slots numbered from 0 |
| Models.FilledPrefix | utilities/models.py:56-87 | two mandatory leading parts come first |
| Models.MetaSlotsRanked | utilities/models.py:84-111 | the meta-tag slots are ranked by position |
| Models.ToMetaTags | utilities/models.py:82-113 | one rendered tag per kept meta tag, in order |
| Models.MetaTagsSpec | utilities/models.py:84-105 | title then description come first; the Twitter card is always present; tags keep the fixed order |
| Models.MetaTagsOptional | utilities/models.py:89-94 | the keywords tag appears iff keywords are non-empty, joined with ", "; canonical iff set |
| Models.MetaTagsOpenGraph | utilities/models.py:97-102 | each Open Graph tag appears iff its field is truthy, with its value |
| Models.MetaTagsTwitter | utilities/models.py:106-111 | each optional Twitter tag appears iff its field is truthy, with its value |
| Models.NewSection | utilities/models.py:117-129 | a section keeps its fields; a missing word count becomes the number of whitespace-separated tokens, an explicit one is kept |
| Models.NewSectionBlank | utilities/models.py:127-129 | the default word count is 0 iff the content is blank |
| Models.ImageLines | utilities/models.py:138-140 | two lines per image |
| Models.ImageLinesAt | utilities/models.py:138-140 | each image is its Markdown line followed by a blank line |
| Models.HeadingLineSpec | utilities/models.py:134 | the heading line is `level` `#` characters, a space, and the heading |
| Models.SectionMarkdownStart | utilities/models.py:131-149 | the Markdown starts with the heading line |
| Models.SectionMarkdownLayout | utilities/models.py:131-149 | heading, blank, images with blanks, content, blank, then each subsection rendered recursively, in order |
| Models.SectionHtmlStart | utilities/models.py:151-170 | the HTML starts with the `<hN>` heading line |
| Models.SectionHtmlLayout | utilities/models.py:151-170 | the joined lines are the heading line, one `<figure>` per image in order, one `<p>` per non-blank paragraph of the content (stripped, free of "\n\n"), then each subsection rendered recursively, in order |
| Models.HeadLinesLayout | utilities/models.py:153-164 | the heading line sits first, image k's `<figure>` at 1 + k and paragraph k's `<p>` after all figures |
| Models.Paragraphs | utilities/models.py:161-164 | at most one paragraph per chunk, each non-empty and without surrounding whitespace |
| Models.SplitBlank | utilities/models.py:161 | splitting a blank text gives blank chunks |
| Models.ParagraphsOfBlank | utilities/models.py:162-164 | blank chunks give no paragraph |
| Models.SliceLacks | utilities/models.py:161-164 | a slice of a text without a separator lacks it too |
| Models.StripLacks | utilities/models.py:163-164 | stripping keeps a text free of a separator |
| Models.ParagraphsLackBreaks | utilities/models.py:161-164 | no paragraph contains a blank-line break |
| Models.ContentParagraphsSpec | utilities/models.py:151-170 | blank content gives no `<p>`; content without "\n\n" gives its stripped self; each paragraph is non-empty, stripped and free of "\n\n" |
| Models.Offset | utilities/models.py:214 | arithmetic step for rounding |
| Models.RoundsToClose | utilities/models.py:214 | a nearest integer of n/d is its floor or floor + 1 |
| Models.MulSteps | utilities/models.py:214 | arithmetic step for rounding |
| Models.RoundHalfEvenRounds | utilities/models.py:214 | Python's `round(n/d)` is a nearest integer to n/d |
| Models.RoundHalfEvenSpec | utilities/models.py:214 | `round` is the nearest integer, ties to even, and the only one so |
| Models.ReadingTime | utilities/models.py:214 | the reading time is at least 1 |
| Models.ReadingTimeFacts | utilities/models.py:214 | up to 299 words read in 1 minute; more words never read faster |
| Models.SectionsWordsNonNegative | utilities/models.py:206-207 | non-negative section counts sum to a non-negative count |
| Models.MetricsValidate | utilities/models.py:199-352 | after `update_metrics`, word count ≥ 0 and reading time ≥ 1, as the validated model demands |
| Models.BlogPost.constructor | utilities/models.py:174-197 | keeps every field, the two link lists included, and sets the metrics as `update_metrics` does |
| Models.BlogPost.UpdateMetrics | utilities/models.py:199-214 | word count = introduction tokens + Σ section counts (None as 0) + conclusion tokens; reading time = max(1, round(words/200)); nothing else changes |
| Models.FrontMatterSpec | utilities/models.py:220-231 | front matter opens and closes with `---`, holds title, author, date, the category and tags lines only when set, then status and reading time |
| Models.MarkdownSpec | utilities/models.py:216-259 | after the front matter come a blank line, `# title`, the featured image and introduction when set, each section in order, and the conclusion block when set |
| Models.SectionsMarkdown | utilities/models.py:249-250 | one rendered section per section, in order |
| Models.TagSpans | utilities/models.py:279-280 | one span per tag, in order |
| Models.TagLinesSpec | utilities/models.py:277-281 | the tags block appears iff there are tags, wrapping one span per tag |
| Models.SectionsHtml | utilities/models.py:295-298 | one rendered section per section, in order |
| Models.SectionBlocks | utilities/models.py:295-298 | three lines per section |
| Models.SliceBetween | utilities/models.py:295-298 | a slice inside the middle of a concatenation is a slice of the middle |
| Models.BlocksBetween | utilities/models.py:295-298 | the k-th section block, `<section>`, section k, `</section>`, sits at offset 3k |
| Models.HtmlFrame | utilities/models.py:261-309 | the article opens with the wrapper and `<h1>title</h1>`, and closes with `</div>` and `</article>` |
| Models.HtmlSectionAt | utilities/models.py:289-298 | the rendering of section k appears at its place after the header and lead, wrapped in `<section>` ... `</section>` |
| Models.ValidateMimeType | utilities/models.py:327-332 | accepted iff in the allow-list, returned unchanged; otherwise the error lists the allowed values |
| Models.ValidateStatus | utilities/models.py:356-361 | accepted iff in the allow-list, returned unchanged; otherwise the error lists the allowed values |
| Models.StatusesMatchEnum | utilities/models.py:17-361 | the allowed statuses are exactly the enumeration's values |
| Models.PostErrors | utilities/models.py:334-361 | no error iff title length 1..200, slug matches `[a-z0-9-]+`, author non-empty, at most 10 tags, length bounds on summary/introduction/conclusion, allowed status, word count ≥ 0, reading time ≥ 1 |
| Models.ImageErrors | utilities/models.py:313-332 | no error iff width, height and file size are positive when given and the MIME type is allowed |
| OutputValidation.AllPresent | utilities/validators.py:39-41 | true iff every required field is a key |
| OutputValidation.ValidateSpec | utilities/validators.py:28-42 | agents outside the table always validate; listed ones iff every required field is a key |
| OutputValidation.ValidateDependsOnKeys | utilities/validators.py:38-42 | the result depends only on key membership |
| OutputValidation.ValidateMonotone | utilities/validators.py:38-42 | adding keys to a valid output keeps it valid |
| OutputValidation.FinalAssemblyNeedsContent | utilities/validators.py:35-41 | the final assembly output validates iff it has `title` and `content` |
| AgentBase.ExecutePromptSpec | agents/base_agent.py:36-57 | no model gives "Gemini API key not configured"; a model error gives "Error: " + message; otherwise the reply |
| AgentBase.Slice | agents/base_agent.py:76 | Python slicing: empty when end ≤ start |
| AgentBase.FencedCandidate | agents/base_agent.py:70-71 | with "```json", the candidate is the text after it up to the next "```" |
| AgentBase.BracesCandidate | agents/base_agent.py:72-76 | otherwise, with both braces, the candidate spans the first `{` through the last `}` (empty when they are out of order) |
| AgentBase.WholeCandidate | agents/base_agent.py:77-78 | otherwise the candidate is the whole reply |
| AgentBase.FencedRoundTrip | agents/base_agent.py:70-71 | a backtick-free body wrapped in the fences is extracted back exactly |
| AgentBase.ParseJsonResponseSpec | agents/base_agent.py:59-83 | the parser sees the stripped candidate; a failed parse gives exactly `{"response": reply}`, which has no `'error'` key |
| UserInput.Head | agents/user_input.py:29 | slicing succeeds exactly for lists and strings |
| UserInput.FirstKeys | agents/user_input.py:30 | the first min(n, size) keys, in order |
| UserInput.SettingsKeyList | agents/user_input.py:21-33 | the result has the eleven output keys, in order |
| UserInput.ReservedKeys | agents/user_input.py:21-33 | neither `error` nor `topic` is an output key |
| UserInput.SettingsKeys | agents/user_input.py:21-33 | the output's keys are exactly the eleven; no `'error'` key (the orchestrator never fails this step) and no `'topic'` key (the next step sees none) |
| UserInput.SettingsTopic | agents/user_input.py:13-25 | `topic_confirmed` is the topic; `target_audience` is "general audience interested in " + topic |
| UserInput.SettingsLists | agents/user_input.py:29-30 | the two list fields hold what was extracted |
| UserInput.ExtractedListsSpec | agents/user_input.py:17-30 | at most the first 3 trending topics; a falsy value gives `[]`; at most the first 5 query keys, in order |
| UserInput.UserInputSpec | agents/user_input.py:4-33 | the step returns iff the state and previous output can be read; the result has exactly the output keys, no `'error'` or `'topic'`, the topic fields, and the extracted lists |
| UserInput.FirstStep | agents/user_input.py:13-33 | on `{"topic": t}` the first step passes, with empty lists and no `topic` key |
| Exporters.GenerateFilenameSpec | utilities/exporters.py:56-59 | the name is slug `_` timestamp `.` format: it starts with `slug_` and the format follows the last dot |
| Exporters.BaseName | utilities/exporters.py:342-343 | a name without `/` is its own base name |
| Exporters.OptStr | utilities/exporters.py:248 | None maps to null and only None |
| Exporters.OptInt | utilities/exporters.py:243 | None maps to null and only None |
| Exporters.StrList | utilities/exporters.py:234-242 | one string per item, in order |
| Exporters.SectionDicts | utilities/exporters.py:237-252 | one dictionary per section, in order |
| Exporters.PostHeadKeys | utilities/exporters.py:229-236 | the keys before `sections` are not any of the later ones |
| Exporters.LookupAfterSections | utilities/exporters.py:229-271 | looking up a later key skips the head and the sections |
| Exporters.BlogPostToDictSections | utilities/exporters.py:237-252 | `sections` maps the post's sections one-to-one, in order |
| Exporters.BodySeo | utilities/exporters.py:253-258 | `seo_metadata` follows the conclusion |
| Exporters.BodyFeatured | utilities/exporters.py:259-262 | `featured_image` follows the metadata |
| Exporters.BodyStatus | utilities/exporters.py:263 | `status` follows the featured image |
| Exporters.BlogPostToDictSeo | utilities/exporters.py:254-258 | `seo_metadata` is the title/description/keywords dictionary, and null exactly when the post has none |
| Exporters.BlogPostToDictFeatured | utilities/exporters.py:259-262 | `featured_image` is the url/alt dictionary, and null exactly when the post has none |
| Exporters.BlogPostToDictStatus | utilities/exporters.py:263 | `status` is the status's value |
| Exporters.TailLinks | utilities/exporters.py:269-270 | `internal_links` and `external_links` are the last two entries, each the post's own list |
| Exporters.BlogPostToDictLinks | utilities/exporters.py:269-270 | the exported `internal_links` and `external_links` are the post's two lists, in order |
| Exporters.TagNicenameIsLowerReplace | utilities/exporters.py:307 | the nicename is the tag lower-cased with spaces turned into `-` |
| Exporters.NicenameLength | utilities/exporters.py:307 | the nicename has the tag's length |
| Exporters.TagNicenameSpec | utilities/exporters.py:307 | the nicename has no space and no capital, keeps every other character, and is its own nicename |
| Exporters.TagLines | utilities/exporters.py:306-307 | one `post_tag` category line per tag, in order |
| Exporters.TagLineAt | utilities/exporters.py:306-307 | tag k's line sits between the lines of the tags before and after it |
| Exporters.OrDefault | utilities/exporters.py:297-302 | `x or default` |
| Exporters.CategoryLineSpec | utilities/exporters.py:302 | a missing category becomes nicename `uncategorized` and label `Uncategorized`; a set one is used for both |
| Exporters.WordPressXml | utilities/exporters.py:273-311 | the XML is the item header, one category line per tag, then the closing tags |
| Exporters.AppendTagLines | utilities/exporters.py:306-307 | the `+=` loop appends the tag lines in order |
| Exporters.ExportBlogPostSpec | utilities/exporters.py:500-518 | exactly markdown, html, json and wordpress are accepted (medium and pdf are not); others raise "Unsupported format: <f>"; a given file name is used, else a generated one with the writer's extension; the returned path is that name inside the output directory |
| Exporters.BundleItems | utilities/exporters.py:329-343 | one item per format, in order |
| Exporters.CreateExportBundle | utilities/exporters.py:319-355 | the archived files are those of the formats (markdown, html, json by default), unrecognised ones skipped; the archive is named slug `_` timestamp `.zip` |
| Exporters.BundleFilesSpec | utilities/exporters.py:329-343 | bundle files concatenate over formats; an unknown format adds none, a known one its slug-named file |
| Exporters.BundleDefault | utilities/exporters.py:321-337 | by default the bundle holds slug.md, slug.html and slug.json |
| Exporters.NoSlash | utilities/exporters.py:342-343 | the base name of a slash-free name is itself |
| Exporters.WritersOf | utilities/exporters.py:509-518 | the writer chosen for each format |
| Exporters.BatchItemExport | utilities/exporters.py:535-539 | a batch item is the path `export_blog_post` returns, `output_dir/<generated name>`, unless the export fails, in which case it is skipped |
| Exporters.PostItems | utilities/exporters.py:534-539 | one item per format of a post |
| Exporters.BatchItems | utilities/exporters.py:533-539 | one item list per post |
| Exporters.SlugsOf | utilities/exporters.py:533 | the posts' slugs, in order |
| Exporters.BatchExport | utilities/exporters.py:521-541 | the returned paths lie in the output directory and come post-major, format-minor (markdown by default); failed exports are skipped without stopping the batch |
| Exporters.ExportPost | utilities/exporters.py:534-539 | the inner loop over formats of one post |
| Exporters.BatchBound | utilities/exporters.py:521-541 | at most one path per post and format |
| Exporters.PostOrder | utilities/exporters.py:534-539 | with every export succeeding, one path per format, in format order, each `output_dir/` followed by the generated name |
| Exporters.BatchOrder | utilities/exporters.py:521-541 | with every export succeeding, path `i * formats + j` is `output_dir/` followed by post i's generated file name for format j |
| Exporters.SupportedWriters | utilities/exporters.py:509-516 | every supported format selects a writer |
| AdvancedExporters.FieldDefaults | utilities/advanced_exporters.py:7-29 | title defaults to "Untitled" and body to ""; string values are used as they are |
| AdvancedExporters.WordPressLayout | utilities/advanced_exporters.py:10-23 | the title element, then the body in CDATA, then post type "post" and status "draft", whatever the content |
| AdvancedExporters.FirstNonStr | utilities/advanced_exporters.py:34 | the first item that is not a string, if any |
| AdvancedExporters.Strings | utilities/advanced_exporters.py:34 | the texts of string items, in order |
| AdvancedExporters.JoinValuesSpec | utilities/advanced_exporters.py:34 | `", ".join(tags)` succeeds iff the value is iterable with only strings, and joins them; otherwise the TypeError names the first non-string item |
| AdvancedExporters.MediumLayout | utilities/advanced_exporters.py:32-39 | starts with "# " + title; the tags line follows; the body follows the `---` separator line |
| AdvancedExporters.MediumExportSpec | utilities/advanced_exporters.py:26-40 | succeeds iff the tags join; then it lays out title, joined tags and body; without tags the tags line is empty |
| AppHelpers.MissingItems | app.py:157-159 | each key contributes itself iff unset |
| AppHelpers.ValidateApiKeys | app.py:152-161 | returns the unset keys, in order, and true iff none is missing |
| AppHelpers.MissingKeysSpec | app.py:154-161 | the missing list is OPENAI_API_KEY then GEMINI_API_KEY, each iff unset; empty iff both are set |
| AppHelpers.ItemTexts | app.py:168 | the `str` of each item, in order |
| AppHelpers.Bullets | app.py:168 | one "- " line per item |
| AppHelpers.BulletJoin | app.py:168 | `"- " + "\n- ".join(xs)` is the bullet lines joined by newlines |
| AppHelpers.FormatAgentOutputSpec | app.py:163-170 | a list renders as `**name**` and one "- " line per item; an empty list leaves a lone "- "; a dict fails iff the encoder does; other values are shown by `str` |
| AppHelpers.PostTitleSpec | app.py:259-289 | the title defaults to "Untitled Blog Post" |
| AppHelpers.ReadingTimeSpec | app.py:264-265 | `max(1, words // 200)` is at least 1, is 1 below 400 words, is the floor otherwise and is monotone |
| AppHelpers.TagSpans | app.py:261 | one span per tag, in order |
| AppHelpers.TagsHtmlAt | app.py:260-261 | tag k's span sits after the spans of the tags before it |
| AppHelpers.SectionHtmls | app.py:270-272 | one rendering per section, in order |
| AppHelpers.ArticleContent | app.py:268-274 | the `+=` loop computes `Article` |
| AppHelpers.ArticleSpec | app.py:269-272 | with a list of section dicts, the article is their heading and paragraph lines in order; the first non-dict fails it |
| AppHelpers.ArticleFallback | app.py:273-274 | without `sections` the article is the JSON dump in a paragraph |
| AppHelpers.CreateHtmlPreview | app.py:172-282 | returns `Preview` |
| AppHelpers.PreviewPageLayout | app.py:174-256 | the page shows the title in `<title>` and `<h1>`, the reading time and the article in place |
| AppHelpers.PreviewSpec | app.py:172-282 | the preview fails iff the tags cannot be iterated or the article fails; otherwise it fills the page with title, date, reading time ≥ 1, tags and article; no tags key gives no tags |
| AppHelpers.SectionMarkdowns | app.py:302-304 | one block per section, in order |
| AppHelpers.Backticked | app.py:297 | each tag wrapped in backticks |
| AppHelpers.CreateMarkdownContent | app.py:284-308 | joins the Markdown entries with newlines, or fails with their error |
| AppHelpers.MarkdownBody | app.py:300-306 | the loop computes the body entries |
| AppHelpers.SectionBlocks | app.py:301-304 | section k gives `\n## heading\n` then `content\n`, at entries 2k and 2k+1 |
| AppHelpers.MarkdownEntriesSpec | app.py:284-308 | the title line (default "Untitled Blog Post") and the date line come first; the tags line only when a `tags` key exists, backticked and space-joined; without `sections` a JSON code block |
| AppHelpers.Session.constructor | app.py:465-510 | the session lists start empty |
| AppHelpers.Session.UpdateCallback | app.py:465-510 | records progress and state; if reading the update fails, returns the error and changes nothing else; otherwise appends one intermediate entry and updates outputs, steps and history as `Apply` states |
| AppHelpers.Session.Apply | app.py:490-510 | copies truthy outputs; appends a step and a history entry only for a non-empty agent and a "Completed" message |
| AppHelpers.RecordedSpec | app.py:495-510 | a step is recorded iff the current agent is non-empty, the message starts with "Completed" and the output can be looked up; step and history name the same agent and the size is the output's `str` length; a non-string message fails on `startswith`, and a completing update fails on `get` when the outputs are not a dict, before `replace` on a non-string agent; otherwise the step holds the outputs' entry for the agent name without "Agent", or `{}` |
| AppHelpers.CopiedOutputsSpec | app.py:491-492 | falsy outputs leave the stored ones; truthy containers are copied; other truthy values fail |
| Text.Words | utilities/models.py:129 | `str.split()` gives non-empty tokens without whitespace |
| Text.WordsEmpty | utilities/models.py:129 | no tokens iff the text is blank |
| Text.Strip | utilities/models.py:163-164 | `strip()` removes the whitespace at both ends; the result is empty iff the text is blank |
| Text.IndexOf | agents/base_agent.py:74 | `find` returns the first occurrence, or none when there is none |
| Text.LastIndexOf | agents/base_agent.py:75 | `rfind` of a character returns its last occurrence |
| Text.SplitOn | utilities/models.py:161 | `split(sep)` gives at least one piece, none containing the separator |
| Text.SplitJoin | utilities/models.py:161 | joining the pieces with the separator gives the text back |
| Text.SplitOnLast | orchestrator/enhanced_orchestrator.py:238 | the last piece of `split(".")` is what follows the last dot |
| Text.Before | agents/base_agent.py:71 | `split(sep)[0]` is the prefix before the first separator |
| Text.Lower | utilities/exporters.py:307 | `lower()` maps each character |
| Text.ReplaceChar | utilities/exporters.py:307 | `replace(a, b)` maps each character |
| Values.Get | utilities/validators.py:40 | a key is found iff some entry has it, with that entry's value |
| Values.GetAppend | utilities/exporters.py:229-271 | lookup in a concatenation finds the first part's entry first |
| Values.HasKeyInKeys | utilities/validators.py:40 | `k in d` holds exactly for the keys `d.keys()` lists |
| Values.CopyOf | orchestrator/orchestrator.py:127 | `.copy()` exists exactly for lists and dicts and returns an equal value |
| Values.Len | orchestrator/enhanced_orchestrator.py:97 | `len` exists exactly for strings, lists and dicts |
| Values.NatToStringRoundTrip | app.py:278 | the decimal text of a number reads back as that number |

## Left out

- Network and SDK clients (OpenAI, Gemini, Pixabay, Unsplash, Pexels, DuckDuckGo, the scraper): foreign calls. Only the dispatch in `MultiAPIClient` and `create_image_client` is modelled.
- The twenty LLM agents: each is an opaque `behave` step that returns a value or raises. Only `UserInputAgent` is modelled in full.
- `importlib` loading: a `resolve` parameter that may fail.
- `json.dumps`/`json.loads` and `str()` of containers: the `dumps`, `loads` and `repr` parameters. The JSON text itself is not modelled.
- Clocks (`datetime.now`, `strftime`, `isoformat`, `time.time`): timestamp and date parameters. Elapsed-time logging in `run` is left out.
- File writes, `mkdir`, the temporary directory and the zip archive: the model states which files are written and under what names, not their bytes on disk. `save_markdown`, `save_html` and `save_json` are left out beyond their names and extensions.
- Jinja templates (`_render_with_template`) and `_generate_full_html`: template rendering is not part of this model.
- The CSS of the HTML preview: it is the `style` parameter of `AppHelpers.Preview`.
- `time.sleep`: the limiter returns the wake-up time and the retry loop returns its waits; the ValueError `time.sleep` raises for a negative wait is modelled, the wait itself is not.
- Logging: no log line is modelled, and neither are utilities/logger.py and config/settings.py.
- The Streamlit UI in app.py (`main`, widgets, progress bars) and `StreamlitExporter`.
- utilities/text_analysis.py, `calculate_similarity` and `check_grammar`: wrappers over KeyBERT, BERTopic, YAKE, Simhash and LanguageTool.
- fix_app.py, update_agents.py and the test files: not part of this model.
- `create_streamlit_callbacks`: only the agent-name derivation and the progress value are modelled. The session-state lambdas are UI.
- Text.Lower: lower-cases ASCII letters only, not the full Unicode case mapping of `str.lower`.
- Models.PostErrors: the slug pattern is a whole-string match of `[a-z0-9-]+`. It does not model regex quirks such as a trailing newline before `$`.
- Models.BlogPost.ToMarkdown: the date is a parameter. `created_at`, `updated_at` and `published_at` are not modelled as datetimes.
- Exporters.BlogPostToDict: `created_at`, `updated_at` and `published_at` are `isoformat` text supplied in `PostExtras`.
- Exporters.WordPressXml: the `pubDate` text is a parameter, since the model has no date formatting.
- Pipeline.Orchestrator.Run: no floating point; progress fractions are exact rationals.
- Values.Value: a float is an exact rational, so NaN and the infinities are not represented and `str()` of a float goes through `repr`. Tuples and sets are not represented either. States, agent outputs or parsed JSON holding a tuple or a set are outside the model, and so are their snapshots, `.copy()` of a set and slicing of a tuple.
- UserInput.Head: slicing a dictionary gives CPython 3.11's "unhashable type: 'slice'". From 3.12 on it raises `KeyError(slice(None, 3, None))` instead.
- Paths: `Path(output_dir) / filename` is the text `output_dir + "/" + filename`. pathlib's normalisation is not modelled: an absolute file name replacing the directory, a trailing slash, or "." parts.
- Default arguments are the callers' choice in the model, not built in: `output_dir="output"` of `export_blog_post` and `batch_export`, `provider="pixabay"` of `create_image_client`, `calls=10, period=60` of `rate_limit`, and `max_retries=3, delay=1.0` of `retry_on_error`.
- Models.ReadingTime: `round(total / 200)` is computed on the exact quotient, with ties to even. Python divides in floating point. Below 200·2^46 words (about 1.4·10^16) the float quotient is close enough that rounding gives the same minute. From there on the spacing of doubles can turn a quotient such as 2^46 + 0.505 into the tie 2^46 + 0.5. Python then rounds to the even 2^46, while the model gives 2^46 + 1.

## Findings

| source | as written | input that shows it | evidently intended | confidence | as-written member | corrected member |
|---|---|---|---|---|---|---|
| utilities/api_clients.py:44-51 | when the window is full, the wrapper sleeps, then clears the window and records the pre-sleep time `now` | limit 2 per period p > 11 s; requests at 0, p−10, p−5 and p+1: the function runs at 0, p−10, p and p+1, three times within one period | at most `calls` invocations in any period: record the wake-up time and keep the entries still within the period | not executed | RateLimiting.AsWrittenOverruns | RateLimiting.CorrectedWithinLimit |
