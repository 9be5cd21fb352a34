# LocalAIApp: session cache and view-model

A Dafny model of the logic in `LocalAIApp/MainWindow.xaml.cs`, the WPF front-end that loads a local language model and asks it single-turn questions. It covers two pieces.

- **`LLMModel`**, the session cache. It holds the stored `LLMModelConfig`, the loaded weights and a stateless executor. `LoadModel` does nothing when the new config record equals the stored one. Otherwise it disposes the old resources, records the config, asks the engine for weights and builds an executor configured from the record. `Chat` frames the prompt and hands it to the executor. `Dispose` drops the executor and releases the weights.
- **`MainWindowVM`**, the view-model. Each property setter stores its value and raises a fixed list of `PropertyChanged` names, kept here as an event log (`events`). There are three derived display properties (`EnableButtons`, `EnableAskButton`, `CopyButtonVisibility`), the model-file command and the `Ask` cycle.

Files:

- `Wrappers.dfy`: `Option`, `Result`, `Outcome`. A null reference is `None`; an exception with a message is `Failure`/`Fail`.
- `Text.dfy`: .NET's `char.IsWhiteSpace` and `string.IsNullOrWhiteSpace`. Also `Concat`, the text built by appending streamed fragments in order.
- `Session.dfy`: the `LLMModelConfig` record and the session state as a value (`SessionState`). It has the transition functions `LoadState`, `DisposeState` and `ChatRequest` and the lemmas about them. The `LLMModel` class is also here. Its methods are proved equal to those functions.
- `ViewModel.dfy`: the `MainWindowVM` class and the specification of one Ask cycle (`RunCycle`, `AnswerOf`, `CycleEvents`), with lemmas about cycles.

The inference engine is external. It is modelled by two function parameters:

- `acquire: ModelParams -> Result<nat, string>` stands for `LLamaWeights.LoadFromFileAsync`. It returns an engine handle or an exception message.
- `infer: Inference -> Stream` stands for `StatelessExecutor.InferAsync`. It returns the fragments streamed in order, optionally followed by an exception message.

Every weight load the session requests, every load that succeeds, and every release is recorded in `engineLog`, as `LoadRequested`, `Loaded` and `Released`. Building the executor and calling `InferAsync` are not logged. From that log, `Resident` computes which weights the engine holds.

Behaviour modelled as the code has it:

- The skip check in `LoadModel` compares only the config. The config is recorded before the weights load. So after a failed load, asking again with the same config skips the load. `Chat` then throws a `NullReferenceException`, because the executor is null (`FailedLoadIsSticky`, `FailedLoadBlocksLaterAsks`).
- `Dispose` never clears `_model`. The released weights stay referenced, and a second `Dispose` calls `Dispose` on them again. What that does is up to the library; the model logs a second, harmless `Released`, which leaves nothing resident (`DisposeReleasesAll`).
- An `Ask` whose stream throws shows only the exception message. The fragments streamed before it are discarded, because the `catch` block assigns `AnswerBox = e.Message`. This version of the code has no cancellation.

## Model

| member | source | states |
|---|---|---|
| `Session.LLMModel.LoadModel` | LocalAIApp/MainWindow.xaml.cs:226-257 | the new session state and outcome are those of `LoadState` on the old state |
| `Session.LLMModel.Chat` | LocalAIApp/MainWindow.xaml.cs:259-274 | the request sent is `ChatRequest` of the current state; it throws when the config or the executor is null; it changes nothing |
| `Session.LLMModel.Dispose` | LocalAIApp/MainWindow.xaml.cs:283-289 | the executor becomes null and the held weights, if any, are released; `_model` keeps its value |
| `Session.LLMModel.constructor` | LocalAIApp/MainWindow.xaml.cs:222-224 | a new session holds no config, no weights and no executor, so the first `LoadModel` always loads |
| `Session.LoadSameConfigIsNoop` | LocalAIApp/MainWindow.xaml.cs:228 | a config equal to the stored one leaves the state untouched, whatever the engine would do: no dispose, no engine call, same executor |
| `Session.SecondLoadIsNoop` | LocalAIApp/MainWindow.xaml.cs:228-233 | every call records the config, even when the load fails; so a second call with the same config is a no-op |
| `Session.LoadNewConfig` | LocalAIApp/MainWindow.xaml.cs:229-254 | with a new config, the load succeeds exactly when the engine supplies weights; the executor then uses them and takes `ApplyTemplate` from the config; `SystemMessage` is the system prompt when templating is on and null otherwise; a failure reports the engine's message and leaves no executor |
| `Session.NothingResidentWhenLoading` | LocalAIApp/MainWindow.xaml.cs:229-246 | the old weights are released before the engine is asked for new ones; when the request is made, nothing is resident |
| `Session.DisposeReleasesAll` | LocalAIApp/MainWindow.xaml.cs:283-289 | after `Dispose` nothing is resident, a second `Dispose` keeps it so, and the invariant holds |
| `Session.LoadPreservesValid` | LocalAIApp/MainWindow.xaml.cs:226-257 | `LoadModel` preserves the invariant: only the session's own weights are resident, and any executor runs over resident weights as the stored config prescribes |
| `Session.InitialIsValid` | LocalAIApp/MainWindow.xaml.cs:222-224 | the fresh session satisfies the invariant |
| `Session.AtMostOneResident` | LocalAIApp/MainWindow.xaml.cs:229-246 | under the invariant, at most one model is resident |
| `ViewModel.CyclePreservesValid` | LocalAIApp/MainWindow.xaml.cs:184-203 | a whole Ask cycle keeps the session invariant, so at most one model stays resident across any sequence of Asks |
| `Session.ChatOnValidSession` | LocalAIApp/MainWindow.xaml.cs:261-273 | on a valid session, `Chat` succeeds exactly when there is an executor, and otherwise throws a null reference; the request carries the framed prompt and 1024 max tokens, to an executor over resident weights configured from the stored record |
| `Session.FrameRoundTrip` | LocalAIApp/MainWindow.xaml.cs:269-272 | removing the framing recovers the user's prompt |
| `Session.FramePromptShape` | LocalAIApp/MainWindow.xaml.cs:269-272 | without templating the prompt becomes system prompt, newline, prompt; with templating it is unchanged |
| `Session.FramePromptInjective` | LocalAIApp/MainWindow.xaml.cs:269-272 | two different prompts are never framed to the same text |
| `Session.FailedLoadIsSticky` | LocalAIApp/MainWindow.xaml.cs:228-250 | after a failed load, loading the same config again is skipped and `Chat` throws a null reference |
| `Text.HasTextIsNotBlank` | LocalAIApp/MainWindow.xaml.cs:122-126 | non-blank (some character is not white space) is the negation of `IsNullOrWhiteSpace`, so the empty string is blank |
| `Text.ConcatAppend` | LocalAIApp/MainWindow.xaml.cs:191-194 | appending fragments in two runs gives the same text as appending them in one |
| `Text.ConcatFragmentAt` | LocalAIApp/MainWindow.xaml.cs:191-194 | each streamed fragment appears whole in the answer, right after the fragments before it |
| `Text.ConcatBlank` | LocalAIApp/MainWindow.xaml.cs:126 | the streamed answer is blank exactly when every fragment is blank |
| `ViewModel.MainWindowVM.EnableAskButton` | LocalAIApp/MainWindow.xaml.cs:118-124 | true exactly when not processing and the model path, system prompt and question each contain a non-white-space character |
| `ViewModel.EnableAskButtonDependsOnlyOnItsInputs` | LocalAIApp/MainWindow.xaml.cs:118-124 | `EnableAskButton` depends on nothing but the busy flag, the model path, the system prompt and the question |
| `ViewModel.MainWindowVM.CopyButtonVisibility` | LocalAIApp/MainWindow.xaml.cs:126 | Visible exactly when not processing and the answer is non-blank; otherwise Collapsed, never Hidden |
| `ViewModel.UnannouncedDerivedUnchanged` | LocalAIApp/MainWindow.xaml.cs:47-138 | `EnableButtons` and `CopyButtonVisibility`, which the ModelPath, SystemPrompt, QuestionBox, GPULayerCount, ContextSize and ApplyTemplate setters do not announce, cannot change through them (for `EnableAskButton`, see `EnableAskButtonDependsOnlyOnItsInputs`) |
| `ViewModel.EnableButtonsFollowsBusyFlag` | LocalAIApp/MainWindow.xaml.cs:118-124 | `EnableButtons` is true exactly when not processing, so only the IsProcessing setter can change it; the Ask button is never enabled while the buttons are disabled |
| `ViewModel.InitiallyCannotAsk` | LocalAIApp/MainWindow.xaml.cs:46-149 | with the initial field values, the Ask button is disabled and the copy button collapsed |
| `ViewModel.MainWindowVM.constructor` | LocalAIApp/MainWindow.xaml.cs:44-149 | the initial values are an empty model path, 14 GPU layers, context 2048, templating on, the default system prompt, idle, empty question and answer; a fresh session |
| `ViewModel.MainWindowVM.SetModelPath` | LocalAIApp/MainWindow.xaml.cs:47-56 | only the model path changes; raises ModelPath then EnableAskButton |
| `ViewModel.MainWindowVM.SetGPULayerCount` | LocalAIApp/MainWindow.xaml.cs:59-67 | only the GPU layer count changes; raises GPULayerCount |
| `ViewModel.MainWindowVM.SetContextSize` | LocalAIApp/MainWindow.xaml.cs:70-78 | only the context size changes; raises ContextSize |
| `ViewModel.MainWindowVM.SetApplyTemplate` | LocalAIApp/MainWindow.xaml.cs:81-89 | only the template flag changes; raises ApplyTemplate |
| `ViewModel.MainWindowVM.SetSystemPrompt` | LocalAIApp/MainWindow.xaml.cs:92-101 | only the system prompt changes; raises SystemPrompt then EnableAskButton |
| `ViewModel.MainWindowVM.SetIsProcessing` | LocalAIApp/MainWindow.xaml.cs:105-116 | only the busy flag changes; raises IsProcessing, EnableButtons, EnableAskButton, CopyButtonVisibility |
| `ViewModel.MainWindowVM.SetQuestionBox` | LocalAIApp/MainWindow.xaml.cs:129-138 | only the question changes; raises QuestionBox then EnableAskButton |
| `ViewModel.MainWindowVM.SetAnswerBox` | LocalAIApp/MainWindow.xaml.cs:141-149 | only the answer changes; raises AnswerBox |
| `ViewModel.MainWindowVM.LoadModel` | LocalAIApp/MainWindow.xaml.cs:168-180 | when the dialog reports true, the model path becomes the chosen file name through its setter; otherwise nothing changes and nothing is raised |
| `ViewModel.MainWindowVM.AppendFragments` | LocalAIApp/MainWindow.xaml.cs:191-194 | the answer grows by the fragments' in-order concatenation; one AnswerBox notification per fragment |
| `ViewModel.MainWindowVM.Respond` | LocalAIApp/MainWindow.xaml.cs:185-199 | when entered with an empty answer, it loads the session and then shows either the streamed text or the first exception's message |
| `ViewModel.MainWindowVM.Ask` | LocalAIApp/MainWindow.xaml.cs:182-204 | the session ends as `RunCycle` says; the answer is `AnswerOf` the cycle; the busy flag ends false in every outcome; the other fields are unchanged; the notifications are exactly `CycleEvents` |
| `ViewModel.FreshCycleAnswer` | LocalAIApp/MainWindow.xaml.cs:184-203 | when a cycle loads new weights, the answer is the in-order concatenation of what the engine streams for the framed question; if the stream throws, the answer is the exception message alone |
| `ViewModel.FailureReplacesAnswer` | LocalAIApp/MainWindow.xaml.cs:196-199 | any exception, whether from loading, `Chat` or the stream, makes the answer its message, discarding partial output; the last notifications are AnswerBox, then the four of going idle |
| `ViewModel.RepeatedAskReusesModel` | LocalAIApp/MainWindow.xaml.cs:189-191 | a second Ask with the same settings, after a successful load, makes no load or release call, leaves the session unchanged, and streams from the same executor |
| `ViewModel.FailedLoadBlocksLaterAsks` | LocalAIApp/MainWindow.xaml.cs:189-199 | after an Ask whose load failed, any later Ask with the same settings answers with the null-reference message and makes no engine call |
| `ViewModel.CompletedAnswerHasText` | LocalAIApp/MainWindow.xaml.cs:126 | after a cycle that streamed to the end, the answer is non-blank (so the copy button can show) exactly when some fragment is non-blank |

## Left out

- Window construction, `InitializeComponent`, `DataContext` wiring and native back-end setup (`MainWindow`): these are UI framework and foreign calls.
- `OpenFileDialog`: modelled only by its result, an `Option<string>` that holds the file name when the dialog reports true. `CopyOutput`/`Clipboard.SetText`: this is OS I/O, and the model has no clipboard.
- The engine's internals (`ModelParams` beyond path, GPU layers and context size; `LLamaWeights.LoadFromFileAsync`; `StatelessExecutor.InferAsync`): they are abstracted as the `acquire` and `infer` parameters. Building `ModelParams` inside `Task.Run` is modelled as a step that cannot fail. Building the executor is modelled the same way.
- `GetResponse`/`AsChatClient`: this is a completion call into the external library, and nothing in the file calls it.
- The sampling temperature 0.4 is a float passed straight to the engine, so the model has no temperature. `Stopwatch` timing, `Debug.WriteLine` and `GC.SuppressFinalize` are also left out.
- `async`/`await`, `Task.Run` and `IAsyncEnumerable` scheduling: each Ask runs as one sequential step. Interleaving with other UI events is not modelled.
- `PropertyChanged` subscribers: the log records every notification raised. Handlers that re-read properties, or the absence of a subscriber, are not modelled.
- `RelayCommand`: its `CanExecute` is always true and `Execute` forwards the call, so `Ask` has no precondition on the busy flag.
- The `AnswerBox` setter does not raise `CopyButtonVisibility`, although that property reads the answer. The model keeps this as the code has it. In `Ask`, the final `IsProcessing` change raises it (see `CycleEvents`).
- Reference identity and null for strings: strings are values, and the C# fields are never null here.
