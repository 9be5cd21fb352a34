/** MainWindowVM: bindable properties whose setters store a value and raise a fixed list
    of property-changed notifications, three derived display properties, the model-file
    command and the Ask cycle. */
module ViewModel {
  import opened Wrappers
  import opened Text
  import opened Session

  /** WPF's Visibility. */
  datatype Visibility = Visible | Hidden | Collapsed

  /** The backing fields of the view-model. */
  datatype VMFields = VMFields(
    modelPath: string,
    gpuLayerCount: int32,
    contextSize: uint32,
    applyTemplate: bool,
    systemPrompt: string,
    isProcessing: bool,
    questionBox: string,
    answerBox: string)

  const DefaultSystemPrompt := "You're a prompt compressor specialist. Your objective is get the prompt provided by the user and making it small but keeping its intent. The prompt will be used for another LLM, so make explicit the \"you're\". Just return the compressed prompt, nothing more around it."

  const InitialFields := VMFields("", 14, 2048, true, DefaultSystemPrompt, false, "", "")

  // The notifications each setter raises, in order.
  const ModelPathEvents: seq<string> := ["ModelPath", "EnableAskButton"]
  const GPULayerCountEvents: seq<string> := ["GPULayerCount"]
  const ContextSizeEvents: seq<string> := ["ContextSize"]
  const ApplyTemplateEvents: seq<string> := ["ApplyTemplate"]
  const SystemPromptEvents: seq<string> := ["SystemPrompt", "EnableAskButton"]
  const IsProcessingEvents: seq<string> := ["IsProcessing", "EnableButtons", "EnableAskButton", "CopyButtonVisibility"]
  const QuestionBoxEvents: seq<string> := ["QuestionBox", "EnableAskButton"]
  const AnswerBoxEvents: seq<string> := ["AnswerBox"]

  /** One Ask cycle in terms of the session: the session after LoadModel, the fragments
      appended to the answer, and the message of the exception that ended it, if any. */
  datatype Cycle = Cycle(session: SessionState, appended: seq<string>, failure: Option<string>)

  function RunCycle(s: SessionState, c: ModelConfig, question: string,
                    acquire: ModelParams -> Result<nat, string>, infer: Inference -> Stream): Cycle
  {
    var (t, loaded) := LoadState(s, c, acquire);
    if loaded.Fail? then Cycle(t, [], Some(loaded.error))
    else
      match ChatRequest(t, question)
      case Failure(msg) => Cycle(t, [], Some(msg))
      case Success(req) => Cycle(t, infer(req).fragments, infer(req).failure)
  }

  /** The answer shown after a cycle: the exception message, or the streamed text. */
  function AnswerOf(cy: Cycle): string
  {
    if cy.failure.Some? then cy.failure.value else Concat(cy.appended)
  }

  /** The notifications of a cycle: clear the answer, go busy, one per fragment, one for
      the exception message, go idle. */
  function CycleEvents(cy: Cycle): seq<string>
  {
    AnswerBoxEvents + IsProcessingEvents + ResponseEvents(cy) + IsProcessingEvents
  }

  /** The notifications raised between going busy and going idle. */
  function ResponseEvents(cy: Cycle): seq<string>
  {
    Repeat("AnswerBox", |cy.appended|) + (if cy.failure.Some? then AnswerBoxEvents else [])
  }

  /** A cycle that loads new weights and streams to the end shows the fragments the engine
      produced for the framed question, concatenated in order; one whose stream throws
      shows only the exception message, whatever was streamed before. */
  lemma FreshCycleAnswer(s: SessionState, c: ModelConfig, question: string,
                         acquire: ModelParams -> Result<nat, string>, infer: Inference -> Stream)
    requires s.config != Some(c) && acquire(ParamsOf(c)).Success?
    ensures var w := Weights(acquire(ParamsOf(c)).value, ParamsOf(c));
      var st := infer(Inference(ExecutorFor(w, c), FramePrompt(c, question), MaxTokens));
      var cy := RunCycle(s, c, question, acquire, infer);
      && cy.session.weights == Some(w)
      && (st.failure.None? ==> AnswerOf(cy) == Concat(st.fragments) && cy.appended == st.fragments)
      && (st.failure.Some? ==> AnswerOf(cy) == st.failure.value)
  {
  }

  /** Any failure in a cycle, whether loading, framing or streaming, replaces the answer
      with its message. */
  lemma FailureReplacesAnswer(cy: Cycle)
    requires cy.failure.Some?
    ensures AnswerOf(cy) == cy.failure.value
    ensures CycleEvents(cy)[|CycleEvents(cy)| - 5..] == AnswerBoxEvents + IsProcessingEvents
  {
  }

  /** A whole Ask cycle keeps the session invariant, so at most one model stays resident. */
  lemma CyclePreservesValid(s: SessionState, c: ModelConfig, question: string,
                            acquire: ModelParams -> Result<nat, string>, infer: Inference -> Stream)
    requires Valid(s)
    ensures Valid(RunCycle(s, c, question, acquire, infer).session)
    ensures |Resident(RunCycle(s, c, question, acquire, infer).session.log)| <= 1
  {
    LoadPreservesValid(s, c, acquire);
    AtMostOneResident(RunCycle(s, c, question, acquire, infer).session);
  }

  /** A cycle that loads weights and then one more with the same config: the second makes no
      load or release call and streams from the executor built by the first. */
  lemma {:induction false} RepeatedAskReusesModel(s: SessionState, c: ModelConfig, q1: string, q2: string,
                                 a1: ModelParams -> Result<nat, string>, a2: ModelParams -> Result<nat, string>,
                                 infer: Inference -> Stream)
    requires Valid(s) && LoadState(s, c, a1).1.Pass? && LoadState(s, c, a1).0.executor.Some?
    ensures var first := RunCycle(s, c, q1, a1, infer);
      var second := RunCycle(first.session, c, q2, a2, infer);
      var req := Inference(first.session.executor.value, FramePrompt(c, q2), MaxTokens);
      && second.session == first.session
      && second.appended == infer(req).fragments
      && second.failure == infer(req).failure
  {
    var first := RunCycle(s, c, q1, a1, infer);
    SecondLoadIsNoop(s, c, a1, a2);
    LoadPreservesValid(s, c, a1);
    ChatOnValidSession(first.session, q2);
  }

  /** After a cycle whose load failed, every later cycle with the same config answers with
      the NullReferenceException message and makes no engine call. */
  lemma {:induction false} FailedLoadBlocksLaterAsks(s: SessionState, c: ModelConfig, q1: string, q2: string,
                                    a1: ModelParams -> Result<nat, string>, a2: ModelParams -> Result<nat, string>,
                                    infer: Inference -> Stream)
    requires s.config != Some(c) && a1(ParamsOf(c)).Failure?
    ensures var first := RunCycle(s, c, q1, a1, infer);
      var second := RunCycle(first.session, c, q2, a2, infer);
      && AnswerOf(first) == a1(ParamsOf(c)).error
      && second.session == first.session
      && AnswerOf(second) == NullReferenceMessage
  {
    FailedLoadIsSticky(s, c, a1, a2, q2);
  }

  /** After a cycle that streamed to the end, the copy button shows exactly when some
      fragment is non-blank. */
  lemma CompletedAnswerHasText(cy: Cycle)
    requires cy.failure.None?
    ensures HasText(AnswerOf(cy)) <==> exists i | 0 <= i < |cy.appended| :: HasText(cy.appended[i])
  {
    ConcatBlank(cy.appended);
  }

  class MainWindowVM {
    var modelPath: string
    var gpuLayerCount: int32
    var contextSize: uint32
    var applyTemplate: bool
    var systemPrompt: string
    var isProcessing: bool
    var questionBox: string
    var answerBox: string
    /** The PropertyChanged notifications raised so far, oldest first. */
    var events: seq<string>
    const model: LLMModel

    function Fields(): VMFields
      reads this
    {
      VMFields(modelPath, gpuLayerCount, contextSize, applyTemplate, systemPrompt, isProcessing, questionBox, answerBox)
    }

    /** The LLMModelConfig record Ask builds from the current settings. */
    function Config(): ModelConfig
      reads this
    {
      ModelConfig(modelPath, systemPrompt, gpuLayerCount, contextSize, applyTemplate)
    }

    function EnableButtons(): bool
      reads this
    {
      !isProcessing
    }

    function EnableAskButton(): (r: bool)
      reads this
      ensures r <==> !isProcessing && HasText(modelPath) && HasText(systemPrompt) && HasText(questionBox)
    {
      EnableButtons()
      && !IsNullOrWhiteSpace(modelPath)
      && !IsNullOrWhiteSpace(systemPrompt)
      && !IsNullOrWhiteSpace(questionBox)
    }

    function CopyButtonVisibility(): (v: Visibility)
      reads this
      ensures v != Hidden
      ensures v == Visible <==> !isProcessing && HasText(answerBox)
    {
      if isProcessing || IsNullOrWhiteSpace(answerBox) then Collapsed else Visible
    }

    constructor ()
      ensures Fields() == InitialFields && events == []
      ensures fresh(model) && model.State() == Initial
    {
      modelPath, gpuLayerCount, contextSize, applyTemplate := "", 14, 2048, true;
      systemPrompt, isProcessing, questionBox, answerBox := DefaultSystemPrompt, false, "", "";
      events := [];
      model := new LLMModel();
    }

    method SetModelPath(value: string)
      modifies this
      ensures Fields() == old(Fields()).(modelPath := value)
      ensures events == old(events) + ModelPathEvents
    {
      modelPath := value;
      events := events + ModelPathEvents;
    }

    method SetGPULayerCount(value: int32)
      modifies this
      ensures Fields() == old(Fields()).(gpuLayerCount := value)
      ensures events == old(events) + GPULayerCountEvents
    {
      gpuLayerCount := value;
      events := events + GPULayerCountEvents;
    }

    method SetContextSize(value: uint32)
      modifies this
      ensures Fields() == old(Fields()).(contextSize := value)
      ensures events == old(events) + ContextSizeEvents
    {
      contextSize := value;
      events := events + ContextSizeEvents;
    }

    method SetApplyTemplate(value: bool)
      modifies this
      ensures Fields() == old(Fields()).(applyTemplate := value)
      ensures events == old(events) + ApplyTemplateEvents
    {
      applyTemplate := value;
      events := events + ApplyTemplateEvents;
    }

    method SetSystemPrompt(value: string)
      modifies this
      ensures Fields() == old(Fields()).(systemPrompt := value)
      ensures events == old(events) + SystemPromptEvents
    {
      systemPrompt := value;
      events := events + SystemPromptEvents;
    }

    method SetIsProcessing(value: bool)
      modifies this
      ensures Fields() == old(Fields()).(isProcessing := value)
      ensures events == old(events) + IsProcessingEvents
    {
      isProcessing := value;
      events := events + IsProcessingEvents;
    }

    method SetQuestionBox(value: string)
      modifies this
      ensures Fields() == old(Fields()).(questionBox := value)
      ensures events == old(events) + QuestionBoxEvents
    {
      questionBox := value;
      events := events + QuestionBoxEvents;
    }

    method SetAnswerBox(value: string)
      modifies this
      ensures Fields() == old(Fields()).(answerBox := value)
      ensures events == old(events) + AnswerBoxEvents
    {
      answerBox := value;
      events := events + AnswerBoxEvents;
    }

    /** The model-file command; `dialog` is the file name when the dialog reports true. */
    method LoadModel(dialog: Option<string>)
      modifies this
      ensures dialog.Some? ==> Fields() == old(Fields()).(modelPath := dialog.value) && events == old(events) + ModelPathEvents
      ensures dialog.None? ==> Fields() == old(Fields()) && events == old(events)
    {
      if dialog.Some? {
        SetModelPath(dialog.value);
      }
    }

    /** The `await foreach` loop of Ask: each fragment is appended to the answer through the
        AnswerBox setter. */
    method AppendFragments(fragments: seq<string>)
      modifies this
      ensures Fields() == old(Fields()).(answerBox := old(answerBox) + Concat(fragments))
      ensures events == old(events) + Repeat("AnswerBox", |fragments|)
    {
      ghost var f0, e0, a0 := Fields(), events, answerBox;
      var i := 0;
      while i < |fragments|
        invariant 0 <= i <= |fragments|
        invariant answerBox == a0 + Concat(fragments[..i])
        invariant Fields() == f0.(answerBox := answerBox)
        invariant events == e0 + Repeat("AnswerBox", i)
      {
        ConcatPrefixStep(fragments, i);
        assert Repeat("AnswerBox", i + 1) == Repeat("AnswerBox", i) + ["AnswerBox"];
        SetAnswerBox(answerBox + fragments[i]);
        i := i + 1;
      }
      assert fragments[..i] == fragments;
    }

    /** The `try` and `catch` blocks of Ask, entered with an empty answer: load the model,
        stream the answer, or show the exception message. */
    method Respond(acquire: ModelParams -> Result<nat, string>, infer: Inference -> Stream)
      requires answerBox == ""
      modifies this, model
      ensures var cy := RunCycle(old(model.State()), old(Config()), old(questionBox), acquire, infer);
        && model.State() == cy.session
        && Fields() == old(Fields()).(answerBox := AnswerOf(cy))
        && events == old(events) + ResponseEvents(cy)
    {
      ghost var s0 := model.State();
      ghost var cy := RunCycle(s0, Config(), questionBox, acquire, infer);
      var loaded := model.LoadModel(ModelConfig(modelPath, systemPrompt, gpuLayerCount, contextSize, applyTemplate), acquire);
      if loaded.Fail? {
        SetAnswerBox(loaded.error);
        return;
      }
      var chat := model.Chat(questionBox);
      if chat.Failure? {
        SetAnswerBox(chat.error);
        return;
      }
      var stream := infer(chat.value);
      assert cy == Cycle(model.State(), stream.fragments, stream.failure);
      AppendFragments(stream.fragments);
      if stream.failure.Some? {
        SetAnswerBox(stream.failure.value);
      }
    }

    method Ask(acquire: ModelParams -> Result<nat, string>, infer: Inference -> Stream)
      modifies this, model
      ensures var cy := RunCycle(old(model.State()), old(Config()), old(questionBox), acquire, infer);
        && model.State() == cy.session
        && Fields() == old(Fields()).(answerBox := AnswerOf(cy), isProcessing := false)
        && events == old(events) + CycleEvents(cy)
    {
      SetAnswerBox("");
      SetIsProcessing(true);
      assert Config() == old(Config()) && questionBox == old(questionBox);
      Respond(acquire, infer);
      SetIsProcessing(false);
    }
  }

  /** EnableAskButton reads nothing but the busy flag, the model path, the system prompt and
      the question. */
  lemma EnableAskButtonDependsOnlyOnItsInputs(a: MainWindowVM, b: MainWindowVM)
    requires a.isProcessing == b.isProcessing && a.modelPath == b.modelPath
    requires a.systemPrompt == b.systemPrompt && a.questionBox == b.questionBox
    ensures a.EnableAskButton() == b.EnableAskButton()
  {
  }

  /** The derived properties a setter does not announce cannot change through it: the
      setters other than IsProcessing and AnswerBox leave EnableButtons and
      CopyButtonVisibility alone. */
  lemma UnannouncedDerivedUnchanged(a: MainWindowVM, b: MainWindowVM)
    requires a.isProcessing == b.isProcessing && a.answerBox == b.answerBox
    ensures a.EnableButtons() == b.EnableButtons()
    ensures a.CopyButtonVisibility() == b.CopyButtonVisibility()
  {
  }

  /** EnableButtons is the negated busy flag, so only the IsProcessing setter, which
      announces it, can change it; and the Ask button is on only when the buttons are. */
  lemma EnableButtonsFollowsBusyFlag(vm: MainWindowVM)
    ensures vm.EnableButtons() <==> !vm.isProcessing
    ensures vm.EnableAskButton() ==> vm.EnableButtons()
  {
  }

  /** The Ask button is off in a fresh window, since the model path starts empty. */
  lemma InitiallyCannotAsk(vm: MainWindowVM)
    requires vm.Fields() == InitialFields
    ensures !vm.EnableAskButton() && vm.CopyButtonVisibility() == Collapsed
  {
  }
}
