/** The controller of the identifier page: the record it keeps (machine state,
    model handle, image URL, classification results), the user actions that
    update it, and the per-state button. Every action dispatches only "next";
    the awaited model load and classification are split into a start step and
    a finish step that receives the awaited value. */
module Controller {
  import opened Wrappers
  import opened StateMachine

  /** The handle the classifier library returns from loading; opaque here. */
  datatype ModelHandle = ModelHandle(id: nat)

  /** A file chosen in the file input. */
  datatype File = File(name: string)

  /** The object URL the browser mints for a chosen file; opaque here beyond
      remembering which file it points at. */
  datatype Url = ObjectUrl(file: File)

  /** One ranked prediction, as the classifier returns it. */
  datatype Prediction = Prediction(className: string, probability: real)

  /** The controller's record: the reducer's state and the three pieces of
      component state. */
  datatype App = App(state: State, model: Option<ModelHandle>, imageUrl: Option<Url>, results: seq<Prediction>)

  /** The record when the page mounts: initial state, no model, no image, no
      results. */
  const Start: App := App(InitialState, None, None, [])

  /** `next()`: dispatch "next" to the reducer. */
  function Advance(a: App): App {
    a.(state := Reduce(a.state, Next))
  }

  /** First half of loading the model: dispatch "next" before awaiting the
      library; only the state moves. */
  function LoadModelStart(a: App): (r: App)
    ensures r == a.(state := Successor(a.state))
    ensures a.state == Initial ==> r.state == LoadingModel
  {
    Advance(a)
  }

  /** Second half of loading the model: store the handle the library
      resolved to, then dispatch "next"; image and results are untouched. */
  function LoadModelFinish(a: App, m: ModelHandle): (r: App)
    ensures r.model == Some(m)
    ensures r.state == Successor(a.state)
    ensures r.imageUrl == a.imageUrl && r.results == a.results
    ensures a.state == LoadingModel ==> r.state == AwaitingUpload
  {
    Advance(a.(model := Some(m)))
  }

  /** The file input's change handler. It is not guarded by the state: with
      no file chosen nothing changes; otherwise the URL of the first file is
      stored and the state takes exactly one "next" step, whatever it was. */
  function HandleUpload(a: App, files: seq<File>): (r: App)
    ensures |files| == 0 ==> r == a
    ensures |files| > 0 ==> r.imageUrl == Some(ObjectUrl(files[0]))
    ensures |files| > 0 ==> r.state == Successor(a.state)
    ensures r.model == a.model && r.results == a.results
  {
    if |files| > 0 then Advance(a.(imageUrl := Some(ObjectUrl(files[0])))) else a
  }

  /** First half of identifying the breed: dispatch "next" before awaiting
      the classifier; only the state moves. */
  function IdentifyStart(a: App): (r: App)
    ensures r == a.(state := Successor(a.state))
    ensures a.state == Ready ==> r.state == Classifying
  {
    Advance(a)
  }

  /** Second half of identifying the breed: store the ranked predictions the
      classifier resolved to, in its order, then dispatch "next". */
  function IdentifyFinish(a: App, predictions: seq<Prediction>): (r: App)
    ensures r.results == predictions
    ensures r.state == Successor(a.state)
    ensures r.model == a.model && r.imageUrl == a.imageUrl
    ensures a.state == Classifying ==> r.state == Complete && ShowResults(r.state)
  {
    Advance(a.(results := predictions))
  }

  /** Reset: clear the results and the image, then dispatch "next"; the model
      stays loaded. */
  function Reset(a: App): (r: App)
    ensures r.results == [] && r.imageUrl == None
    ensures r.model == a.model
    ensures r.state == Successor(a.state)
    ensures a.state == Complete ==> r.state == AwaitingUpload && !ShowImage(r.state) && !ShowResults(r.state)
  {
    Advance(a.(results := [], imageUrl := None))
  }

  /** What a button press does. */
  datatype Action = LoadModel | DoNothing | OpenFilePicker | Identify | ResetSession

  /** A button: its label and its action. */
  datatype ButtonProps = ButtonProps(text: string, action: Action)

  /** The per-state button table, entry for entry. Every state has one; the two states with
      an awaited call in flight get the inert action, and only they. */
  function Button(s: State): (b: ButtonProps)
    ensures b.action == DoNothing <==> (s == LoadingModel || s == Classifying)
    ensures b.action == LoadModel <==> s == Initial
    ensures b.action == OpenFilePicker <==> s == AwaitingUpload
    ensures b.action == Identify <==> s == Ready
    ensures b.action == ResetSession <==> s == Complete
  {
    match s
    case Initial => ButtonProps("Load Model", LoadModel)
    case LoadingModel => ButtonProps("Loading the Model...", DoNothing)
    case AwaitingUpload => ButtonProps("Upload a an Image", OpenFilePicker)
    case Ready => ButtonProps("Identify Breed", Identify)
    case Classifying => ButtonProps("Identifying the Breed...", DoNothing)
    case Complete => ButtonProps("Reset", ResetSession)
  }

  /** No two states show the same label, so the label tells the user which
      state the session is in. */
  lemma ButtonLabelIdentifiesState(s: State, t: State)
    ensures Button(s).text == Button(t).text <==> s == t
  {
  }

  /** Clicking the button: the synchronous effect of the current state's
      action. Opening the file picker changes nothing by itself; the chosen
      file arrives later through `HandleUpload`. */
  function Press(a: App): (r: App)
    ensures (a.state == LoadingModel || a.state == Classifying) ==> r == a
    ensures a.state == AwaitingUpload ==> r == a
    ensures a.state == Initial ==> r == a.(state := LoadingModel)
    ensures a.state == Ready ==> r == a.(state := Classifying)
    ensures a.state == Complete ==> r == App(AwaitingUpload, a.model, None, [])
  {
    match Button(a.state).action
    case LoadModel => LoadModelStart(a)
    case DoNothing => a
    case OpenFilePicker => a
    case Identify => IdentifyStart(a)
    case ResetSession => Reset(a)
  }

  /** What can happen to the page: a button click, a file chosen, or one of
      the two awaited calls resolving. */
  datatype Input = Click | Upload(files: seq<File>) | ModelLoaded(m: ModelHandle) | Classified(predictions: seq<Prediction>)

  /** The effect of one input on the record. */
  function Step(a: App, i: Input): App {
    match i
    case Click => Press(a)
    case Upload(files) => HandleUpload(a, files)
    case ModelLoaded(m) => LoadModelFinish(a, m)
    case Classified(p) => IdentifyFinish(a, p)
  }

  /** The record after the inputs, in order. */
  function Session(a: App, inputs: seq<Input>): App
    decreases |inputs|
  {
    if inputs == [] then a else Session(Step(a, inputs[0]), inputs[1..])
  }

  /** Every input either leaves the state alone or moves it one table step:
      the controller only ever dispatches "next". */
  lemma StepIsOneTableStep(a: App, i: Input)
    ensures Step(a, i).state == a.state || Step(a, i).state == Successor(a.state)
    ensures a.state != InitialState ==> Step(a, i).state != InitialState
  {
  }

  /** The initial state is never re-entered once left, whatever the inputs. */
  lemma {:induction false} SessionNeverReturnsToInitial(a: App, inputs: seq<Input>)
    requires a.state != InitialState
    ensures Session(a, inputs).state != InitialState
    decreases |inputs|
  {
    if inputs != [] {
      StepIsOneTableStep(a, inputs[0]);
      SessionNeverReturnsToInitial(Step(a, inputs[0]), inputs[1..]);
    }
  }

  /** A loaded model is never dropped: only replaced by a later load. */
  lemma {:induction false} ModelStaysLoaded(a: App, inputs: seq<Input>)
    requires a.model.Some?
    ensures Session(a, inputs).model.Some?
    decreases |inputs|
  {
    if inputs != [] {
      ModelStaysLoaded(Step(a, inputs[0]), inputs[1..]);
    }
  }

  /** Once the upload/identify/results cycle is entered, no input leaves it. */
  lemma {:induction false} SessionStaysInCycle(a: App, inputs: seq<Input>)
    requires InCycle(a.state)
    ensures InCycle(Session(a, inputs).state)
    decreases |inputs|
  {
    if inputs != [] {
      StepIsOneTableStep(a, inputs[0]);
      SessionStaysInCycle(Step(a, inputs[0]), inputs[1..]);
    }
  }

  /** The flow the page is built for: load the model, upload a photo,
      identify it, read the results, reset. */
  lemma HappyPath(m: ModelHandle, f: File, predictions: seq<Prediction>)
    ensures Press(Start).state == LoadingModel && !ShowImage(LoadingModel)
    ensures LoadModelFinish(Press(Start), m).state == AwaitingUpload
    ensures var uploaded := HandleUpload(LoadModelFinish(Press(Start), m), [f]);
      && uploaded.state == Ready && ShowImage(uploaded.state)
      && uploaded.imageUrl == Some(ObjectUrl(f))
    ensures var done := IdentifyFinish(Press(HandleUpload(LoadModelFinish(Press(Start), m), [f])), predictions);
      && done.state == Complete && ShowResults(done.state) && done.results == predictions
      && Press(done) == App(AwaitingUpload, Some(m), None, [])
  {
  }

  /** Because the file input is always on the page, choosing a file while the
      model is still loading takes the state to `awaitingUpload` although no
      model has been stored yet. */
  lemma UploadWhileLoading(a: App, files: seq<File>)
    requires a.state == LoadingModel && a.model == None && |files| > 0
    ensures HandleUpload(a, files).state == AwaitingUpload
    ensures HandleUpload(a, files).model == None
  {
  }

  /** Choosing a file while the results are shown moves back to
      `awaitingUpload` with the new image stored but the old results kept. */
  lemma UploadWhileComplete(a: App, files: seq<File>)
    requires a.state == Complete && |files| > 0
    ensures HandleUpload(a, files).state == AwaitingUpload
    ensures HandleUpload(a, files).results == a.results
    ensures HandleUpload(a, files).imageUrl == Some(ObjectUrl(files[0]))
  {
  }

  /** Choosing a file before loading the model moves the page to
      `loadingModel` although no load was started, and there the button is
      inert. */
  lemma UploadBeforeLoad(f: File)
    ensures Session(Start, [Upload([f])]) == App(LoadingModel, None, Some(ObjectUrl(f)), [])
    ensures Button(LoadingModel).action == DoNothing
  {
  }

  /** Three uploads and a click, with no model ever loaded, reach
      `classifying`: the step in which identification asks a null model to
      classify. */
  lemma ClassifyWithoutModel(f: File)
    ensures var a := Session(Start, [Upload([f]), Upload([f]), Upload([f]), Click]);
      a.state == Classifying && a.model == None
  {
    var inputs := [Upload([f]), Upload([f]), Upload([f]), Click];
    var a1 := HandleUpload(Start, [f]);
    var a2 := HandleUpload(a1, [f]);
    var a3 := HandleUpload(a2, [f]);
    assert a3 == App(Ready, None, Some(ObjectUrl(f)), []);
    assert inputs[1..] == [Upload([f]), Upload([f]), Click];
    assert inputs[1..][1..] == [Upload([f]), Click];
    assert inputs[1..][1..][1..] == [Click];
    assert Session(Start, inputs) == Session(a1, inputs[1..]);
    assert Session(a1, inputs[1..]) == Session(a2, inputs[1..][1..]);
    assert Session(a2, inputs[1..][1..]) == Session(a3, [Click]);
    assert Session(a3, [Click]) == Press(a3);
  }
}
