# Dog-breed identifier: application-flow state machine

A Dafny model of the core of a small React page that loads a pretrained
image classifier, lets the user upload a photo, classifies it and shows the
ranked breed predictions. The page's logic is a six-state machine
(`initial`, `loadingModel`, `awaitingUpload`, `ready`, `classifying`,
`complete`). A declarative table gives each state its successor on the
single event `"next"` and its display flags. A reducer looks events up in
that table and falls back to `initial`. Controller actions update the
page's state and dispatch `"next"`.

- `wrappers.dfy`, module `Wrappers`: `Option`, used for the nullable model handle and image URL.
- `state_machine.dfy`, module `StateMachine`: the states and events, the table (`Machine`), the reducer (`Reduce`), the display flags, and lemmas about iterated and replayed events. The intended flow is written out independently as `Successor`, and the reducer is proved to agree with it.
- `controller.dfy`, module `Controller`: the controller record `App` (state, model handle, image URL, results). It also holds the actions as pure record updates, the per-state button, and lemmas over arbitrary sequences of page inputs.

The awaited calls in `loadModel` and `identify` are split in two. A start
step dispatches `"next"`. A finish step receives the awaited value (the
model handle, or the predictions) as a parameter, stores it and dispatches
`"next"` again.

Two behaviours of the table worth noting:
- `classifying` (src/App.js:12) sets no `showImage`, so the image is hidden
  while classifying.
- `"next"` is defined in every state, so two `"next"` events in a row
  advance twice. Only an event other than `"next"` falls back to `initial`.

## Model

| member | source | states |
|---|---|---|
| StateMachine.Reduce | src/App.js:5-22 | on `"next"` the result is the table successor (initial→loadingModel→awaitingUpload→ready→classifying→complete→awaitingUpload); on any other event it is the initial state; the result is always a state of the table |
| StateMachine.TableIsTotal | src/App.js:7-18 | every state has a table entry, and each entry defines exactly the event `"next"` |
| StateMachine.ShowImage | src/App.js:11-17 | the image is shown exactly in `ready` and `complete` (not in `classifying`); a missing flag reads as false |
| StateMachine.ShowResults | src/App.js:13-17 | results are shown exactly in `complete`; a missing flag reads as false |
| StateMachine.ResultsShownWithImage | src/App.js:79 | whenever results are shown the image is too, and the image is hidden while classifying |
| StateMachine.RunEndsInFallback | src/App.js:21-22 | after any history, a final event other than `"next"` lands in `initial` |
| StateMachine.RunAllNext | src/App.js:21-22 | replaying only `"next"` events equals iterating the successor that many times |
| StateMachine.IterateAdd | src/App.js:21-22 | `a` steps then `b` steps equal `a + b` steps |
| StateMachine.IterateLast | src/App.js:21-22 | `n + 1` steps are one step after `n` steps |
| StateMachine.CycleIsClosed | src/App.js:10-14 | from awaitingUpload, ready, classifying or complete, `"next"` never leaves those four states |
| StateMachine.CycleOfFour | src/App.js:10-14 | four `"next"` events bring each of those states back to itself |
| StateMachine.CycleIsExactlyFour | src/App.js:10-14 | one to three `"next"` events never bring such a state back to itself |
| StateMachine.CycleRepeats | src/App.js:10-14 | every multiple of four `"next"` events returns such a state to itself |
| StateMachine.NextNeverReturnsToInitial | src/App.js:8-14 | no positive number of `"next"` events ends in `initial` |
| StateMachine.StartupEntersCycle | src/App.js:8-14 | from `initial`, two or more `"next"` events end inside the four-state cycle |
| StateMachine.Replay | src/App.js:21-22 | applying dispatched events in order gives the replayed state; a final non-`"next"` event gives `initial`; an all-`"next"` history gives the iterated successor |
| Controller.LoadModelStart | src/App.js:38-39 | starting a load changes only the state, by one step: initial→loadingModel |
| Controller.LoadModelFinish | src/App.js:40-42 | finishing a load stores the handle and advances one step (loadingModel→awaitingUpload); image and results are unchanged |
| Controller.HandleUpload | src/App.js:45-52 | with no file the record is unchanged; otherwise the first file's URL is stored and the state advances one step, in any state; model and results are unchanged |
| Controller.IdentifyStart | src/App.js:54-55 | starting identification changes only the state, by one step: ready→classifying |
| Controller.IdentifyFinish | src/App.js:56-58 | finishing identification stores the predictions in the classifier's order and advances (classifying→complete, where results show); model and image are unchanged |
| Controller.Reset | src/App.js:61-65 | reset empties the results and clears the image, keeps the model and advances one step, so from `complete` it reaches `awaitingUpload` with nothing shown |
| Controller.Button | src/App.js:67-77 | every state has a button; the inert action belongs to exactly `loadingModel` and `classifying`, and each other action to exactly one state |
| Controller.ButtonLabelIdentifiesState | src/App.js:67-77 | two states show the same label only if they are the same state |
| Controller.Press | src/App.js:92 | a click is a no-op in `loadingModel`, `classifying` and `awaitingUpload` (there it only opens the picker); it starts a load in `initial`, starts identification in `ready`, and resets in `complete` |
| Controller.StepIsOneTableStep | src/App.js:36 | each page input leaves the state alone or advances it by one table step; none returns to `initial` |
| Controller.SessionNeverReturnsToInitial | src/App.js:36 | once `initial` is left, no sequence of page inputs returns to it |
| Controller.ModelStaysLoaded | src/App.js:30-41 | once a model handle is stored, no sequence of page inputs removes it |
| Controller.HappyPath | src/App.js:36-79 | load, upload, identify and reset pass through loadingModel, awaitingUpload, ready (image shown), classifying, complete (results shown) and back to awaitingUpload, with the model kept and the image and results cleared |
| Controller.UploadWhileLoading | src/App.js:45-52 | choosing a file while the model is still loading reaches `awaitingUpload` with no model stored |
| Controller.SessionStaysInCycle | src/App.js:10-14 | once the page is in awaitingUpload, ready, classifying or complete, no sequence of page inputs leaves those four states |
| Controller.UploadBeforeLoad | src/App.js:45-52 | choosing a file in `initial` reaches `loadingModel` with the image stored but no model and no load started, where the button is inert |
| Controller.ClassifyWithoutModel | src/App.js:54-56 | three uploads then a click from the start reach `classifying` with no model stored, the state in which identification calls `classify` on a null model |
| Controller.UploadWhileComplete | src/App.js:45-52 | choosing a file while results are shown returns to `awaitingUpload` and keeps the old results |

## Left out

- The model library's `load()` and `classify()` calls are asynchronous and external. The handle and the predictions are opaque values passed to the finish steps. A rejected call, such as `classify` on a null model, is modelled by not applying the finish step, so the record stays as the start step left it.
- `URL.createObjectURL` is a browser API. The URL is an opaque value, `ObjectUrl(file)`, that only records which file it was made from.
- `formatResults` formats a probability with floating-point `* 100` and `toFixed(2)`. That formatting is not modelled; a prediction is kept as a label and a `real` probability.
- Clicking the button in `awaitingUpload` opens the native file picker. That is a browser side effect and is modelled as a no-op on the record; the chosen file arrives through `HandleUpload`.
- The action fallback `|| (() => {})` at src/App.js:92 is never used, because every state's entry defines an action.
- React rendering, JSX, refs, `useReducer`/`useState` batching and the stylesheet are not modelled. Two updates made in one handler are treated as applied in source order.
- Async steps interleaving with other user events is not modelled beyond `Controller.Session`. That function accepts any order of inputs, including completions that arrive in a state the page would not be in.
- An unknown state name makes the JavaScript reducer throw. The `State` datatype rules such names out.
- Event names inherited from JavaScript's object prototype, such as `"toString"`, would make the lookup return a function. `Event.Other` stands for every other name, and such an event falls back to `initial`.
