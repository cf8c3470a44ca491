/**
 * The non-rendering logic of `src/App.tsx`: the component's independent
 * `useState` hooks gathered into one immutable record, and each user action
 * a pure transition from one record to the next.
 *
 * Outside influences are parameters: the stream of `Math.random()` draws, the
 * webcam screenshot, the outcome of the inference call and the string
 * function `toUpperCase`.
 */
module App {
  import opened Wrappers

  /** The bundled sample images the random button cycles through. */
  const ImageList: seq<string> := ["strawberry.jpg", "cat.jpg", "moon.jpg", "microphone.jpg"]

  const NoImageMessage: string := "Please select an image first."
  const InferenceErrorMessage: string := "Error during inference"
  const InferencingLabel: string := "Inferencing..."

  /**
   * The component's state. `resultConfidence` and `inferenceTime` are shown
   * as the empty string when `None`; `Some(t)` of `inferenceTime` is shown as
   * "Inference speed: t seconds".
   */
  datatype State = State(
    image: Option<string>,
    imageIndex: int,
    isCaptureEnable: bool,
    resultLabel: string,
    resultConfidence: Option<real>,
    inferenceTime: Option<real>,
    error: Option<string>)

  /** The state after the hooks' initial values. */
  function Init(): State
  {
    State(None, 0, false, "", None, None, None)
  }

  /** One entry of the ranked list the model returns. */
  datatype Prediction = Prediction(name: string, probability: real)

  /** What the awaited inference call did: returned predictions and a duration, or threw. */
  datatype Inference = Returned(predictions: seq<Prediction>, seconds: real) | Threw

  /** The fields of `State`, for stating which of them a transition may change. */
  datatype Field = ImageField | IndexField | CaptureField | LabelField | ConfidenceField | TimeField | ErrorField

  /** `s` and `t` agree on field `f`. */
  predicate Keeps(s: State, t: State, f: Field)
  {
    match f
    case ImageField => s.image == t.image
    case IndexField => s.imageIndex == t.imageIndex
    case CaptureField => s.isCaptureEnable == t.isCaptureEnable
    case LabelField => s.resultLabel == t.resultLabel
    case ConfidenceField => s.resultConfidence == t.resultConfidence
    case TimeField => s.inferenceTime == t.inferenceTime
    case ErrorField => s.error == t.error
  }

  /** Going from `s` to `t` changes no field outside `fs`. */
  predicate OnlyChanges(s: State, t: State, fs: set<Field>)
  {
    forall f :: f !in fs ==> Keeps(s, t, f)
  }

  /** JavaScript truthiness of a `string | null`: neither null nor the empty string. */
  predicate Truthy(v: Option<string>)
  {
    v.Some? && v.value != ""
  }

  /** `capture`: a non-empty screenshot becomes the image; nothing else changes. */
  function Capture(s: State, screenshot: Option<string>): (r: State)
    ensures Truthy(screenshot) ==> r.image == screenshot
    ensures !Truthy(screenshot) ==> r == s
    ensures OnlyChanges(s, r, {ImageField})
  {
    if Truthy(screenshot) then s.(image := screenshot) else s
  }

  /** `chooseImage`: leaves capture mode; opening the file dialog changes no state. */
  function ChooseImage(s: State): (r: State)
    ensures !r.isCaptureEnable
    ensures OnlyChanges(s, r, {CaptureField})
  {
    s.(isCaptureEnable := false)
  }

  /** `handleFileChange`: leaves capture mode whether or not a file was picked. */
  function HandleFileChange(s: State): (r: State)
    ensures !r.isCaptureEnable
    ensures OnlyChanges(s, r, {CaptureField})
  {
    s.(isCaptureEnable := false)
  }

  /** The `onload` handler of the file reader: the data URL read becomes the image. */
  function FileLoaded(s: State, dataUrl: string): (r: State)
    ensures r.image == Some(dataUrl)
    ensures OnlyChanges(s, r, {ImageField})
  {
    s.(image := Some(dataUrl))
  }

  /** `Math.floor(d * n)` for a draw `d` of `Math.random()`: an index below `n`. */
  function Draw(d: real, n: nat): (k: int)
    requires 0.0 <= d < 1.0 && n > 0
    ensures 0 <= k < n
  {
    DrawBelow(d, n);
    (d * n as real).Floor
  }

  /** A draw in [0, 1) scaled by `n` stays below `n`. */
  lemma DrawBelow(d: real, n: nat)
    requires 0.0 <= d < 1.0 && n > 0
    ensures 0.0 <= d * n as real < n as real
  {
  }

  /** Every draw lies in [0, 1), as `Math.random()` promises. */
  predicate Draws(draws: seq<real>)
  {
    forall i :: 0 <= i < |draws| ==> 0.0 <= draws[i] < 1.0
  }

  /**
   * Draw `i` is the first whose index differs from `current`: the loop of
   * `setRandomImage` stops there.
   */
  predicate FirstOther(draws: seq<real>, n: nat, current: int, i: int)
    requires Draws(draws) && n > 0
  {
    && 0 <= i < |draws|
    && Draw(draws[i], n) != current
    && forall j :: 0 <= j < i ==> Draw(draws[j], n) == current
  }

  /**
   * The retry loop of `setRandomImage`: the index of the first draw that
   * differs from `current`, or `None` if the loop is still spinning when the
   * draws run out.
   */
  function PickIndex(draws: seq<real>, n: nat, current: int): (r: Option<int>)
    requires Draws(draws) && n > 0
    ensures r.Some? ==> 0 <= r.value < n && r.value != current
    ensures r.Some? ==> exists i :: FirstOther(draws, n, current, i) && r.value == Draw(draws[i], n)
    ensures r.None? <==> forall i :: 0 <= i < |draws| ==> Draw(draws[i], n) == current
    decreases |draws|
  {
    if |draws| == 0 then None
    else
      var k := Draw(draws[0], n);
      if k != current then
        assert FirstOther(draws, n, current, 0);
        Some(k)
      else
        var rest := PickIndex(draws[1..], n, current);
        assert forall i :: 1 <= i < |draws| ==> draws[i] == draws[1..][i - 1];
        PickAfterRepeat(draws, n, current, rest);
        rest
  }

  /** The index picked from the rest of the stream is the index picked from the whole stream. */
  lemma PickAfterRepeat(draws: seq<real>, n: nat, current: int, rest: Option<int>)
    requires Draws(draws) && n > 0 && |draws| > 0 && Draw(draws[0], n) == current
    requires rest.Some? ==> exists i :: FirstOther(draws[1..], n, current, i) && rest.value == Draw(draws[1..][i], n)
    ensures rest.Some? ==> exists i :: FirstOther(draws, n, current, i) && rest.value == Draw(draws[i], n)
  {
  }

  /**
   * `setRandomImage(imageIndex)`: the sample named by the first draw that
   * differs from the current index is shown and capture mode is left; `None`
   * when the retry loop has not ended within the given draws.
   */
  function SetRandomImage(s: State, draws: seq<real>): (r: Option<State>)
    requires Draws(draws)
    ensures r.Some? ==> 0 <= r.value.imageIndex < |ImageList| && r.value.imageIndex != s.imageIndex
    ensures r.Some? ==> r.value.image == Some(ImageList[r.value.imageIndex])
    ensures r.Some? ==> !r.value.isCaptureEnable
    ensures r.Some? ==> OnlyChanges(s, r.value, {ImageField, IndexField, CaptureField})
    ensures r.Some? ==> exists i ::
      FirstOther(draws, |ImageList|, s.imageIndex, i) && r.value.imageIndex == Draw(draws[i], |ImageList|)
    ensures r.None? <==> forall i :: 0 <= i < |draws| ==> Draw(draws[i], |ImageList|) == s.imageIndex
  {
    match PickIndex(draws, |ImageList|, s.imageIndex)
    case None => None
    case Some(k) => Some(s.(isCaptureEnable := false, imageIndex := k, image := Some(ImageList[k])))
  }

  /**
   * The synchronous part of `classifyImage`, up to the awaited inference
   * call: without an image only the error is set; with one the result is
   * replaced by the "Inferencing..." placeholder and the error is cleared.
   */
  function BeginClassify(s: State): (r: State)
    ensures !Truthy(s.image) ==> r.error == Some(NoImageMessage) && OnlyChanges(s, r, {ErrorField})
    ensures Truthy(s.image) ==>
      && r.resultLabel == InferencingLabel && r.resultConfidence.None? && r.inferenceTime.None?
      && r.error.None?
      && OnlyChanges(s, r, {LabelField, ConfidenceField, TimeField, ErrorField})
  {
    if !Truthy(s.image) then s.(error := Some(NoImageMessage))
    else s.(resultLabel := InferencingLabel, resultConfidence := None, inferenceTime := None, error := None)
  }

  /**
   * The part of `classifyImage` after the inference call: the top prediction
   * is shown with its probability and the duration; a throw, including the
   * one from reading the top entry of an empty list, sets the error only.
   */
  function FinishClassify(s: State, outcome: Inference, upper: string -> string): (r: State)
    ensures outcome.Returned? && |outcome.predictions| > 0 ==>
      && r.resultLabel == upper(outcome.predictions[0].name)
      && r.resultConfidence == Some(outcome.predictions[0].probability)
      && r.inferenceTime == Some(outcome.seconds)
      && OnlyChanges(s, r, {LabelField, ConfidenceField, TimeField})
    ensures outcome.Threw? || |outcome.predictions| == 0 ==>
      r.error == Some(InferenceErrorMessage) && OnlyChanges(s, r, {ErrorField})
  {
    match outcome
    case Returned(predictions, seconds) =>
      if |predictions| == 0 then s.(error := Some(InferenceErrorMessage))
      else
        var top := predictions[0];
        s.(resultLabel := upper(top.name), resultConfidence := Some(top.probability), inferenceTime := Some(seconds))
    case Threw => s.(error := Some(InferenceErrorMessage))
  }

  /** The state once `classifyImage` has finished, given the outcome of the inference call. */
  function ClassifyImage(s: State, outcome: Inference, upper: string -> string): (r: State)
    ensures OnlyChanges(s, r, {LabelField, ConfidenceField, TimeField, ErrorField})
    ensures !Truthy(s.image) ==> r.error == Some(NoImageMessage) && OnlyChanges(s, r, {ErrorField})
    ensures Truthy(s.image) && outcome.Returned? && |outcome.predictions| > 0 ==>
      && r.resultLabel == upper(outcome.predictions[0].name)
      && r.resultConfidence == Some(outcome.predictions[0].probability)
      && r.inferenceTime == Some(outcome.seconds)
      && r.error.None?
    ensures Truthy(s.image) && (outcome.Threw? || |outcome.predictions| == 0) ==>
      && r.resultLabel == InferencingLabel && r.resultConfidence.None? && r.inferenceTime.None?
      && r.error == Some(InferenceErrorMessage)
  {
    if !Truthy(s.image) then BeginClassify(s) else FinishClassify(BeginClassify(s), outcome, upper)
  }

  /** The "take picture" button: enters capture mode. */
  function EnableCapture(s: State): (r: State)
    ensures r.isCaptureEnable
    ensures OnlyChanges(s, r, {CaptureField})
  {
    s.(isCaptureEnable := true)
  }

  /** The "Cancel" button of capture mode: leaves it. */
  function CancelCapture(s: State): (r: State)
    ensures !r.isCaptureEnable
    ensures OnlyChanges(s, r, {CaptureField})
  {
    s.(isCaptureEnable := false)
  }

  /** The states the application can be in: the index names a sample, and the result fields come together. */
  predicate Valid(s: State)
  {
    && 0 <= s.imageIndex < |ImageList|
    && (s.resultConfidence.Some? <==> s.inferenceTime.Some?)
    && (s.error.Some? ==> s.error.value == NoImageMessage || s.error.value == InferenceErrorMessage)
  }

  /** A user action, with what the outside world contributes to it. */
  datatype Action =
    | RandomImage(draws: seq<real>)
    | Choose
    | StartCapture
    | StopCapture
    | FileChange
    | FileRead(dataUrl: string)
    | TakeScreenshot(screenshot: Option<string>)
    | Classify(outcome: Inference)

  predicate WellFormed(a: Action)
  {
    a.RandomImage? ==> Draws(a.draws)
  }

  /**
   * The state after action `a`, or `None` when the retry loop of a random
   * image has not ended within the action's draws.
   */
  function Step(s: State, a: Action, upper: string -> string): Option<State>
    requires WellFormed(a)
  {
    match a
    case RandomImage(draws) => SetRandomImage(s, draws)
    case Choose => Some(ChooseImage(s))
    case StartCapture => Some(EnableCapture(s))
    case StopCapture => Some(CancelCapture(s))
    case FileChange => Some(HandleFileChange(s))
    case FileRead(dataUrl) => Some(FileLoaded(s, dataUrl))
    case TakeScreenshot(screenshot) => Some(Capture(s, screenshot))
    case Classify(outcome) => Some(ClassifyImage(s, outcome, upper))
  }

  /** Runs actions in order; `None` once a random-image loop has not ended within its draws. */
  function Run(s: State, actions: seq<Action>, upper: string -> string): Option<State>
    requires forall i :: 0 <= i < |actions| ==> WellFormed(actions[i])
    decreases |actions|
  {
    if |actions| == 0 then Some(s)
    else
      match Step(s, actions[0], upper)
      case None => None
      case Some(t) => Run(t, actions[1..], upper)
  }

  lemma InitValid()
    ensures Valid(Init())
  {
  }

  /** Every action that returns keeps the state valid. */
  lemma StepPreservesValid(s: State, a: Action, upper: string -> string)
    requires Valid(s) && WellFormed(a)
    ensures Step(s, a, upper).Some? ==> Valid(Step(s, a, upper).value)
  {
  }

  /** Every state reached from a valid one by actions that all return is valid. */
  lemma {:induction false} RunPreservesValid(s: State, actions: seq<Action>, upper: string -> string)
    requires Valid(s)
    requires forall i :: 0 <= i < |actions| ==> WellFormed(actions[i])
    ensures Run(s, actions, upper).Some? ==> Valid(Run(s, actions, upper).value)
    decreases |actions|
  {
    if |actions| > 0 {
      StepPreservesValid(s, actions[0], upper);
      match Step(s, actions[0], upper)
      case None =>
      case Some(t) =>
        assert forall i :: 0 <= i < |actions[1..]| ==> actions[1..][i] == actions[i + 1];
        RunPreservesValid(t, actions[1..], upper);
    }
  }

  /** With a single sample the retry loop of `setRandomImage(0)` never ends, whatever the draws. */
  lemma SingleImageNeverSettles(draws: seq<real>)
    requires Draws(draws)
    ensures PickIndex(draws, 1, 0).None?
  {
  }

  /**
   * With two or more samples the retry loop can end: some single draw picks
   * an index other than the current one.
   */
  lemma SeveralImagesCanSettle(n: nat, current: int)
    requires n >= 2
    ensures exists d :: 0.0 <= d < 1.0 && PickIndex([d], n, current).Some?
  {
    if current == 0 {
      assert Draw(0.5, n) >= 1 by {
        assert 0.5 * n as real >= 1.0;
      }
      assert PickIndex([0.5], n, current).Some?;
    } else {
      assert Draw(0.0, n) == 0;
      assert PickIndex([0.0], n, current).Some?;
    }
  }

  /**
   * The index starts at 0 while no image is shown, so the first random image
   * is never the first sample.
   */
  lemma FirstRandomSkipsFirstSample(draws: seq<real>)
    requires Draws(draws)
    ensures SetRandomImage(Init(), draws).Some? ==> SetRandomImage(Init(), draws).value.image != Some(ImageList[0])
  {
  }

  /** Probabilities ranked from most to least likely, as the model returns them. */
  predicate RankedDescending(ps: seq<Prediction>)
  {
    forall i :: 0 <= i < |ps| - 1 ==> ps[i].probability >= ps[i + 1].probability
  }

  /** In a descending ranking the first entry is at least as likely as every other. */
  lemma {:induction false} FirstIsMostLikely(ps: seq<Prediction>, j: nat)
    requires RankedDescending(ps) && j < |ps|
    ensures ps[0].probability >= ps[j].probability
    decreases j
  {
    if j > 0 {
      FirstIsMostLikely(ps, j - 1);
    }
  }

  /** A successful classification of a ranked list shows the highest probability. */
  lemma ShownConfidenceIsMaximal(s: State, outcome: Inference, upper: string -> string)
    requires Truthy(s.image) && outcome.Returned? && |outcome.predictions| > 0
    requires RankedDescending(outcome.predictions)
    ensures var r := ClassifyImage(s, outcome, upper);
      forall j :: 0 <= j < |outcome.predictions| ==>
        r.resultConfidence.Some? && r.resultConfidence.value >= outcome.predictions[j].probability
  {
    forall j | 0 <= j < |outcome.predictions|
      ensures outcome.predictions[0].probability >= outcome.predictions[j].probability
    {
      FirstIsMostLikely(outcome.predictions, j);
    }
  }
}
