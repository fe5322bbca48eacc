/** The capture-to-result pipeline of the capture screen (`captureImage` and
    `resetError` in app/index.tsx).

    The image picker and the HTTP exchange are not executed: their outcomes
    are inputs (`PickOutcome`, `Response`). A capture is one atomic step that
    produces the ordered list of effects the code performs (state setters,
    picker launch, request, store write, navigation); `Apply` folds those
    effects onto the observable `World`. `Expected` is an independent case
    table of what a capture must achieve, and `EffectsMeetExpected` proves
    that the effect list achieves exactly that. */
module CaptureFlow {
  import opened Wrappers
  import opened Analysis
  import RequestBody

  /** The two React state variables of the capture screen. */
  datatype State = State(isAnalyzing: bool, error: Option<string>)

  const InitialState: State := State(false, None)

  /** Which picker a button launches. */
  datatype Source = Camera | Library

  /** What the picker call (and, for the camera, the permission request
      before it) ends in: the user cancels, an asset with its URI and
      base64 content, or a thrown error carrying a message ("" when the
      thrown value has no message). */
  datatype PickOutcome =
    | Cancelled
    | Image(uri: string, base64: string)
    | PickThrew(message: string)

  /** What the request ends in: `fetch` or `response.json()` threw, the
      status was not ok (with the body's `message`, if any), or the status
      was ok (with the body's `data.foodAnalysis`, if any). */
  datatype Response =
    | NetThrew(message: string)
    | NotOk(bodyMessage: Option<string>)
    | Ok(foodAnalysis: Option<FoodAnalysis>)

  /** An HTTP request as the client issues it; `payload` is the object whose
      `JSON.stringify` text (`WireBody`) is sent as the body. */
  datatype Request = Request(url: string, httpMethod: string, contentType: string, payload: RequestBody.InlineData)

  const AnalyzeUrl: string := "/api/analyze"
  const JpegMimeType: string := "image/jpeg"
  const ResultRoute: string := "/result"

  const AnalysisFailed: string := "Analysis failed"
  const NotFood: string := "This doesn't look like food. Please try with a food image."
  const AnalyzeFailed: string := "Failed to analyze the image. Please try again."
  const SomethingWrong: string := "Something went wrong. Please try again."

  /** JavaScript's `a || b` on strings, where the empty string is falsy. */
  function Or(a: string, b: string): string {
    if a != "" then a else b
  }

  /** `a || b` when `a` may also be absent (`undefined`). */
  function OrMaybe(a: Option<string>, b: string): string {
    Or(a.GetOr(""), b)
  }

  /** The request the capture sends for an asset's base64 content. */
  function AnalysisRequest(base64: string): Request {
    Request(AnalyzeUrl, "POST", "application/json", RequestBody.InlineData(base64, JpegMimeType))
  }

  /** The body text sent on the wire. */
  function WireBody(q: Request): string {
    RequestBody.Encode(q.payload)
  }

  /** The request is a JSON POST to the analysis endpoint whose body text
      carries exactly the asset's base64 data, tagged as JPEG. */
  lemma RequestCarriesImage(base64: string)
    ensures var q := AnalysisRequest(base64);
            && q.url == AnalyzeUrl && q.httpMethod == "POST" && q.contentType == "application/json"
            && RequestBody.Decode(WireBody(q)) == Some(RequestBody.InlineData(base64, JpegMimeType))
  {
    RequestBody.DecodeEncode(RequestBody.InlineData(base64, JpegMimeType));
  }

  /** One observable step performed by `captureImage`. */
  datatype Effect =
    | SetError(error: Option<string>)
    | SetAnalyzing(on: bool)
    | OpenPicker(source: Source)
    | Send(request: Request)
    | SetAnalysis(analysis: FoodAnalysis)
    | Push(route: string)

  /** Everything a capture can change: the screen state, the shared store,
      the requests sent so far and the routes pushed so far. */
  datatype World = World(state: State, store: Store, sent: seq<Request>, pushed: seq<string>)

  const InitialWorld: World := World(InitialState, EmptyStore, [], [])

  function Perform(w: World, e: Effect): World {
    match e
    case SetError(m) => w.(state := w.state.(error := m))
    case SetAnalyzing(b) => w.(state := w.state.(isAnalyzing := b))
    case OpenPicker(_) => w
    case Send(q) => w.(sent := w.sent + [q])
    case SetAnalysis(a) => w.(store := Some(a))
    case Push(r) => w.(pushed := w.pushed + [r])
  }

  /** Performs the effects in order. */
  function Apply(w: World, es: seq<Effect>): World
    decreases |es|
  {
    if es == [] then w else Apply(Perform(w, es[0]), es[1..])
  }

  lemma {:induction false} ApplyAppend(w: World, a: seq<Effect>, b: seq<Effect>)
    ensures Apply(w, a + b) == Apply(Apply(w, a), b)
    decreases |a|
  {
    if a == [] {
      assert a + b == b;
    } else {
      assert (a + b)[0] == a[0];
      assert (a + b)[1..] == a[1..] + b;
      ApplyAppend(Perform(w, a[0]), a[1..], b);
    }
  }

  lemma ApplyCons(w: World, e: Effect, es: seq<Effect>)
    ensures Apply(w, [e] + es) == Apply(Perform(w, e), es)
  {
    assert ([e] + es)[1..] == es;
  }

  lemma ApplyOne(w: World, e: Effect)
    ensures Apply(w, [e]) == Perform(w, e)
  {
    ApplyCons(w, e, []);
    assert [e] + [] == [e];
  }

  /** The inner `catch`: the caught error's message, or the generic analysis
      message when that message is empty. */
  function CaughtInRequest(message: string): seq<Effect> {
    [SetError(Some(Or(message, AnalyzeFailed)))]
  }

  /** The record published on success: the service's analysis with `image`
      overwritten by the picked asset's URI. */
  function Published(uri: string, fa: FoodAnalysis): FoodAnalysis {
    fa.(image := Some(uri))
  }

  /** The inner `try` block from reading the response on: a non-ok status
      throws the body's message or "Analysis failed"; an ok body without
      `data.foodAnalysis` throws the not-food message; otherwise the store is
      written and the result route pushed. */
  function RequestEffects(uri: string, resp: Response): seq<Effect> {
    match resp
    case NetThrew(m) => CaughtInRequest(m)
    case NotOk(m) => CaughtInRequest(OrMaybe(m, AnalysisFailed))
    case Ok(None) => CaughtInRequest(NotFood)
    case Ok(Some(fa)) => [SetAnalysis(Published(uri, fa)), Push(ResultRoute)]
  }

  /** What happens once the picker has returned: nothing on cancel; the outer
      `catch` when the picker threw; otherwise the request phase, closed by
      the `finally` that clears `isAnalyzing`. */
  function PickEffects(pick: PickOutcome, resp: Response): seq<Effect> {
    match pick
    case Cancelled => []
    case PickThrew(m) => [SetError(Some(Or(m, SomethingWrong))), SetAnalyzing(false)]
    case Image(uri, data) =>
      [SetAnalyzing(true), Send(AnalysisRequest(data))] + RequestEffects(uri, resp) + [SetAnalyzing(false)]
  }

  /** Every effect of one `captureImage` call, in order. */
  function CaptureEffects(source: Source, pick: PickOutcome, resp: Response): seq<Effect> {
    [SetError(None), OpenPicker(source)] + PickEffects(pick, resp)
  }

  /** Outcome of the request phase in the terms of the error taxonomy:
      transport failure, service failure, not food, or an analysis. */
  datatype Verdict = Analyzed(analysis: FoodAnalysis) | Failed(message: string)

  function Classify(resp: Response): Verdict {
    match resp
    case NetThrew(m) => Failed(if m != "" then m else AnalyzeFailed)
    case NotOk(m) => Failed(if m.Some? && m.value != "" then m.value else AnalysisFailed)
    case Ok(None) => Failed(NotFood)
    case Ok(Some(fa)) => Analyzed(fa)
  }

  /** The reference outcome of a capture, case by case. */
  function Expected(w: World, pick: PickOutcome, resp: Response): World {
    match pick
    case Cancelled => w.(state := w.state.(error := None))
    case PickThrew(m) => w.(state := State(false, Some(if m != "" then m else SomethingWrong)))
    case Image(uri, data) =>
      var sent := w.sent + [AnalysisRequest(data)];
      match Classify(resp)
      case Analyzed(fa) => World(State(false, None), Some(Published(uri, fa)), sent, w.pushed + [ResultRoute])
      case Failed(m) => World(State(false, Some(m)), w.store, sent, w.pushed)
  }

  /** The effects from the response on, applied after the request went out. */
  lemma ResponseMeetsExpected(w: World, uri: string, resp: Response)
    ensures Apply(w, RequestEffects(uri, resp))
            == match Classify(resp)
               case Analyzed(fa) => w.(store := Some(Published(uri, fa)), pushed := w.pushed + [ResultRoute])
               case Failed(m) => w.(state := w.state.(error := Some(m)))
  {
    match resp
    case Ok(Some(fa)) =>
      ApplyCons(w, SetAnalysis(Published(uri, fa)), [Push(ResultRoute)]);
      ApplyOne(Perform(w, SetAnalysis(Published(uri, fa))), Push(ResultRoute));
    case Ok(None) =>
      ApplyOne(w, SetError(Some(Or(NotFood, AnalyzeFailed))));
    case NotOk(m) =>
      ApplyOne(w, SetError(Some(Or(OrMaybe(m, AnalysisFailed), AnalyzeFailed))));
    case NetThrew(m) =>
      ApplyOne(w, SetError(Some(Or(m, AnalyzeFailed))));
  }

  /** Raising the flag and sending the request. */
  lemma SendStep(w: World, q: Request)
    ensures Apply(w, [SetAnalyzing(true), Send(q)])
            == w.(state := w.state.(isAnalyzing := true), sent := w.sent + [q])
  {
    ApplyCons(w, SetAnalyzing(true), [Send(q)]);
    ApplyOne(Perform(w, SetAnalyzing(true)), Send(q));
  }

  lemma RequestPhaseMeetsExpected(w: World, uri: string, data: string, resp: Response)
    requires w.state.error.None?
    ensures Apply(w, PickEffects(Image(uri, data), resp)) == Expected(w, Image(uri, data), resp)
  {
    var head := [SetAnalyzing(true), Send(AnalysisRequest(data))];
    var mid := RequestEffects(uri, resp);
    assert PickEffects(Image(uri, data), resp) == head + mid + [SetAnalyzing(false)];
    ApplyAppend(w, head + mid, [SetAnalyzing(false)]);
    ApplyAppend(w, head, mid);
    SendStep(w, AnalysisRequest(data));
    var w2 := w.(state := w.state.(isAnalyzing := true), sent := w.sent + [AnalysisRequest(data)]);
    ResponseMeetsExpected(w2, uri, resp);
    var w3 := Apply(w2, mid);
    ApplyOne(w3, SetAnalyzing(false));
    match resp
    case Ok(Some(fa)) =>
      assert w3 == w2.(store := Some(Published(uri, fa)), pushed := w2.pushed + [ResultRoute]);
    case _ =>
      var m := Classify(resp).message;
      assert w3 == w2.(state := w2.state.(error := Some(m)));
      assert Expected(w, Image(uri, data), resp) == World(State(false, Some(m)), w.store, w2.sent, w.pushed);
  }

  /** Clearing the error and launching the picker. */
  lemma OpenStep(w: World, source: Source)
    ensures Apply(w, [SetError(None), OpenPicker(source)]) == w.(state := w.state.(error := None))
  {
    ApplyCons(w, SetError(None), [OpenPicker(source)]);
    ApplyOne(Perform(w, SetError(None)), OpenPicker(source));
  }

  /** The outer `catch` after the picker threw. */
  lemma PickerFailureStep(w: World, message: string)
    ensures Apply(w, [SetError(Some(message)), SetAnalyzing(false)]) == w.(state := State(false, Some(message)))
  {
    ApplyCons(w, SetError(Some(message)), [SetAnalyzing(false)]);
    ApplyOne(Perform(w, SetError(Some(message))), SetAnalyzing(false));
  }

  lemma ImageCaptureMeetsExpected(w: World, source: Source, uri: string, data: string, resp: Response)
    ensures Apply(w, CaptureEffects(source, Image(uri, data), resp)) == Expected(w, Image(uri, data), resp)
  {
    var w1 := w.(state := w.state.(error := None));
    ApplyAppend(w, [SetError(None), OpenPicker(source)], PickEffects(Image(uri, data), resp));
    OpenStep(w, source);
    RequestPhaseMeetsExpected(w1, uri, data, resp);
    assert Expected(w1, Image(uri, data), resp) == Expected(w, Image(uri, data), resp);
  }

  /** The effects of a capture achieve exactly the reference outcome. */
  lemma EffectsMeetExpected(w: World, source: Source, pick: PickOutcome, resp: Response)
    ensures Apply(w, CaptureEffects(source, pick, resp)) == Expected(w, pick, resp)
  {
    match pick
    case Cancelled =>
      assert CaptureEffects(source, pick, resp) == [SetError(None), OpenPicker(source)];
      OpenStep(w, source);
    case PickThrew(m) =>
      var msg := Or(m, SomethingWrong);
      ApplyAppend(w, [SetError(None), OpenPicker(source)], [SetError(Some(msg)), SetAnalyzing(false)]);
      OpenStep(w, source);
      PickerFailureStep(w.(state := w.state.(error := None)), msg);
    case Image(uri, data) =>
      ImageCaptureMeetsExpected(w, source, uri, data, resp);
  }

  /** Whether the capture ends in a published analysis. */
  predicate Succeeds(pick: PickOutcome, resp: Response) {
    pick.Image? && resp.Ok? && resp.foodAnalysis.Some?
  }

  /** What one capture promises about the world `r` it leaves behind. */
  predicate KeepsPromises(w: World, pick: PickOutcome, resp: Response, r: World) {
    // `finally` and the outer `catch` clear the flag; only a cancel leaves it alone
    && r.state.isAnalyzing == (w.state.isAnalyzing && pick.Cancelled?)
    // every error message the capture sets is non-empty
    && (r.state.error.Some? ==> r.state.error.value != "")
    && (r.state.error.None? <==> pick.Cancelled? || Succeeds(pick, resp))
    // the store is written only on success, with the picked URI as `image`
    && (Succeeds(pick, resp) ==> r.store == Some(Published(pick.uri, resp.foodAnalysis.value)))
    && (!Succeeds(pick, resp) ==> r.store == w.store)
    // exactly one request when an image was picked, none otherwise
    && r.sent == w.sent + (if pick.Image? then [AnalysisRequest(pick.base64)] else [])
    // exactly one navigation to the result route, and only on success
    && r.pushed == w.pushed + (if Succeeds(pick, resp) then [ResultRoute] else [])
  }

  /** The reference outcome has the properties the capture promises. */
  lemma ExpectedKeepsPromises(w: World, pick: PickOutcome, resp: Response)
    ensures KeepsPromises(w, pick, resp, Expected(w, pick, resp))
  {
    match pick
    case Cancelled =>
    case PickThrew(m) =>
    case Image(uri, data) =>
      match resp
      case Ok(Some(fa)) =>
      case Ok(None) =>
      case NotOk(m) =>
        assert Classify(resp).message != "";
      case NetThrew(m) =>
        assert Classify(resp).message != "";
  }

  /** One call of `captureImage(camera)`, `source` being the picker the flag selects. */
  function Capture(w: World, source: Source, pick: PickOutcome, resp: Response): (r: World)
    ensures KeepsPromises(w, pick, resp, r)
  {
    EffectsMeetExpected(w, source, pick, resp);
    ExpectedKeepsPromises(w, pick, resp);
    Apply(w, CaptureEffects(source, pick, resp))
  }

  /** The effects of a capture that picked an image, spelled out. */
  lemma ImageCaptureEffects(source: Source, uri: string, data: string, resp: Response)
    ensures CaptureEffects(source, Image(uri, data), resp)
            == [SetError(None), OpenPicker(source), SetAnalyzing(true), Send(AnalysisRequest(data))]
               + RequestEffects(uri, resp) + [SetAnalyzing(false)]
  {
  }

  /** A capture starts by clearing the error, then opens the picker, and opens
      it exactly once. */
  lemma ClearsErrorBeforePicker(source: Source, pick: PickOutcome, resp: Response)
    ensures var es := CaptureEffects(source, pick, resp);
            && |es| >= 2 && es[0] == SetError(None) && es[1] == OpenPicker(source)
            && forall i :: 2 <= i < |es| ==> !es[i].OpenPicker?
  {
    var es := CaptureEffects(source, pick, resp);
    match pick
    case Cancelled =>
      assert es == [SetError(None), OpenPicker(source)];
    case PickThrew(m) =>
      assert es == [SetError(None), OpenPicker(source), SetError(Some(Or(m, SomethingWrong))), SetAnalyzing(false)];
    case Image(uri, data) =>
      ImageCaptureEffects(source, uri, data, resp);
      var mid := RequestEffects(uri, resp);
      assert forall i :: 0 <= i < |mid| ==> !mid[i].OpenPicker?;
      assert forall i :: 4 <= i < |es| - 1 ==> es[i] == mid[i - 4];
  }

  /** A cancelled pick clears the error and changes nothing else: no request,
      no store write, no navigation, `isAnalyzing` as it was. */
  lemma CancelledPickIsSilent(w: World, source: Source, resp: Response)
    ensures Capture(w, source, Cancelled, resp) == w.(state := w.state.(error := None))
  {
  }

  /** On an ok response carrying an analysis the store holds exactly that
      analysis with `image` set to the picked URI, the screen is idle again and
      one navigation to the result route follows. */
  lemma SuccessPublishesAnalysis(w: World, source: Source, uri: string, data: string, fa: FoodAnalysis)
    ensures var r := Capture(w, source, Image(uri, data), Ok(Some(fa)));
            && r.store == Some(fa.(image := Some(uri)))
            && r.store.value.identifiedFood == fa.identifiedFood
            && r.store.value.nutritionFactsPerPortion == fa.nutritionFactsPerPortion
            && r.state == State(false, None)
            && r.pushed == w.pushed + [ResultRoute]
  {
  }

  /** When the last effect of a list writes the store, the store holds that record. */
  lemma {:induction false} StoreAfterWrite(w: World, es: seq<Effect>, a: FoodAnalysis)
    requires es != [] && es[|es| - 1] == SetAnalysis(a)
    ensures Apply(w, es).store == Some(a)
  {
    ApplyAppend(w, es[..|es| - 1], [SetAnalysis(a)]);
    assert es[..|es| - 1] + [SetAnalysis(a)] == es;
    ApplyOne(Apply(w, es[..|es| - 1]), SetAnalysis(a));
  }

  /** Write before navigate: a capture navigates only when it succeeds, and
      at the moment of that navigation the store already holds the published
      record. */
  lemma StoreWrittenBeforeNavigation(w: World, source: Source, pick: PickOutcome, resp: Response)
    ensures var es := CaptureEffects(source, pick, resp);
            forall j :: 0 <= j < |es| && es[j].Push? ==>
              Succeeds(pick, resp) && Apply(w, es[..j]).store == Some(Published(pick.uri, resp.foodAnalysis.value))
  {
    var es := CaptureEffects(source, pick, resp);
    match pick
    case Cancelled =>
    case PickThrew(m) =>
    case Image(uri, data) =>
      match resp
      case Ok(Some(fa)) =>
        var a := Published(uri, fa);
        assert es == [SetError(None), OpenPicker(source), SetAnalyzing(true), Send(AnalysisRequest(data)),
                      SetAnalysis(a), Push(ResultRoute), SetAnalyzing(false)];
        forall j | 0 <= j < |es| && es[j].Push?
          ensures Apply(w, es[..j]).store == Some(a)
        {
          assert j == 5;
          StoreAfterWrite(w, es[..5], a);
        }
      case _ =>
        assert |RequestEffects(uri, resp)| == 1 && RequestEffects(uri, resp)[0].SetError?;
        assert es == [SetError(None), OpenPicker(source), SetAnalyzing(true), Send(AnalysisRequest(data)),
                      RequestEffects(uri, resp)[0], SetAnalyzing(false)];
  }

  /** A non-ok response sets the body's message when it is non-empty, else
      "Analysis failed"; the generic request-phase fallback never applies,
      and the store and navigation are untouched. */
  lemma NotOkShowsServiceMessage(w: World, source: Source, uri: string, data: string, message: Option<string>)
    ensures var r := Capture(w, source, Image(uri, data), NotOk(message));
            && r.state == State(false, Some(if message.Some? && message.value != "" then message.value else AnalysisFailed))
            && r.store == w.store
            && r.pushed == w.pushed
  {
    EffectsMeetExpected(w, source, Image(uri, data), NotOk(message));
  }

  /** An ok response without `data.foodAnalysis` sets the not-food message and
      leaves the store as it was: no partial write. */
  lemma MissingAnalysisIsNotFood(w: World, source: Source, uri: string, data: string)
    ensures var r := Capture(w, source, Image(uri, data), Ok(None));
            && r.state == State(false, Some(NotFood))
            && r.store == w.store
            && r.pushed == w.pushed
  {
    EffectsMeetExpected(w, source, Image(uri, data), Ok(None));
  }

  /** An error thrown while requesting keeps its own message and falls back
      to the analysis message only when that message is empty. */
  lemma RequestErrorMessage(w: World, source: Source, uri: string, data: string, message: string)
    ensures var r := Capture(w, source, Image(uri, data), NetThrew(message));
            && r.state == State(false, Some(if message != "" then message else AnalyzeFailed))
            && r.store == w.store
            && r.pushed == w.pushed
  {
    EffectsMeetExpected(w, source, Image(uri, data), NetThrew(message));
  }

  /** An error thrown by the picker keeps its own message and falls back to
      the generic message when that message is empty; nothing is sent. */
  lemma PickerErrorMessage(w: World, source: Source, message: string, resp: Response)
    ensures var r := Capture(w, source, PickThrew(message), resp);
            && r.state == State(false, Some(if message != "" then message else SomethingWrong))
            && r.store == w.store
            && r.sent == w.sent
            && r.pushed == w.pushed
  {
    EffectsMeetExpected(w, source, PickThrew(message), resp);
  }

  /** At most one request per capture, and it carries the asset's base64 data
      with the JPEG media type. */
  lemma OneRequestCarryingTheImage(w: World, source: Source, pick: PickOutcome, resp: Response)
    ensures var r := Capture(w, source, pick, resp);
            |r.sent| == |w.sent| + (if pick.Image? then 1 else 0) && r.sent[..|w.sent|] == w.sent
    ensures var r := Capture(w, source, pick, resp);
            pick.Image? ==>
              && r.sent[|w.sent|].url == AnalyzeUrl
              && RequestBody.Decode(WireBody(r.sent[|w.sent|])) == Some(RequestBody.InlineData(pick.base64, JpegMimeType))
  {
    if pick.Image? {
      RequestCarriesImage(pick.base64);
    }
  }

  /** `resetError`: the "Try Again" action. */
  function ResetError(s: State): (r: State)
    ensures r.error.None? && r.isAnalyzing == s.isAnalyzing
  {
    s.(error := None)
  }
}
