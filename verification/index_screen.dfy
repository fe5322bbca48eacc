/** The capture screen as the user sees it: which card the two state flags
    select, which buttons that card offers, and what pressing them does.

    `captureImage` has no guard of its own against being started twice; the
    only guard is that its buttons exist on the idle card alone. */
module IndexScreen {
  import opened Wrappers
  import opened Analysis
  import opened CaptureFlow

  /** The three cards of the conditional in the screen's JSX. */
  datatype Card = AnalyzingCard | ErrorCard | IdleCard

  datatype Button = TakePhoto | PickFromGallery | TryAgain

  /** JavaScript truthiness of the `error` state: neither null nor "". */
  predicate ErrorIsSet(s: State) {
    s.error.Some? && s.error.value != ""
  }

  /** `isAnalyzing` wins, then a set error, else the idle card. */
  function View(s: State): (c: Card)
    ensures c == AnalyzingCard <==> s.isAnalyzing
    ensures c == ErrorCard <==> !s.isAnalyzing && ErrorIsSet(s)
    ensures c == IdleCard <==> !s.isAnalyzing && !ErrorIsSet(s)
  {
    if s.isAnalyzing then AnalyzingCard
    else if ErrorIsSet(s) then ErrorCard
    else IdleCard
  }

  /** The pressable buttons on each card. */
  function Buttons(c: Card): set<Button> {
    match c
    case AnalyzingCard => {}
    case ErrorCard => {TryAgain}
    case IdleCard => {TakePhoto, PickFromGallery}
  }

  /** A press of a button, with the outcomes the picker and the service
      would supply if it starts a capture. */
  datatype Event =
    | Shoot(pick: PickOutcome, response: Response)
    | Browse(pick: PickOutcome, response: Response)
    | Retry

  function ButtonOf(e: Event): Button {
    match e
    case Shoot(_, _) => TakePhoto
    case Browse(_, _) => PickFromGallery
    case Retry => TryAgain
  }

  /** The effect of an event: None when its button is not on screen. */
  function Step(w: World, e: Event): (r: Option<World>)
    ensures r.Some? <==> ButtonOf(e) in Buttons(View(w.state))
  {
    if ButtonOf(e) !in Buttons(View(w.state)) then None
    else
      match e
      case Shoot(p, q) => Some(Capture(w, Camera, p, q))
      case Browse(p, q) => Some(Capture(w, Library, p, q))
      case Retry => Some(w.(state := ResetError(w.state)))
  }

  /** Performs events in order; None as soon as one names an absent button. */
  function Run(w: World, es: seq<Event>): Option<World>
    decreases |es|
  {
    if es == [] then Some(w)
    else
      match Step(w, es[0])
      case None => None
      case Some(w') => Run(w', es[1..])
  }

  /** A capture can start only from the idle card: never while analyzing,
      never from the error card. */
  lemma CaptureOnlyFromIdle(w: World, e: Event)
    requires !e.Retry?
    ensures Step(w, e).Some? <==> View(w.state) == IdleCard
    ensures w.state.isAnalyzing ==> Step(w, e) == None
  {
  }

  /** "Try Again" is offered only on the error card; it clears the error,
      changes nothing else, and leads back to the idle card. */
  lemma RetryOnlyClearsError(w: World)
    ensures View(w.state) != ErrorCard ==> Step(w, Retry) == None
    ensures View(w.state) == ErrorCard ==>
              && Step(w, Retry) == Some(w.(state := w.state.(error := None)))
              && View(Step(w, Retry).value.state) == IdleCard
  {
  }

  /** What holds between user actions. */
  predicate Settled(w: World) {
    && !w.state.isAnalyzing
    && (w.state.error.Some? ==> w.state.error.value != "")
    && (w.store.Some? ==> w.store.value.image.Some?)
    && |w.pushed| <= |w.sent|
  }

  lemma StepKeepsSettled(w: World, e: Event)
    requires Settled(w)
    ensures Step(w, e).Some? ==> Settled(Step(w, e).value)
  {
  }

  /** From the initial screen, after any sequence of presses the screen is
      not analyzing, any error shown has a non-empty message, a stored
      analysis always carries an image, and every navigation was preceded by
      its own request. */
  lemma {:induction false} RunKeepsSettled(w: World, es: seq<Event>)
    requires Settled(w)
    ensures Run(w, es).Some? ==> Settled(Run(w, es).value)
    decreases |es|
  {
    if es != [] {
      StepKeepsSettled(w, es[0]);
      if Step(w, es[0]).Some? {
        RunKeepsSettled(Step(w, es[0]).value, es[1..]);
      }
    }
  }

  lemma ReachableIsSettled(es: seq<Event>)
    ensures Run(InitialWorld, es).Some? ==> Settled(Run(InitialWorld, es).value)
    ensures Run(InitialWorld, es).Some? ==> View(Run(InitialWorld, es).value.state) != AnalyzingCard
  {
    RunKeepsSettled(InitialWorld, es);
  }

  /** Effects other than `SetAnalyzing` leave the flag alone. */
  lemma {:induction false} FlagUntouched(w: World, es: seq<Effect>)
    requires forall i :: 0 <= i < |es| ==> !es[i].SetAnalyzing?
    ensures Apply(w, es).state.isAnalyzing == w.state.isAnalyzing
    decreases |es|
  {
    if es != [] {
      FlagUntouched(Perform(w, es[0]), es[1..]);
    }
  }

  /** No double submit: from the moment the flag is raised until the
      `finally` clears it, every intermediate state shows the analyzing card,
      which offers no button, so no second capture can start while the
      request is in flight. */
  lemma NoButtonsWhileRequestInFlight(w: World, source: Source, uri: string, data: string, resp: Response, k: nat)
    requires 3 <= k < |CaptureEffects(source, Image(uri, data), resp)|
    ensures var mid := Apply(w, CaptureEffects(source, Image(uri, data), resp)[..k]);
            View(mid.state) == AnalyzingCard && Buttons(View(mid.state)) == {}
  {
    var es := CaptureEffects(source, Image(uri, data), resp);
    ImageCaptureEffects(source, uri, data, resp);
    var opening := [SetError(None), OpenPicker(source), SetAnalyzing(true)];
    assert es[..k] == opening + es[3..k];
    ApplyAppend(w, opening, es[3..k]);
    ApplyCons(w, SetError(None), [OpenPicker(source), SetAnalyzing(true)]);
    ApplyCons(Perform(w, SetError(None)), OpenPicker(source), [SetAnalyzing(true)]);
    ApplyOne(Perform(w, SetError(None)), SetAnalyzing(true));
    assert Apply(w, opening).state.isAnalyzing;
    var mid := RequestEffects(uri, resp);
    assert forall i :: 0 <= i < |mid| ==> !mid[i].SetAnalyzing?;
    assert forall i :: 3 <= i < |es| - 1 ==> !es[i].SetAnalyzing?;
    FlagUntouched(Apply(w, opening), es[3..k]);
  }
}
