/** The upload-and-predict workflow of the page as a pure state machine: the
    five state fields, the user and network events, and the transition each
    event makes. The class in module UploadApp follows these transitions; the
    lemmas here are about every sequence of events. */
module Workflow {
  import opened Wrappers

  /** A file handle chosen by the user; only its identity matters here. */
  datatype File = File(id: nat)

  /** The object URL the page creates to show a file locally, as an opaque
      token that remembers the file it was made from. */
  datatype PreviewUrl = ObjectUrl(source: File)

  /** The body of a successful reply: the predicted label (the JSON field
      `class`) and its confidence. */
  datatype Prediction = Prediction(disease: string, confidence: real)

  /** How the one outbound request ends: a reply body, or any failure
      (network error, non-2xx status). */
  datatype Response = Ok(data: Prediction) | Err

  /** The component's state fields. */
  datatype State = State(
    image: Option<File>,
    preview: Option<PreviewUrl>,
    loading: bool,
    result: Option<Prediction>,
    dragActive: bool)

  /** The events the component reacts to. `Pick` is the file input's change
      event with a file, `PickNothing` that event with an empty file list,
      `Drop` the drop event with its (possibly absent) file list,
      `Click` a call of the predict handler and `Reply` the completion of the
      request that handler awaits. */
  datatype Event =
    | Pick(file: File)
    | PickNothing
    | Drop(files: Option<seq<File>>)
    | DragOver
    | DragLeave
    | Click
    | Reply(response: Response)

  /** The state when the page is first rendered. */
  function Initial(): State
  {
    State(None, None, false, None, false)
  }

  /** `handleFile`: the file becomes the image, its object URL the preview,
      and the last result is cleared. */
  function SelectFile(s: State, f: File): State
  {
    s.(image := Some(f), preview := Some(ObjectUrl(f)), result := None)
  }

  /** `handleFile` called with no file: the image is cleared, then creating the
      object URL throws, so the preview and the result are never updated. */
  function SelectNothing(s: State): State
  {
    s.(image := None)
  }

  /** `handleDrop`: the drag highlight is switched off, then the first dropped
      file, if there is one, is handled as a picked file. */
  function DropFiles(s: State, files: Option<seq<File>>): State
  {
    var t := s.(dragActive := false);
    if files.Some? && |files.value| > 0 then SelectFile(t, files.value[0]) else t
  }

  /** The guard of the predict handler: a request is issued only when an image
      is selected and no request is in flight. */
  predicate CanPredict(s: State)
  {
    s.image.Some? && !s.loading
  }

  /** The `disabled` attribute of the predict button. */
  predicate ButtonDisabled(s: State)
  {
    s.loading || s.image.None?
  }

  /** The file the predict handler sends, if it sends one. */
  function Request(s: State): Option<File>
  {
    if CanPredict(s) then Some(s.image.value) else None
  }

  /** The predict handler up to the awaited request: nothing when the guard
      fails, otherwise the in-flight flag is raised. */
  function StartPredict(s: State): State
  {
    if CanPredict(s) then s.(loading := true) else s
  }

  /** The predict handler after the request ends: a reply body becomes the
      result, a failure leaves the result alone, and the flag is lowered in
      both cases. */
  function CompletePredict(s: State, r: Response): State
  {
    var t := if r.Ok? then s.(result := Some(r.data)) else s;
    t.(loading := false)
  }

  /** One event, processed without interruption. */
  function Step(s: State, e: Event): State
  {
    match e
    case Pick(f) => SelectFile(s, f)
    case PickNothing => SelectNothing(s)
    case Drop(files) => DropFiles(s, files)
    case DragOver => s.(dragActive := true)
    case DragLeave => s.(dragActive := false)
    case Click => StartPredict(s)
    case Reply(r) => CompletePredict(s, r)
  }

  /** The button is enabled exactly when the guard lets a click through: an
      enabled click always issues a request for the selected image, a disabled
      one changes nothing. */
  lemma EnabledIffGuardPasses(s: State)
    ensures !ButtonDisabled(s) <==> CanPredict(s)
    ensures !ButtonDisabled(s) ==> Request(s) == s.image && StartPredict(s) == s.(loading := true)
    ensures ButtonDisabled(s) ==> Request(s) == None && StartPredict(s) == s
  {
  }

  /** A request that fails returns the state to what it was before the click. */
  lemma FailureRestoresState(s: State)
    requires CanPredict(s)
    ensures CompletePredict(StartPredict(s), Err) == s
  {
  }

  /** A request that succeeds changes only the result, which becomes the reply. */
  lemma SuccessOnlySetsResult(s: State, d: Prediction)
    requires CanPredict(s)
    ensures CompletePredict(StartPredict(s), Ok(d)) == s.(result := Some(d))
  {
  }

  /** A second click before the reply neither sends a request nor changes the state. */
  lemma SecondClickIsNoOp(s: State)
    ensures Request(StartPredict(s)) == None
    ensures StartPredict(StartPredict(s)) == StartPredict(s)
  {
  }

  /** Choosing a file is idempotent and forgets everything earlier choices did. */
  lemma SelectFileOverrides(s: State, f: File, g: File)
    ensures SelectFile(SelectFile(s, g), f) == SelectFile(s, f)
  {
  }

  /** The consistency every reachable state keeps: a selected image is shown by
      its own object URL, and neither a request nor a result exists before a
      preview has been shown. Once an empty pick has cleared the image, the old
      preview, request and result stay, so nothing ties them to an image. */
  predicate Consistent(s: State)
  {
    && (s.image.Some? ==> s.preview == Some(ObjectUrl(s.image.value)))
    && (s.loading ==> s.preview.Some?)
    && (s.result.Some? ==> s.preview.Some?)
  }

  /** As written, an empty pick clears only the image: the preview, the result
      and a request in flight all stay. */
  lemma SelectNothingKeepsPreviewAndResult(s: State)
    ensures SelectNothing(s).image == None
    ensures SelectNothing(s).preview == s.preview && SelectNothing(s).result == s.result
    ensures SelectNothing(s).loading == s.loading && SelectNothing(s).dragActive == s.dragActive
  {
  }

  /** Every transition keeps the state consistent, provided a reply arrives
      only while its request is in flight. */
  lemma StepConsistent(s: State, e: Event)
    requires Consistent(s)
    requires e.Reply? ==> s.loading
    ensures Consistent(Step(s, e))
  {
  }

  /** A state together with the requests sent and not yet answered, oldest
      first. The network answers requests in the order they were sent. */
  datatype World = World(ui: State, inFlight: seq<File>)

  /** The page as first loaded, with nothing sent. */
  function Start(): World
  {
    World(Initial(), [])
  }

  function OptionToSeq(o: Option<File>): seq<File>
  {
    if o.Some? then [o.value] else []
  }

  /** One event delivered to the page. A reply can only arrive for a request
      that is in flight; any other delivery is not a possible run (`None`). */
  function Deliver(w: World, e: Event): Option<World>
  {
    if e.Reply? && w.inFlight == [] then None
    else
      var sent :=
        if e.Click? then w.inFlight + OptionToSeq(Request(w.ui))
        else if e.Reply? then w.inFlight[1..]
        else w.inFlight;
      Some(World(Step(w.ui, e), sent))
  }

  /** A sequence of events delivered in order, or `None` when some reply in it
      has no request to answer. */
  function Replay(w: World, events: seq<Event>): Option<World>
    decreases |events|
  {
    if events == [] then Some(w)
    else
      match Deliver(w, events[0])
      case None => None
      case Some(w') => Replay(w', events[1..])
  }

  /** The single in-flight guarantee: at most one request is outstanding, and
      the `loading` flag is raised exactly while one is. */
  predicate SingleFlight(w: World)
  {
    && |w.inFlight| <= 1
    && (w.ui.loading <==> |w.inFlight| == 1)
    && Consistent(w.ui)
  }

  /** One delivery keeps the single in-flight guarantee, and a click while a
      request is outstanding sends nothing. */
  lemma DeliverKeepsSingleFlight(w: World, e: Event)
    requires SingleFlight(w)
    ensures Deliver(w, e).Some? ==> SingleFlight(Deliver(w, e).value)
    ensures e.Click? && |w.inFlight| == 1 ==> Deliver(w, e) == Some(w)
  {
    if e.Click? && |w.inFlight| == 1 {
      assert w.inFlight + OptionToSeq(Request(w.ui)) == w.inFlight;
    }
    if !(e.Reply? && w.inFlight == []) {
      StepConsistent(w.ui, e);
    }
  }

  /** Along every possible run the single in-flight guarantee holds. */
  lemma {:induction false} ReplayKeepsSingleFlight(w: World, events: seq<Event>)
    requires SingleFlight(w)
    ensures Replay(w, events).Some? ==> SingleFlight(Replay(w, events).value)
    decreases |events|
  {
    if events != [] {
      DeliverKeepsSingleFlight(w, events[0]);
      match Deliver(w, events[0])
      case None =>
      case Some(w') => ReplayKeepsSingleFlight(w', events[1..]);
    }
  }

  /** From the first render, whatever the user and the network do, at most one
      request is ever outstanding, `loading` shows whether one is, a selected
      image is always shown by its own preview, and no request or result
      exists before a preview does. */
  lemma {:induction false} RunsFromStartAreSingleFlight(events: seq<Event>)
    ensures Replay(Start(), events).Some? ==>
      var w := Replay(Start(), events).value;
      |w.inFlight| <= 1 && (w.ui.loading <==> |w.inFlight| == 1) && Consistent(w.ui)
  {
    ReplayKeepsSingleFlight(Start(), events);
  }

  /** Delivering one more event after a possible run is replaying the longer run. */
  lemma {:induction false} ReplayPrefix(w: World, events: seq<Event>, e: Event)
    requires Replay(w, events).Some?
    ensures Replay(w, events + [e]) == Deliver(Replay(w, events).value, e)
    decreases |events|
  {
    if events == [] {
      assert events + [e] == [e];
      assert [e][1..] == [];
    } else {
      assert (events + [e])[0] == events[0];
      assert (events + [e])[1..] == events[1..] + [e];
      ReplayPrefix(Deliver(w, events[0]).value, events[1..], e);
    }
  }

  /** At any point of a run from the start, a click on the enabled button sends
      the selected image, and that request is then the only one in flight. */
  lemma EnabledClickSendsOnlyRequest(events: seq<Event>)
    requires Replay(Start(), events).Some?
    requires !ButtonDisabled(Replay(Start(), events).value.ui)
    ensures
      var ui := Replay(Start(), events).value.ui;
      Replay(Start(), events + [Click]) == Some(World(ui.(loading := true), [ui.image.value]))
  {
    RunsFromStartAreSingleFlight(events);
    ReplayPrefix(Start(), events, Click);
    var w := Replay(Start(), events).value;
    assert w.inFlight + OptionToSeq(Request(w.ui)) == [w.ui.image.value];
  }

  /** At any point of a run from the start where a request is in flight, its
      reply can arrive; afterwards nothing is in flight and `loading` is false. */
  lemma ReplyEndsRequest(events: seq<Event>, r: Response)
    requires Replay(Start(), events).Some?
    requires Replay(Start(), events).value.ui.loading
    ensures
      var w := Replay(Start(), events + [Reply(r)]);
      w.Some? && w.value.inFlight == [] && !w.value.ui.loading
  {
    RunsFromStartAreSingleFlight(events);
    ReplayPrefix(Start(), events, Reply(r));
  }

  /** As written, a reply is shown next to whatever image is selected when it
      arrives: picking file b while the request for file a is in flight ends
      with b on screen and a's prediction as the result. */
  lemma StaleReplyShownWithNewImage(a: File, b: File, d: Prediction)
    requires a != b
    ensures
      var w := Replay(Start(), [Pick(a), Click, Pick(b), Reply(Ok(d))]);
      w.Some? && w.value.ui.image == Some(b) && w.value.ui.result == Some(d)
  {
    var w1 := World(SelectFile(Initial(), a), []);
    var w2 := World(w1.ui.(loading := true), [a]);
    var w3 := World(SelectFile(w2.ui, b), [a]);
    var w4 := World(CompletePredict(w3.ui, Ok(d)), []);
    assert [] + OptionToSeq(Request(w1.ui)) == [a];
    assert Replay(w4, []) == Some(w4);
    assert Replay(w3, [Reply(Ok(d))]) == Some(w4);
    assert Replay(w2, [Pick(b), Reply(Ok(d))]) == Some(w4);
    assert Replay(w1, [Click, Pick(b), Reply(Ok(d))]) == Some(w4);
  }

  /** As written, an empty pick while the request for file a is in flight
      leaves no image selected but keeps a's preview; the reply then shows a's
      prediction with no image selected, and the button stays disabled. */
  lemma EmptyPickDuringRequest(a: File, d: Prediction)
    ensures
      var w := Replay(Start(), [Pick(a), Click, PickNothing, Reply(Ok(d))]);
      && w.Some? && w.value.inFlight == []
      && w.value.ui.image == None && w.value.ui.preview == Some(ObjectUrl(a))
      && w.value.ui.result == Some(d) && ButtonDisabled(w.value.ui)
  {
    var w1 := World(SelectFile(Initial(), a), []);
    var w2 := World(w1.ui.(loading := true), [a]);
    var w3 := World(SelectNothing(w2.ui), [a]);
    var w4 := World(CompletePredict(w3.ui, Ok(d)), []);
    assert [] + OptionToSeq(Request(w1.ui)) == [a];
    assert Replay(w4, []) == Some(w4);
    assert Replay(w3, [Reply(Ok(d))]) == Some(w4);
    assert Replay(w2, [PickNothing, Reply(Ok(d))]) == Some(w4);
    assert Replay(w1, [Click, PickNothing, Reply(Ok(d))]) == Some(w4);
  }
}
