/** The decoder card of the page (App.tsx): an input for the symptom, a
    button that starts decoding, a pending timer that delivers the answer,
    and a "new query" button that clears the card.

    The widget is stated for any decoding function `decode`; the page uses
    `Decoder.DecoderResult`, and `ShownResultHasThreeParts` instantiates the
    invariant with it. The timer is one abstract event: nothing here
    depends on its 1800 ms delay. */
module DecoderWidget {
  import opened Wrappers
  import opened Text
  import opened Decoder
  import opened DecoderFacts

  /** The card's state: the input's text, the decoding flag, the result on
      display (`null` in the source is `None`), and the answer the pending
      timer will deliver, if a timer is pending. */
  datatype Widget = Widget(
    symptom: string,
    isDecoding: bool,
    result: Option<string>,
    pending: Option<string>)

  /** The card as the page first renders it. */
  function Init(): (w: Widget)
    ensures w.symptom == [] && !w.isDecoding && w.result.None? && w.pending.None?
  {
    Widget([], false, None, None)
  }

  /** The input form is shown exactly when the result is falsy: absent or
      the empty string. */
  predicate FormShown(w: Widget)
  {
    w.result.None? || w.result.value == []
  }

  /** The decode button is clickable when the form is shown, nothing is
      being decoded and the input is not the empty string. A whitespace-only
      input leaves it clickable. */
  predicate ButtonEnabled(w: Widget)
  {
    FormShown(w) && !w.isDecoding && w.symptom != []
  }

  /** Clicking decode: a symptom that trims to nothing changes nothing;
      otherwise the answer is computed from the symptom as it is now,
      decoding starts, and the timer that will deliver the answer is armed. */
  function HandleDecode(w: Widget, decode: string -> string): (r: Widget)
    ensures IsBlank(w.symptom) ==> r == w
    ensures !IsBlank(w.symptom) ==>
      r == w.(isDecoding := true, pending := Some(decode(w.symptom)))
  {
    TrimEmptyIffBlank(w.symptom);
    if Trim(w.symptom) == [] then w
    else w.(isDecoding := true, pending := Some(decode(w.symptom)))
  }

  /** The timer fires: decoding stops and its answer becomes the result. */
  function TimerFires(w: Widget): (r: Widget)
    requires w.pending.Some?
    ensures !r.isDecoding && r.pending.None?
    ensures r.result == w.pending && r.symptom == w.symptom
  {
    w.(isDecoding := false, result := w.pending, pending := None)
  }

  /** "Nueva Consulta": the result and the symptom are both cleared. */
  function NewQuery(w: Widget): (r: Widget)
    ensures r.result.None? && r.symptom == []
    ensures r.isDecoding == w.isDecoding && r.pending == w.pending
  {
    w.(result := None, symptom := [])
  }

  /** What the user and the clock can do to the card. */
  datatype Event =
    | Type(text: string)   // the input's new contents
    | Click                // the decode button
    | Tick                 // the pending timer fires
    | Reset                // the "new query" button

  /** Whether an event can happen at all: the input and the decode button
      exist only while the form is shown, the timer only while armed, and
      the reset button only while a result is shown. */
  predicate Enabled(w: Widget, e: Event)
  {
    match e
    case Type(_) => FormShown(w)
    case Click => ButtonEnabled(w)
    case Tick => w.pending.Some?
    case Reset => !FormShown(w)
  }

  /** One event; an event that cannot happen leaves the card as it is. */
  function Step(w: Widget, e: Event, decode: string -> string): (r: Widget)
    ensures !Enabled(w, e) ==> r == w
    ensures e.Type? && Enabled(w, e) ==> r == w.(symptom := e.text)
  {
    if !Enabled(w, e) then w
    else match e
      case Type(t) => w.(symptom := t)
      case Click => HandleDecode(w, decode)
      case Tick => TimerFires(w)
      case Reset => NewQuery(w)
  }

  /** A sequence of events, in order. */
  function Run(w: Widget, es: seq<Event>, decode: string -> string): Widget
    decreases |es|
  {
    if es == [] then w else Run(Step(w, es[0], decode), es[1..], decode)
  }

  /** The card's invariant: the flag is up exactly while a timer is armed,
      the form stays up while decoding, and every answer pending or shown
      is the decoding of some non-blank symptom. */
  ghost predicate Inv(w: Widget, decode: string -> string)
  {
    && (w.isDecoding <==> w.pending.Some?)
    && (w.isDecoding ==> FormShown(w))
    && (w.pending.Some? ==> exists s :: !IsBlank(s) && w.pending.value == decode(s))
    && (w.result.Some? ==> exists s :: !IsBlank(s) && w.result.value == decode(s))
  }

  /** The card as first rendered satisfies the invariant. */
  lemma InitInv(decode: string -> string)
    ensures Inv(Init(), decode)
  {
  }

  /** Every event keeps the invariant. */
  lemma StepInv(w: Widget, e: Event, decode: string -> string)
    requires Inv(w, decode)
    ensures Inv(Step(w, e, decode), decode)
  {
    if Enabled(w, e) {
      match e
      case Type(_) =>
      case Click => ClickInv(w, decode);
      case Tick =>
      case Reset =>
    }
  }

  /** A click arms the timer with the decoding of a non-blank symptom. */
  lemma ClickInv(w: Widget, decode: string -> string)
    requires Inv(w, decode) && ButtonEnabled(w)
    ensures Inv(HandleDecode(w, decode), decode)
  {
    if !IsBlank(w.symptom) {
      assert HandleDecode(w, decode).pending.value == decode(w.symptom);
    }
  }

  /** Every run from a card that satisfies the invariant keeps it; in
      particular every run from the initial card does. */
  lemma {:induction false} RunInv(w: Widget, es: seq<Event>, decode: string -> string)
    requires Inv(w, decode)
    ensures Inv(Run(w, es, decode), decode)
    decreases |es|
  {
    if es != [] {
      StepInv(w, es[0], decode);
      RunInv(Step(w, es[0], decode), es[1..], decode);
    }
  }

  /** A click on a symptom that trims to nothing is a no-op, even though the
      button lets it through; a click on any other symptom starts decoding. */
  lemma BlankClickIsNoOp(w: Widget, decode: string -> string)
    requires ButtonEnabled(w)
    ensures Step(w, Click, decode) == w <==> IsBlank(w.symptom)
    ensures !IsBlank(w.symptom) ==> Step(w, Click, decode).isDecoding
  {
  }

  /** While decoding, neither the decode nor the reset button can be used,
      so the only things that can happen are edits and the timer. */
  lemma DecodingLocksButtons(w: Widget, decode: string -> string)
    requires Inv(w, decode) && w.isDecoding
    ensures !Enabled(w, Click) && !Enabled(w, Reset)
    ensures Enabled(w, Tick)
  {
  }

  /** The answer is fixed at click time: any edits to the input while the
      timer is armed leave the pending answer, and so the answer finally
      shown, unchanged. */
  lemma {:induction false} EditsDoNotChangePending(
    w: Widget, es: seq<Event>, decode: string -> string)
    requires Inv(w, decode) && w.isDecoding
    requires forall k :: 0 <= k < |es| ==> es[k] != Tick
    ensures Run(w, es, decode).pending == w.pending
    ensures Run(w, es, decode).isDecoding
    decreases |es|
  {
    if es != [] {
      var w' := Step(w, es[0], decode);
      StepInv(w, es[0], decode);
      EditsDoNotChangePending(w', es[1..], decode);
    }
  }

  /** Clicking then letting the timer fire shows the decoding of the symptom
      as it was at the click. */
  lemma ClickThenTickShowsDecoding(w: Widget, decode: string -> string)
    requires ButtonEnabled(w) && !IsBlank(w.symptom)
    ensures Run(w, [Click, Tick], decode).result == Some(decode(w.symptom))
    ensures !Run(w, [Click, Tick], decode).isDecoding
  {
    var w1 := Step(w, Click, decode);
    assert [Click, Tick][1..] == [Tick];
    assert Run(w, [Click, Tick], decode) == Run(w1, [Tick], decode);
  }

  /** Reset returns a card with a result shown to the initial card. */
  lemma ResetRestoresInit(w: Widget, decode: string -> string)
    requires Inv(w, decode) && w.result.Some? && w.result.value != []
    ensures Step(w, Reset, decode) == Init()
  {
  }

  /** On the page, whose decoding function is the symptom decoder, every
      result the card shows is non-empty (so the form really is hidden) and
      splits into the quote, the question and the footer. */
  lemma ShownResultHasThreeParts(w: Widget)
    requires Inv(w, DecoderResult) && w.result.Some?
    ensures w.result.value != [] && !FormShown(w)
    ensures View(w.result.value).question.Some? && View(w.result.value).footer.Some?
  {
    var s :| !IsBlank(s) && w.result.value == DecoderResult(s);
    ResultRoundTrip(Classify(s));
  }
}
