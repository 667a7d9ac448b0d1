/** The ColorLabel as a value-level state machine: the state the widget keeps
    (its own fields and the fields of the canvas text and rectangle it owns),
    one step per operation, and what any sequence of operations preserves. */
module LabelModel {
  import opened Colors

  /** fyne.TextStyle, reduced to the flags the widget is used with. */
  datatype TextStyle = TextStyle(bold: bool, italic: bool, monospace: bool)

  /** The zero TextStyle a fresh canvas text carries. */
  const PlainStyle: TextStyle := TextStyle(false, false, false)

  /** fyne.KeyModifier: a bit set of modifier keys; 0 is "none". */
  type KeyModifier = int

  datatype PointEvent = PointEvent(x: real, y: real)
  datatype MouseEvent = MouseEvent(point: PointEvent, button: int, modifier: KeyModifier)

  /** A non-nil `func()` stored in a callback field, known only by identity. */
  datatype Handler = Handler(id: nat)

  /** The error both colour setters return for an unsupported type. */
  datatype Error = InvalidColorSpec(message: string)
  const InvalidColorSpecMessage: string := "fyne.ThemeColorName or color.NRGBA required"

  datatype LabelState = LabelState(
    // widget fields
    bgColor: ColorSpec,            // stored at construction, read by the settings listener
    fgColor: ColorSpec,
    textScale: real,
    ctorScale: real,               // the constructor's tScale, captured by the listener closure
    textStyle: Option<TextStyle>,
    onTapped: Option<Handler>,
    onTappedSecondary: Option<Handler>,
    onDoubleTapped: Option<Handler>,
    lastKeyModifier: KeyModifier,
    // canvas.Text
    text: string,
    textColor: Color,
    textSize: real,
    shownStyle: TextStyle,
    // canvas.Rectangle
    fillColor: Color,
    // every callback invocation so far, oldest first
    invoked: seq<Handler>)

  /** What every reachable state satisfies. */
  predicate Valid(st: LabelState) {
    Canonical(st.fgColor) && Canonical(st.bgColor) && st.textScale > 0.0 && st.ctorScale > 0.0
  }

  /** The text scale rule: a non-positive factor means 1. */
  function ClampScale(x: real): (r: real)
    ensures r > 0.0
    ensures x > 0.0 ==> r == x
    ensures x <= 0.0 ==> r == 1.0
  {
    if x <= 0.0 then 1.0 else x
  }

  /** theme.TextSize() * scale. */
  function TextSize(th: Theme, scale: real): real {
    th.textSize * scale
  }

  /** The freshly built label, from already normalised specs. */
  function Initial(s: string, fg: ColorSpec, bg: ColorSpec, scale: real, th: Theme): LabelState {
    LabelState(bg, fg, scale, scale, None, None, None, None, 0,
               s, Resolve(th, fg), TextSize(th, scale), PlainStyle,
               Resolve(th, bg), [])
  }

  /** NewColorLabel: `None` stands for the nil it returns. */
  function Construct(s: string, txtColor: ColorSpec, backColor: ColorSpec, tScale: real, th: Theme)
    : (r: Option<LabelState>)
    ensures r.None? <==> !Supported(backColor) || !Supported(txtColor)
    ensures r.Some? ==> Valid(r.value)
    ensures r.Some? ==> r.value.bgColor == (if EmptyPlainName(backColor) then Value(Transparent) else backColor)
    ensures r.Some? ==> r.value.fgColor == (if EmptyPlainName(txtColor) then ForegroundName else txtColor)
    ensures r.Some? ==> r.value.textScale == r.value.ctorScale == ClampScale(tScale)
    ensures r.Some? ==> r.value.text == s
    ensures r.Some? ==> r.value.textColor == Resolve(th, r.value.fgColor)
    ensures r.Some? ==> r.value.fillColor == Resolve(th, r.value.bgColor)
    ensures r.Some? ==> r.value.textSize == TextSize(th, ClampScale(tScale))
    ensures r.Some? ==> r.value.textStyle.None? && r.value.shownStyle == PlainStyle
    ensures r.Some? ==> r.value.lastKeyModifier == 0 && r.value.invoked == []
    ensures r.Some? ==> r.value.onTapped.None? && r.value.onTappedSecondary.None? && r.value.onDoubleTapped.None?
  {
    match NormalizeBackground(backColor)
    case None => None
    case Some(bg) =>
      match NormalizeText(txtColor)
      case None => None
      case Some(fg) => Some(Initial(s, fg, bg, ClampScale(tScale), th))
  }

  /** The operations a label undergoes. The three `Assign` operations are the
      caller storing into the exported callback fields. */
  datatype Op =
    | SetText(s: string)
    | SetTextColor(c: ColorSpec)
    | SetBackgroundColor(c: ColorSpec)
    | SetTextScale(scale: real)
    | SetTextStyle(style: TextStyle)
    | SetTextWithColor(s: string, c: ColorSpec)
    | Tapped(pe: PointEvent)
    | TappedSecondary(pe: PointEvent)
    | DoubleTapped(pe: PointEvent)
    | MouseDown(ev: MouseEvent)
    | MouseUp(ev: MouseEvent)
    | SettingsChanged
    | AssignOnTapped(h: Option<Handler>)
    | AssignOnTappedSecondary(h: Option<Handler>)
    | AssignOnDoubleTapped(h: Option<Handler>)

  predicate IsTap(op: Op) {
    op.Tapped? || op.TappedSecondary? || op.DoubleTapped?
  }

  /** An operation together with the theme current when it runs. */
  datatype Event = Event(th: Theme, op: Op)

  /** The invocations a tap handler makes: its callback once if set. */
  function Fire(cb: Option<Handler>): seq<Handler> {
    if cb.Some? then [cb.value] else []
  }

  /** SetTextColor's effect on the state (the error, if any, is OpError). */
  function ApplyTextColor(st: LabelState, th: Theme, c: ColorSpec): LabelState {
    match NormalizeText(c)
    case None => st
    case Some(n) => st.(textColor := Resolve(th, n))
  }

  function Step(st: LabelState, e: Event): LabelState {
    var th := e.th;
    match e.op
    case SetText(s) => st.(text := s)
    case SetTextColor(c) => ApplyTextColor(st, th, c)
    case SetBackgroundColor(c) =>
      (match NormalizeBackground(c)
       case None => st
       case Some(n) => st.(fillColor := Resolve(th, n)))
    case SetTextScale(x) =>
      var t := ClampScale(x);
      st.(textSize := TextSize(th, t), textScale := t)
    case SetTextStyle(style) => st.(textStyle := Some(style), shownStyle := style)
    case SetTextWithColor(s, c) => ApplyTextColor(st.(text := s), th, c)
    case Tapped(_) => st.(invoked := st.invoked + Fire(st.onTapped))
    case TappedSecondary(_) => st.(invoked := st.invoked + Fire(st.onTappedSecondary))
    case DoubleTapped(_) => st.(invoked := st.invoked + Fire(st.onDoubleTapped))
    case MouseDown(_) => st
    case MouseUp(ev) => st.(lastKeyModifier := ev.modifier)
    case SettingsChanged =>
      st.(textColor := Resolve(th, st.fgColor),
          textSize := TextSize(th, st.ctorScale),
          fillColor := Resolve(th, st.bgColor))
    case AssignOnTapped(h) => st.(onTapped := h)
    case AssignOnTappedSecondary(h) => st.(onTappedSecondary := h)
    case AssignOnDoubleTapped(h) => st.(onDoubleTapped := h)
  }

  /** The error an operation returns: only the two colour setters have one;
      SetTextWithColor discards SetTextColor's. */
  function OpError(op: Op): (r: Option<Error>)
    ensures r.Some? <==> (op.SetTextColor? || op.SetBackgroundColor?) && !Supported(op.c)
    ensures r.Some? ==> r.value == InvalidColorSpec(InvalidColorSpecMessage)
  {
    match op
    case SetTextColor(c) => if Supported(c) then None else Some(InvalidColorSpec(InvalidColorSpecMessage))
    case SetBackgroundColor(c) => if Supported(c) then None else Some(InvalidColorSpec(InvalidColorSpecMessage))
    case _ => None
  }

  /** The state after a sequence of events, applied oldest first. */
  function Run(st: LabelState, evs: seq<Event>): LabelState
    decreases |evs|
  {
    if evs == [] then st else Step(Run(st, evs[..|evs| - 1]), evs[|evs| - 1])
  }

  // ---------------------------------------------------------------------
  // Single operations

  /** A rejected colour setter returns the error and changes nothing. */
  lemma RejectedSetterIsNoOp(st: LabelState, th: Theme, c: ColorSpec)
    requires !Supported(c)
    ensures OpError(SetTextColor(c)).Some? && Step(st, Event(th, SetTextColor(c))) == st
    ensures OpError(SetBackgroundColor(c)).Some? && Step(st, Event(th, SetBackgroundColor(c))) == st
  {
  }

  /** An accepted colour setter returns nil and changes only the displayed
      colour it is about, to the resolution of the normalised spec; the
      stored construction specs stay as they were. */
  lemma AcceptedSetterEffect(st: LabelState, th: Theme, c: ColorSpec)
    requires Supported(c)
    ensures OpError(SetTextColor(c)).None?
    ensures Step(st, Event(th, SetTextColor(c))) == st.(textColor := Resolve(th, NormalizeText(c).value))
    ensures OpError(SetBackgroundColor(c)).None?
    ensures Step(st, Event(th, SetBackgroundColor(c))) == st.(fillColor := Resolve(th, NormalizeBackground(c).value))
  {
  }

  /** SetTextScale keeps a positive factor and replaces any other by 1. */
  lemma SetTextScaleEffect(st: LabelState, th: Theme, x: real)
    ensures Step(st, Event(th, SetTextScale(x))).textScale > 0.0
    ensures Step(st, Event(th, SetTextScale(x))) ==
            st.(textScale := if x > 0.0 then x else 1.0, textSize := TextSize(th, if x > 0.0 then x else 1.0))
  {
  }

  /** SetTextWithColor always shows the new text and changes the text colour
      exactly when SetTextColor would; it is SetText followed by SetTextColor
      with the error dropped. */
  lemma SetTextWithColorEffect(st: LabelState, th: Theme, s: string, c: ColorSpec)
    ensures Step(st, Event(th, SetTextWithColor(s, c))).text == s
    ensures Step(st, Event(th, SetTextWithColor(s, c))).textColor ==
            (if Supported(c) then Resolve(th, NormalizeText(c).value) else st.textColor)
    ensures Step(st, Event(th, SetTextWithColor(s, c))) ==
            Step(Step(st, Event(th, SetText(s))), Event(th, SetTextColor(c)))
    ensures OpError(SetTextWithColor(s, c)).None?
  {
  }

  /** Each tap handler calls its callback exactly once when it is set and
      nothing otherwise; no other part of the state changes. */
  lemma TapFiresOnce(st: LabelState, th: Theme, pe: PointEvent)
    ensures Step(st, Event(th, Tapped(pe))) == st.(invoked := st.invoked + Fire(st.onTapped))
    ensures Step(st, Event(th, TappedSecondary(pe))) == st.(invoked := st.invoked + Fire(st.onTappedSecondary))
    ensures Step(st, Event(th, DoubleTapped(pe))) == st.(invoked := st.invoked + Fire(st.onDoubleTapped))
    ensures |Fire(st.onTapped)| == (if st.onTapped.Some? then 1 else 0)
    ensures st.onDoubleTapped.Some? ==> Fire(st.onDoubleTapped) == [st.onDoubleTapped.value]
  {
  }

  /** MouseDown changes nothing; MouseUp records the event's modifier only. */
  lemma MouseEffects(st: LabelState, th: Theme, ev: MouseEvent)
    ensures Step(st, Event(th, MouseDown(ev))) == st
    ensures Step(st, Event(th, MouseUp(ev))) == st.(lastKeyModifier := ev.modifier)
  {
  }

  /** No operation touches the construction-time specs or the captured scale. */
  lemma StepKeepsConstruction(st: LabelState, e: Event)
    ensures Step(st, e).fgColor == st.fgColor
    ensures Step(st, e).bgColor == st.bgColor
    ensures Step(st, e).ctorScale == st.ctorScale
  {
  }

  lemma StepPreservesValid(st: LabelState, e: Event)
    requires Valid(st)
    ensures Valid(Step(st, e))
  {
  }

  // ---------------------------------------------------------------------
  // Sequences of operations

  lemma {:induction false} RunKeepsConstruction(st: LabelState, evs: seq<Event>)
    ensures Run(st, evs).fgColor == st.fgColor
    ensures Run(st, evs).bgColor == st.bgColor
    ensures Run(st, evs).ctorScale == st.ctorScale
    decreases |evs|
  {
    if evs != [] {
      RunKeepsConstruction(st, evs[..|evs| - 1]);
      StepKeepsConstruction(Run(st, evs[..|evs| - 1]), evs[|evs| - 1]);
    }
  }

  /** The stored specs stay normalised and both scales stay positive. */
  lemma {:induction false} RunPreservesValid(st: LabelState, evs: seq<Event>)
    requires Valid(st)
    ensures Valid(Run(st, evs))
    decreases |evs|
  {
    if evs != [] {
      RunPreservesValid(st, evs[..|evs| - 1]);
      StepPreservesValid(Run(st, evs[..|evs| - 1]), evs[|evs| - 1]);
    }
  }

  lemma RunAppend(st: LabelState, evs: seq<Event>, e: Event)
    ensures Run(st, evs + [e]) == Step(Run(st, evs), e)
  {
    assert (evs + [e])[..|evs|] == evs;
  }

  /** A settings change shows the construction-time colours and the
      constructor's scale again, whatever setters ran before it. */
  lemma {:induction false} SettingsChangeRestores(st: LabelState, evs: seq<Event>, th: Theme)
    ensures Run(st, evs + [Event(th, SettingsChanged)]).textColor == Resolve(th, st.fgColor)
    ensures Run(st, evs + [Event(th, SettingsChanged)]).fillColor == Resolve(th, st.bgColor)
    ensures Run(st, evs + [Event(th, SettingsChanged)]).textSize == TextSize(th, st.ctorScale)
  {
    RunAppend(st, evs, Event(th, SettingsChanged));
    RunKeepsConstruction(st, evs);
  }

  /** The same, from the label NewColorLabel built: the colours are those of
      the normalised constructor arguments under the theme now current. */
  lemma SettingsChangeAfterConstruct(s: string, txtColor: ColorSpec, backColor: ColorSpec, tScale: real,
                                     th0: Theme, evs: seq<Event>, th: Theme)
    requires Supported(txtColor) && Supported(backColor)
    ensures Construct(s, txtColor, backColor, tScale, th0).Some?
    ensures Run(Construct(s, txtColor, backColor, tScale, th0).value, evs + [Event(th, SettingsChanged)]).textColor
            == Resolve(th, NormalizeText(txtColor).value)
    ensures Run(Construct(s, txtColor, backColor, tScale, th0).value, evs + [Event(th, SettingsChanged)]).fillColor
            == Resolve(th, NormalizeBackground(backColor).value)
    ensures Run(Construct(s, txtColor, backColor, tScale, th0).value, evs + [Event(th, SettingsChanged)]).textSize
            == TextSize(th, ClampScale(tScale))
  {
    SettingsChangeRestores(Construct(s, txtColor, backColor, tScale, th0).value, evs, th);
  }

  /** lastKeyModifier is the modifier of the latest MouseUp, or what it was
      before the sequence if there was none. */
  lemma {:induction false} RunLastKeyModifier(st: LabelState, evs: seq<Event>)
    ensures (forall i :: 0 <= i < |evs| ==> !evs[i].op.MouseUp?) ==>
              Run(st, evs).lastKeyModifier == st.lastKeyModifier
    ensures forall i :: 0 <= i < |evs| && evs[i].op.MouseUp? &&
                        (forall j :: i < j < |evs| ==> !evs[j].op.MouseUp?) ==>
              Run(st, evs).lastKeyModifier == evs[i].op.ev.modifier
  {
    if forall i :: 0 <= i < |evs| ==> !evs[i].op.MouseUp? {
      RunWithoutMouseUp(st, evs);
    }
    forall i | 0 <= i < |evs| && evs[i].op.MouseUp? && (forall j :: i < j < |evs| ==> !evs[j].op.MouseUp?)
      ensures Run(st, evs).lastKeyModifier == evs[i].op.ev.modifier
    {
      RunLatestMouseUp(st, evs, i);
    }
  }

  lemma {:induction false} RunWithoutMouseUp(st: LabelState, evs: seq<Event>)
    requires forall i :: 0 <= i < |evs| ==> !evs[i].op.MouseUp?
    ensures Run(st, evs).lastKeyModifier == st.lastKeyModifier
    decreases |evs|
  {
    if evs != [] {
      var n := |evs| - 1;
      assert forall i :: 0 <= i < n ==> evs[..n][i] == evs[i];
      RunWithoutMouseUp(st, evs[..n]);
      StepLastKeyModifier(Run(st, evs[..n]), evs[n]);
    }
  }

  lemma {:induction false} RunLatestMouseUp(st: LabelState, evs: seq<Event>, i: nat)
    requires i < |evs| && evs[i].op.MouseUp?
    requires forall j :: i < j < |evs| ==> !evs[j].op.MouseUp?
    ensures Run(st, evs).lastKeyModifier == evs[i].op.ev.modifier
    decreases |evs|
  {
    var n := |evs| - 1;
    StepLastKeyModifier(Run(st, evs[..n]), evs[n]);
    if i < n {
      assert forall j :: i < j < n ==> evs[..n][j] == evs[j];
      RunLatestMouseUp(st, evs[..n], i);
    }
  }

  lemma StepLastKeyModifier(st: LabelState, e: Event)
    ensures Step(st, e).lastKeyModifier == if e.op.MouseUp? then e.op.ev.modifier else st.lastKeyModifier
  {
  }

  lemma StepInvoked(st: LabelState, e: Event)
    ensures st.invoked <= Step(st, e).invoked
    ensures !IsTap(e.op) ==> Step(st, e).invoked == st.invoked
  {
  }

  /** Callback invocations are only ever appended, and only by taps. */
  lemma {:induction false} RunInvokedOnlyByTaps(st: LabelState, evs: seq<Event>)
    ensures st.invoked <= Run(st, evs).invoked
    ensures (forall i :: 0 <= i < |evs| ==> !IsTap(evs[i].op)) ==> Run(st, evs).invoked == st.invoked
    decreases |evs|
  {
    if evs != [] {
      var n := |evs| - 1;
      assert forall i :: 0 <= i < n ==> evs[..n][i] == evs[i];
      RunInvokedOnlyByTaps(st, evs[..n]);
      StepInvoked(Run(st, evs[..n]), evs[n]);
    }
  }

  /** A label with only a double-tap callback: a single tap calls nothing,
      a double tap calls that callback once. */
  lemma DoubleTapScenario(st: LabelState, th: Theme, pe: PointEvent, h: Handler)
    requires st.onTapped.None? && st.onDoubleTapped == Some(h)
    ensures Step(st, Event(th, Tapped(pe))) == st
    ensures Step(st, Event(th, DoubleTapped(pe))).invoked == st.invoked + [h]
  {
  }

  /** The demo's first label: an empty plain-string text colour and a
      transparent background show the theme's foreground on transparent. */
  lemma HalloScenario(th: Theme)
    ensures Construct("Hallo", Named(PlainString, ""), Value(Transparent), 1.0, th).Some?
    ensures Construct("Hallo", Named(PlainString, ""), Value(Transparent), 1.0, th).value.textColor
            == th.color("foreground")
    ensures Construct("Hallo", Named(PlainString, ""), Value(Transparent), 1.0, th).value.fillColor
            == Transparent
  {
  }
}
