/** The ColorLabel widget as an object whose methods update its fields in
    place. The fields of the canvas text and the background rectangle the
    widget owns are flattened into the object; each state-changing method
    is proved to perform exactly one LabelModel.Step on the object's state. */
module Widget {
  import opened Colors
  import LabelModel

  class ColorLabel {
    var bgColor: ColorSpec
    var fgColor: ColorSpec
    var textScale: real
    /** The constructor's clamped tScale, captured by the settings listener. */
    const ctorScale: real
    var textStyle: Option<LabelModel.TextStyle>

    /** Exported callback fields; the caller assigns them directly. */
    var onTapped: Option<LabelModel.Handler>
    var onTappedSecondary: Option<LabelModel.Handler>
    var onDoubleTapped: Option<LabelModel.Handler>
    var lastKeyModifier: LabelModel.KeyModifier

    // canvas.Text
    var text: string
    var textColor: Color
    var textSize: real
    var shownStyle: LabelModel.TextStyle
    // canvas.Rectangle
    var fillColor: Color

    /** The callbacks invoked through this label so far, oldest first. */
    ghost var invoked: seq<LabelModel.Handler>

    ghost function Snapshot(): LabelModel.LabelState
      reads this
    {
      LabelModel.LabelState(bgColor, fgColor, textScale, ctorScale, textStyle,
                            onTapped, onTappedSecondary, onDoubleTapped, lastKeyModifier,
                            text, textColor, textSize, shownStyle, fillColor, invoked)
    }

    ghost predicate Valid()
      reads this
    {
      LabelModel.Valid(Snapshot())
    }

    /** The struct literal of NewColorLabel, from normalised specs. */
    constructor (s: string, fg: ColorSpec, bg: ColorSpec, tScale: real, th: Theme)
      requires Canonical(fg) && Canonical(bg) && tScale > 0.0
      ensures Valid()
      ensures Snapshot() == LabelModel.Initial(s, fg, bg, tScale, th)
    {
      bgColor, fgColor := bg, fg;
      textScale, ctorScale := tScale, tScale;
      textStyle := None;
      onTapped, onTappedSecondary, onDoubleTapped := None, None, None;
      lastKeyModifier := 0;
      text := s;
      textColor := Resolve(th, fg);
      textSize := LabelModel.TextSize(th, tScale);
      shownStyle := LabelModel.PlainStyle;
      fillColor := Resolve(th, bg);
      invoked := [];
    }

    /** The body of the listener NewColorLabel registers for settings
        changes: colours from the stored construction specs, size from the
        constructor's scale. */
    method OnSettingsChanged(th: Theme)
      requires Valid()
      modifies this
      ensures Valid()
      ensures textColor == Resolve(th, fgColor) && fillColor == Resolve(th, bgColor)
      ensures textSize == LabelModel.TextSize(th, ctorScale)
      ensures Snapshot() == LabelModel.Step(old(Snapshot()), LabelModel.Event(th, LabelModel.SettingsChanged))
    {
      textColor := Resolve(th, fgColor);
      textSize := LabelModel.TextSize(th, ctorScale);
      fillColor := Resolve(th, bgColor);
    }

    method Tapped(pe: LabelModel.PointEvent)
      requires Valid()
      modifies this
      ensures Valid()
      ensures invoked == old(invoked) + (if onTapped.Some? then [onTapped.value] else [])
      ensures Snapshot() == old(Snapshot()).(invoked := old(invoked) + LabelModel.Fire(old(onTapped)))
      ensures forall th: Theme :: Snapshot() == LabelModel.Step(old(Snapshot()), LabelModel.Event(th, LabelModel.Tapped(pe)))
    {
      if onTapped.Some? {
        invoked := invoked + [onTapped.value];
      }
    }

    method TappedSecondary(pe: LabelModel.PointEvent)
      requires Valid()
      modifies this
      ensures Valid()
      ensures invoked == old(invoked) + (if onTappedSecondary.Some? then [onTappedSecondary.value] else [])
      ensures Snapshot() == old(Snapshot()).(invoked := old(invoked) + LabelModel.Fire(old(onTappedSecondary)))
      ensures forall th: Theme :: Snapshot() == LabelModel.Step(old(Snapshot()), LabelModel.Event(th, LabelModel.TappedSecondary(pe)))
    {
      if onTappedSecondary.Some? {
        invoked := invoked + [onTappedSecondary.value];
      }
    }

    method DoubleTapped(pe: LabelModel.PointEvent)
      requires Valid()
      modifies this
      ensures Valid()
      ensures invoked == old(invoked) + (if onDoubleTapped.Some? then [onDoubleTapped.value] else [])
      ensures Snapshot() == old(Snapshot()).(invoked := old(invoked) + LabelModel.Fire(old(onDoubleTapped)))
      ensures forall th: Theme :: Snapshot() == LabelModel.Step(old(Snapshot()), LabelModel.Event(th, LabelModel.DoubleTapped(pe)))
    {
      if onDoubleTapped.Some? {
        invoked := invoked + [onDoubleTapped.value];
      }
    }

    /** Does nothing. */
    method MouseDown(ev: LabelModel.MouseEvent)
      ensures forall th: Theme :: Snapshot() == LabelModel.Step(Snapshot(), LabelModel.Event(th, LabelModel.MouseDown(ev)))
    {
    }

    method MouseUp(ev: LabelModel.MouseEvent)
      requires Valid()
      modifies this
      ensures Valid()
      ensures lastKeyModifier == ev.modifier
      ensures Snapshot() == old(Snapshot()).(lastKeyModifier := ev.modifier)
      ensures forall th: Theme :: Snapshot() == LabelModel.Step(old(Snapshot()), LabelModel.Event(th, LabelModel.MouseUp(ev)))
    {
      lastKeyModifier := ev.modifier;
    }

    /** A query: the modifier recorded by the latest MouseUp. */
    method GetLastKeyModifier() returns (m: LabelModel.KeyModifier)
      ensures m == lastKeyModifier
    {
      m := lastKeyModifier;
    }

    method SetText(s: string)
      requires Valid()
      modifies this
      ensures Valid()
      ensures text == s
      ensures Snapshot() == old(Snapshot()).(text := s)
      ensures forall th: Theme :: Snapshot() == LabelModel.Step(old(Snapshot()), LabelModel.Event(th, LabelModel.SetText(s)))
    {
      text := s;
    }

    method SetTextColor(txtColor: ColorSpec, th: Theme) returns (err: Option<LabelModel.Error>)
      requires Valid()
      modifies this
      ensures Valid()
      ensures err == LabelModel.OpError(LabelModel.SetTextColor(txtColor))
      ensures err.None? <==> Supported(txtColor)
      ensures err.None? ==> textColor == Resolve(th, NormalizeText(txtColor).value)
      ensures err.Some? ==> textColor == old(textColor)
      ensures Snapshot() == LabelModel.Step(old(Snapshot()), LabelModel.Event(th, LabelModel.SetTextColor(txtColor)))
    {
      var c := txtColor;
      if c.Named? {
        if c == Named(PlainString, "") {
          c := ForegroundName;
        }
      } else if !(c.Value? && PassesThrough(c.color)) {
        return Some(LabelModel.InvalidColorSpec(LabelModel.InvalidColorSpecMessage));
      }
      textColor := Resolve(th, c);
      return None;
    }

    method SetBackgroundColor(backColor: ColorSpec, th: Theme) returns (err: Option<LabelModel.Error>)
      requires Valid()
      modifies this
      ensures Valid()
      ensures err == LabelModel.OpError(LabelModel.SetBackgroundColor(backColor))
      ensures err.None? <==> Supported(backColor)
      ensures err.None? ==> fillColor == Resolve(th, NormalizeBackground(backColor).value)
      ensures err.Some? ==> fillColor == old(fillColor)
      ensures Snapshot() == LabelModel.Step(old(Snapshot()), LabelModel.Event(th, LabelModel.SetBackgroundColor(backColor)))
    {
      var c := backColor;
      if c.Named? {
        if c == Named(PlainString, "") {
          c := Value(Transparent);
        }
      } else if !(c.Value? && PassesThrough(c.color)) {
        return Some(LabelModel.InvalidColorSpec(LabelModel.InvalidColorSpecMessage));
      }
      fillColor := Resolve(th, c);
      return None;
    }

    method SetTextScale(tScale: real, th: Theme)
      requires Valid()
      modifies this
      ensures Valid()
      ensures textScale == LabelModel.ClampScale(tScale)
      ensures textSize == LabelModel.TextSize(th, textScale)
      ensures Snapshot() == LabelModel.Step(old(Snapshot()), LabelModel.Event(th, LabelModel.SetTextScale(tScale)))
    {
      var t := tScale;
      if t <= 0.0 {
        t := 1.0;
      }
      textSize := LabelModel.TextSize(th, t);
      textScale := t;
    }

    /** The argument is a non-nil pointer: the source dereferences it. */
    method SetTextStyle(style: LabelModel.TextStyle)
      requires Valid()
      modifies this
      ensures Valid()
      ensures textStyle == Some(style) && shownStyle == style
      ensures Snapshot() == old(Snapshot()).(textStyle := Some(style), shownStyle := style)
      ensures forall th: Theme :: Snapshot() == LabelModel.Step(old(Snapshot()), LabelModel.Event(th, LabelModel.SetTextStyle(style)))
    {
      textStyle := Some(style);
      shownStyle := style;
    }

    /** Sets the text, then the text colour; SetTextColor's error is dropped. */
    method SetTextWithColor(txt: string, txtColor: ColorSpec, th: Theme)
      requires Valid()
      modifies this
      ensures Valid()
      ensures text == txt
      ensures textColor == if Supported(txtColor) then Resolve(th, NormalizeText(txtColor).value) else old(textColor)
      ensures Snapshot() == LabelModel.Step(old(Snapshot()), LabelModel.Event(th, LabelModel.SetTextWithColor(txt, txtColor)))
    {
      text := txt;
      var _ := SetTextColor(txtColor, th);
    }
  }

  /** NewColorLabel: nil (here `null`) exactly when either spec has an
      unsupported type, the background being examined first; otherwise a
      label built from the normalised specs and the clamped scale. */
  method NewColorLabel(s: string, txtColor: ColorSpec, backColor: ColorSpec, tScale: real, th: Theme)
    returns (l: ColorLabel?)
    ensures l == null <==> !Supported(backColor) || !Supported(txtColor)
    ensures l != null ==> fresh(l) && l.Valid()
    ensures l != null ==> l.Snapshot() == LabelModel.Construct(s, txtColor, backColor, tScale, th).value
  {
    var bg := backColor;
    if bg.Named? {
      if bg == Named(PlainString, "") {
        bg := Value(Transparent);
      }
    } else if !(bg.Value? && PassesThrough(bg.color)) {
      return null;
    }

    var fg := txtColor;
    if fg.Named? {
      if fg == Named(PlainString, "") {
        fg := ForegroundName;
      }
    } else if !(fg.Value? && PassesThrough(fg.color)) {
      return null;
    }

    var scale := tScale;
    if scale <= 0.0 {
      scale := 1.0;
    }
    l := new ColorLabel(s, fg, bg, scale, th);
  }

  /** The demo's sixth label: its tap callback shows red text at scale 1.
      Only the text, its colour and its size change. */
  method Label6TapCallback(l: ColorLabel, th: Theme)
    requires l.Valid()
    modifies l
  {
    var red := NRGBA(255, 0, 0, 255);
    var fill, mod := l.fillColor, l.lastKeyModifier;
    l.SetTextWithColor("Now in red", Value(red), th);
    l.SetTextScale(1.0, th);
    assert l.text == "Now in red" && l.textColor == red && l.textSize == th.textSize * 1.0;
    assert l.fillColor == fill && l.lastKeyModifier == mod;
  }

  /** A primary click as the framework delivers it: press, release, tap.
      Only the modifier and the invocation log change. */
  method ClickSequence(l: ColorLabel, ev: LabelModel.MouseEvent, pe: LabelModel.PointEvent)
    requires l.Valid()
    modifies l
  {
    var txt, color, fill := l.text, l.textColor, l.fillColor;
    l.MouseDown(ev);
    l.MouseUp(ev);
    l.Tapped(pe);
    var m := l.GetLastKeyModifier();
    assert m == ev.modifier;
    assert l.text == txt && l.textColor == color && l.fillColor == fill;
  }
}
