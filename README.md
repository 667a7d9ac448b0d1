# ColorLabel — a Dafny model

This project models `colorlabel.go`, a Fyne widget: a text label whose text and
background colours are given either as theme colour names or as raw colours. The
label can be tapped, secondary-tapped and double-tapped, and it remembers the
keyboard modifier of the last mouse release. The model covers three parts:

- **Colour specifications** (`colors.dfy`, module `Colors`). The Go parameter of
  type `any` becomes `ColorSpec`, which has three cases:
  - `Named(kind, name)`: the name is either a plain `string` or a
    `fyne.ThemeColorName`. The kind is kept because only a plain `string`
    compares equal to the untyped `""`.
  - `Value(color)`: any `color.Color`. `NRGBA`, `Alpha16` and `Gray16` are
    explicit. `OtherColor` stands for every other colour type.
  - `NonColor`: nil or any value that is not a colour.

  `Resolve` is `getColor`. `Normalize`, `NormalizeText` and
  `NormalizeBackground` are the type switch that appears three times in the
  source. The current theme is a value `Theme(color, textSize)`.
- **The label as a state machine** (`label.dfy`, module `LabelModel`).
  - `LabelState` holds the widget's fields together with the fields of the
    canvas text and rectangle it owns.
  - `Construct` is `NewColorLabel`, with `None` for nil.
  - `Step` applies one operation under the theme current at that moment.
  - `OpError` is the error an operation returns.
  - `Run` applies a sequence of operations.
  - Lemmas state what single operations do and what every sequence preserves.
- **The widget object** (`widget.dfy`, module `Widget`).
  - Class `ColorLabel` has the source's fields, and its methods update them in
    place.
  - Every state-changing method is proved to perform exactly one
    `LabelModel.Step` on the object's state and to keep `Valid()`. The
    theme-independent ones also state their new state directly, as an
    update of the old state.
  - `MouseDown` changes nothing, and `GetLastKeyModifier` is a query.
  - `Label6TapCallback` and `ClickSequence` are clients that use only these
    contracts.
  - `NewColorLabel` returns `null` for the source's nil.
  - `OnSettingsChanged` is the body of the listener the constructor registers.

Two behaviours of the code are modelled as written:

- The settings listener re-resolves the colours from the specs stored at
  construction. It also recomputes the text size from the constructor's scale,
  which the closure captured. `SetTextColor`, `SetBackgroundColor` and
  `SetTextScale` never update those stored values. So a theme change undoes
  every earlier colour or scale setter (`SettingsChangeRestores`).
- `SetTextScale` writes the field `textScale`, but nothing reads it.

`getColor` and the three type switches accept five dynamic types
(colorlabel.go:78-88, 97-107), so `ColorSpec` tells them apart.

## Model

| member | source | states |
|---|---|---|
| Colors.ResolveCases | colorlabel.go:77-91 | getColor returns the theme's colour for a name of either kind. It returns NRGBA, Alpha16 and Gray16 values unchanged. Every unsupported spec gives transparent. |
| Colors.Resolve | colorlabel.go:77-91 | getColor itself. It has no contract of its own: ResolveCases states its three outcomes, and ResolveThemeIndependent and ResolveKindIrrelevant state what it depends on. |
| Colors.ResolveThemeIndependent | colorlabel.go:77-91 | Only names consult the theme. Every other spec resolves to the same colour under any two themes. |
| Colors.ResolveKindIrrelevant | colorlabel.go:79-82 | A plain string and a ThemeColorName with the same text resolve to the same colour. |
| Colors.Normalize | colorlabel.go:97-110 | The type switch accepts exactly string, ThemeColorName, NRGBA, Alpha16 and Gray16. An empty plain string is replaced by the default. Every other accepted spec is kept. |
| Colors.NormalizeText | colorlabel.go:112-125 | Text colour: accepted exactly for the supported kinds. The result is canonical. An empty plain string becomes ColorNameForeground. |
| Colors.NormalizeBackground | colorlabel.go:97-110 | Background colour: accepted exactly for the supported kinds. The result is canonical. An empty plain string becomes color.Transparent. |
| Colors.EmptyThemeNameKept | colorlabel.go:98-101 | An empty ThemeColorName is not equal to "". It is kept and looked up under the empty name. |
| Colors.EmptyPlainNameDefaults | colorlabel.go:97-125 | An empty plain string resolves to the theme's foreground as a text colour. As a background it resolves to transparent under every theme. |
| Colors.NormalizePreservesResolution | colorlabel.go:97-125 | Apart from the empty plain string, normalisation never changes the colour a spec resolves to. |
| Colors.NormalizeIdempotent | colorlabel.go:97-125 | Normalising an already normalised spec changes nothing. |
| LabelModel.ClampScale | colorlabel.go:127-129 | The scale is always positive. A positive input is kept. Any input ≤ 0 becomes exactly 1. |
| LabelModel.TextSize | colorlabel.go:139 | `theme.TextSize() * tScale`, also at lines 146 and 253. It has no contract of its own: Construct, SetTextScaleEffect and SettingsChangeRestores state which scale it is applied to. |
| LabelModel.Initial | colorlabel.go:131-139 | The struct literal and the size assignment, from normalised specs and a positive scale. It has no contract of its own: Construct states every field of the label it builds. |
| LabelModel.Construct | colorlabel.go:96-152 | Nil exactly when either spec is unsupported. Otherwise the stored specs are the normalised inputs and both scales are the clamped input. The displayed colours are the resolved specs and the size is the theme size times the scale. No style, no callbacks, modifier 0 and no invocations. |
| LabelModel.OpError | colorlabel.go:206-242 | Only SetTextColor and SetBackgroundColor return an error, and exactly for an unsupported spec. SetTextWithColor never does. |
| LabelModel.Step | colorlabel.go:144-270 | The new state after one operation: each method, the settings listener body, and the caller assigning a callback field. It has no contract of its own: the single-step lemmas below state its cases, and the Run lemmas state what it preserves. |
| LabelModel.ApplyTextColor | colorlabel.go:206-223 | SetTextColor's effect on the state. It has no contract of its own: RejectedSetterIsNoOp and AcceptedSetterEffect state both outcomes. |
| LabelModel.RejectedSetterIsNoOp | colorlabel.go:206-246 | A colour setter given an unsupported spec returns the error and leaves the whole state unchanged. |
| LabelModel.AcceptedSetterEffect | colorlabel.go:206-246 | An accepted colour setter returns nil. It sets only its displayed colour, to getColor of the normalised spec. The stored specs are not updated. |
| LabelModel.SetTextScaleEffect | colorlabel.go:249-256 | SetTextScale stores the clamped scale, which is positive. It sets the text size from that scale and changes nothing else. |
| LabelModel.SetTextWithColorEffect | colorlabel.go:267-270 | The text is always set. The colour changes only for a supported spec. The operation equals SetText followed by SetTextColor, and the error is dropped. |
| LabelModel.TapFiresOnce | colorlabel.go:163-181 | Each tap handler invokes its own callback exactly once when it is set. It does nothing when the callback is nil. Nothing else changes. |
| LabelModel.MouseEffects | colorlabel.go:184-190 | MouseDown changes nothing. MouseUp records the event's modifier and changes nothing else. |
| LabelModel.StepKeepsConstruction | colorlabel.go:198-270 | No operation changes the stored fgColor/bgColor or the captured constructor scale. |
| LabelModel.StepPreservesValid | colorlabel.go:249-254 | Every operation keeps the stored specs canonical and both scales positive. |
| LabelModel.RunKeepsConstruction | colorlabel.go:198-270 | The construction specs and the captured scale survive any sequence of operations. |
| LabelModel.RunPreservesValid | colorlabel.go:127-129 | After any sequence of operations, the scale is still > 0 and the stored specs are still normalised. |
| LabelModel.SettingsChangeRestores | colorlabel.go:144-150 | After any history, a settings change shows getColor of the construction specs and the size from the constructor's scale. |
| LabelModel.SettingsChangeAfterConstruct | colorlabel.go:96-150 | For a label NewColorLabel built, a settings change shows the normalised constructor arguments resolved under the new theme. The size uses the clamped constructor scale. |
| LabelModel.RunLastKeyModifier | colorlabel.go:188-196 | The last key modifier is the modifier of the most recent MouseUp. With no MouseUp it is the previous value, which is 0 after construction. |
| LabelModel.RunInvokedOnlyByTaps | colorlabel.go:163-181 | Callback invocations are only appended. A history without taps invokes nothing. |
| LabelModel.DoubleTapScenario | colorlabel.go:163-181 | With only a double-tap callback set, a single tap changes nothing and a double tap invokes that callback once. |
| LabelModel.HalloScenario | example/main.go:45 | The demo's first label shows the theme's foreground on a transparent background. |
| Widget.Label6TapCallback | example/main.go:60-63 | The demo's sixth-label tap callback, as a client of the widget contracts. It has no ensures; its assertions show the text "Now in red", red text and a size at scale 1, with the fill colour and modifier unchanged. |
| Widget.ClickSequence | colorlabel.go:184-196 | A client that runs press, release and tap, then queries the modifier. It has no ensures; its assertions show the modifier recorded and the text and colours unchanged. |
| Widget.NewColorLabel | colorlabel.go:96-152 | Returns null exactly when either spec is unsupported. Otherwise it returns a fresh, valid label whose state is Construct's. |
| Widget.ColorLabel.constructor | colorlabel.go:131-139 | Builds the label from normalised specs and a positive scale. The displayed colours and size come from them. |
| Widget.ColorLabel.OnSettingsChanged | colorlabel.go:144-150 | Displayed colours become getColor of the stored specs, and the size uses the constructor's scale. Nothing else changes. |
| Widget.ColorLabel.Tapped | colorlabel.go:163-167 | Appends the primary-tap callback to the invocations if it is set. Nothing else changes. |
| Widget.ColorLabel.TappedSecondary | colorlabel.go:170-174 | Appends the secondary-tap callback if it is set. Nothing else changes. |
| Widget.ColorLabel.DoubleTapped | colorlabel.go:177-181 | Appends the double-tap callback if it is set. Nothing else changes. |
| Widget.ColorLabel.MouseDown | colorlabel.go:184-185 | Changes nothing: the method has no modifies clause. Its ensures only restates that MouseDown is a no-op Step. |
| Widget.ColorLabel.MouseUp | colorlabel.go:188-190 | Records the event's modifier. Nothing else changes. |
| Widget.ColorLabel.GetLastKeyModifier | colorlabel.go:194-196 | Returns the recorded modifier. |
| Widget.ColorLabel.SetText | colorlabel.go:199-202 | Sets the displayed text. Nothing else changes. |
| Widget.ColorLabel.SetTextColor | colorlabel.go:206-224 | Gives an error exactly for an unsupported spec and then leaves the text colour unchanged. Otherwise it gives nil and sets the text colour to getColor of the normalised spec. |
| Widget.ColorLabel.SetBackgroundColor | colorlabel.go:228-246 | Gives an error exactly for an unsupported spec and then leaves the fill colour unchanged. Otherwise it gives nil and sets the fill colour to getColor of the normalised spec. |
| Widget.ColorLabel.SetTextScale | colorlabel.go:249-256 | Stores the clamped scale and sets the text size from it. |
| Widget.ColorLabel.SetTextStyle | colorlabel.go:259-263 | Stores the style and shows it on the text. |
| Widget.ColorLabel.SetTextWithColor | colorlabel.go:267-270 | Sets the text. Sets the text colour only when the spec is supported, and drops the error. |

## Left out

- Rendering and layout (`CreateRenderer` with its stack and padded containers), `ExtendBaseWidget` (colorlabel.go:143) and every `Refresh` call: these belong to the framework, whose source is not part of this model.
- Listener registration through the application's settings (colorlabel.go:144): this is a global framework hook. Its callback body is `ColorLabel.OnSettingsChanged`. The theme current at each call is a parameter.
- Float arithmetic: scales and text sizes are `real`, so float32 rounding is not modelled. A NaN scale, which passes the `<= 0` test unchanged in Go, is not modelled either.
- `theme.TextSize()` and `theme.Color(name)` are fields of the `Theme` parameter. Which colour type a theme returns is abstract.
- The canvas text and rectangle are separate framework objects reached through pointers. Their fields are flattened into the label, so aliasing through the renderer is not modelled.
- `SetTextStyle` takes a pointer and dereferences it, so nil panics. The model takes a non-nil style value. The stored pointer's later aliasing is not modelled. `fyne.TextStyle` is reduced to bold, italic and monospace.
- The dead branch at colorlabel.go:140-142: `textStyle` is always nil at that point.
- What a callback does when invoked, such as calling the label's own setters in the demo. The model records only that the callback was invoked, in the ghost log `invoked`. The caller's assignments to the exported callback fields are the `Assign…` operations of `LabelModel.Op`.
- Truncation and `SetTruncate` (example/main.go:81): no source for them exists in colorlabel.go. The rest of example/main.go is window and application wiring.
- The event parameters of the tap handlers and `MouseDown` are accepted and ignored, as in the source. `MouseUp` dereferences its event pointer (colorlabel.go:189), so a nil event panics; the model takes the event by value.
