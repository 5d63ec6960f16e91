/**
 * The interaction façade: sequences of synthesized events that make up a
 * keystroke, a typed string, a special key pressed in a component, and a
 * click on a button, checkbox or radio button.
 */
module Facade {
  import opened Host
  import opened Synthesizer
  import opened KeyNames

  /** The j-th event of a keystroke: down, press, up. */
  function Phase(j: nat): KeyType
    requires j < 3
  {
    if j == 0 then KeyDown else if j == 1 then KeyPress else KeyUp
  }

  /** The three events of one keystroke, all carrying the same code and options. */
  function Keystroke(p: Platform, code: JsNum, opts: Options): seq<Event> {
    [Key(KeyDescriptor(p, KeyDown, code, opts)),
     Key(KeyDescriptor(p, KeyPress, code, opts)),
     Key(KeyDescriptor(p, KeyUp, code, opts))]
  }

  /**
   * The effect of `simulateKey` on a present target: with key support, the
   * three events are dispatched, the character is appended to the value
   * and the callback (if any) is scheduled once; without it the first
   * event throws and nothing changes.
   */
  twostate predicate KeystrokeEffect(p: Platform, target: Element, code: JsNum, opts: Options,
                                     sched: Scheduler, r: Outcome)
    reads target, sched
  {
    if CanSimulateKeys(p) then
      && r == Pass
      && target.trace == old(target.trace) + Keystroke(p, code, opts)
      && target.value == old(target.value) + [FromCharCode(code)]
      && sched.scheduled == old(sched.scheduled) + (if opts.fn.Truthy() then 1 else 0)
    else
      r == Fail(NoEventSimulation) && unchanged(target, sched)
  }

  /** `simulateKey`: keydown, keypress, keyup, then the value grows by the character. */
  method SimulateKey(p: Platform, target: Element?, code: JsNum, opts: Options, sched: Scheduler)
    returns (r: Outcome)
    modifies target, sched
    ensures target == null ==> r == Fail(TargetRequired) && unchanged(sched)
    ensures target != null ==> KeystrokeEffect(p, target, code, opts, sched, r)
  {
    if target == null {
      return Fail(TargetRequired);
    }
    r := InjectKeyEvent(p, target, "keydown", code, opts);
    if r.Fail? {
      return;
    }
    r := InjectKeyEvent(p, target, "keypress", code, opts);
    if r.Fail? {
      return;
    }
    r := InjectKeyEvent(p, target, "keyup", code, opts);
    if r.Fail? {
      return;
    }
    target.value := target.value + [FromCharCode(code)];
    if opts.fn.Truthy() {
      sched.scheduled := sched.scheduled + 1;
    }
  }

  /** The events dispatched by typing `text`: one keystroke per code unit, left to right. */
  function Typed(p: Platform, text: seq<CodeUnit>, opts: Options): seq<Event>
    decreases |text|
  {
    if text == [] then []
    else Typed(p, text[..|text| - 1], opts) + Keystroke(p, Num(text[|text| - 1]), opts)
  }

  /** Typing one more code unit appends its keystroke. */
  lemma TypedStep(p: Platform, text: seq<CodeUnit>, i: nat, opts: Options)
    requires i < |text|
    ensures Typed(p, text[..i + 1], opts) == Typed(p, text[..i], opts) + Keystroke(p, Num(text[i]), opts)
  {
    assert text[..i + 1][..i] == text[..i];
  }

  /** Typing n code units dispatches exactly 3n events. */
  lemma {:induction false} TypedLength(p: Platform, text: seq<CodeUnit>, opts: Options)
    ensures |Typed(p, text, opts)| == 3 * |text|
    decreases |text|
  {
    if text != [] {
      TypedLength(p, text[..|text| - 1], opts);
    }
  }

  /**
   * Event 3k+j of a typed text is phase j (down, press, up) of the k-th
   * code unit, and a handler reading the event finds that code unit.
   */
  lemma {:induction false} TypedAt(p: Platform, text: seq<CodeUnit>, opts: Options, k: nat, j: nat)
    requires k < |text| && j < 3
    ensures 3 * k + j < |Typed(p, text, opts)|
    ensures Typed(p, text, opts)[3 * k + j] == Key(KeyDescriptor(p, Phase(j), Num(text[k]), opts))
    ensures Typed(p, text, opts)[3 * k + j].key.eventType == KeyTypeName(Phase(j))
    ensures CodeRead(p, opts.isKeyCode.Truthy(), Typed(p, text, opts)[3 * k + j].key) == Num(text[k])
    decreases |text|
  {
    var prefix := text[..|text| - 1];
    TypedLength(p, prefix, opts);
    if k < |text| - 1 {
      TypedAt(p, prefix, opts, k, j);
    }
    KeyDescriptorCarriesCode(p, Phase(j), Num(text[k]), opts);
  }

  /** Typing a + b dispatches the events of a, then those of b. */
  lemma {:induction false} TypedAppend(p: Platform, a: seq<CodeUnit>, b: seq<CodeUnit>, opts: Options)
    ensures Typed(p, a + b, opts) == Typed(p, a, opts) + Typed(p, b, opts)
    decreases |b|
  {
    if b == [] {
      assert a + b == a;
    } else {
      var b' := b[..|b| - 1];
      assert (a + b)[..|a + b| - 1] == a + b';
      assert (a + b)[|a + b| - 1] == b[|b| - 1];
      TypedAppend(p, a, b', opts);
    }
  }

  /** Typing "ab" dispatches a-down, a-press, a-up, b-down, b-press, b-up. */
  lemma TypedAb(p: Platform, opts: Options)
    ensures |Typed(p, [97, 98], opts)| == 6
    ensures forall i :: 0 <= i < 6 ==> Typed(p, [97, 98], opts)[i].Key?
    ensures Typed(p, [97, 98], opts)[0].key.eventType == "keydown"
    ensures Typed(p, [97, 98], opts)[1].key.eventType == "keypress"
    ensures Typed(p, [97, 98], opts)[2].key.eventType == "keyup"
    ensures Typed(p, [97, 98], opts)[3].key.eventType == "keydown"
    ensures Typed(p, [97, 98], opts)[4].key.eventType == "keypress"
    ensures Typed(p, [97, 98], opts)[5].key.eventType == "keyup"
    ensures forall i :: 0 <= i < 6 ==>
      CodeRead(p, opts.isKeyCode.Truthy(), Typed(p, [97, 98], opts)[i].key) == Num(if i < 3 then 97 else 98)
  {
    var text: seq<CodeUnit> := [97, 98];
    TypedLength(p, text, opts);
    forall k: nat, j: nat | k < 2 && j < 3
      ensures Typed(p, text, opts)[3 * k + j] == Key(KeyDescriptor(p, Phase(j), Num(text[k]), opts))
      ensures CodeRead(p, opts.isKeyCode.Truthy(), Typed(p, text, opts)[3 * k + j].key) == Num(text[k])
    {
      TypedAt(p, text, opts, k, j);
    }
    forall i | 0 <= i < 6
      ensures CodeRead(p, opts.isKeyCode.Truthy(), Typed(p, text, opts)[i].key) == Num(if i < 3 then 97 else 98)
    {
      assert i == 3 * (i / 3) + i % 3;
    }
  }

  /**
   * The capability check of the click helpers and of `typeText`: an
   * absent object or one without the capability is invalid, and that is
   * checked before whether it is rendered.
   */
  function Guard(w: Option<Widget>, k: Kind): (r: Outcome)
    ensures r == Pass <==> w.Some? && w.value.Has(k) && w.value.rendered
    ensures r.Fail? && w.Some? && w.value.Has(k) ==> r.error == NotRendered(k)
    ensures r.Fail? && !(w.Some? && w.value.Has(k)) ==> r.error == InvalidObject(k)
  {
    if w.None? || !w.value.Has(k) then Fail(InvalidObject(k))
    else if !w.value.rendered then Fail(NotRendered(k))
    else Pass
  }

  /**
   * The effect of `typeText`: a failed guard throws and changes nothing;
   * without key support a non-empty text throws at its first event and
   * changes nothing; otherwise the field's input element receives the
   * typed events, its value grows by the text and the callback, when
   * there is one, is scheduled `callbacks` times.
   */
  twostate predicate TypeTextEffect(p: Platform, field: Option<Widget>, text: seq<CodeUnit>,
                                    opts: Options, sched: Scheduler, r: Outcome, callbacks: nat)
    reads InputTarget(field), sched
  {
    if Guard(field, FieldKind).Fail? then
      r == Guard(field, FieldKind) && unchanged(InputTarget(field)) && unchanged(sched)
    else if !CanSimulateKeys(p) && |text| > 0 then
      var el := field.value.inputEl;
      && r == Fail(NoEventSimulation)
      && el.trace == old(el.trace) && el.value == old(el.value)
      && sched.scheduled == old(sched.scheduled)
    else
      var el := field.value.inputEl;
      && r == Pass
      && el.trace == old(el.trace) + Typed(p, text, opts)
      && el.value == old(el.value) + text
      && sched.scheduled == old(sched.scheduled) + (if opts.fn.Truthy() then callbacks else 0)
  }

  /**
   * The loop of `typeText`: one `simulateKey` per code unit, left to
   * right, each with the same options. Without key support the first
   * keystroke throws and nothing changes.
   */
  method TypeCodeUnits(p: Platform, el: Element, text: seq<CodeUnit>, opts: Options, sched: Scheduler)
    returns (r: Outcome)
    modifies el, sched
    ensures CanSimulateKeys(p) || |text| == 0 ==>
      && r == Pass
      && el.trace == old(el.trace) + Typed(p, text, opts)
      && el.value == old(el.value) + text
      && sched.scheduled == old(sched.scheduled) + (if opts.fn.Truthy() then |text| else 0)
    ensures !CanSimulateKeys(p) && |text| > 0 ==>
      && r == Fail(NoEventSimulation)
      && el.trace == old(el.trace) && el.value == old(el.value)
      && sched.scheduled == old(sched.scheduled)
  {
    r := Pass;
    var i := 0;
    while i < |text|
      invariant 0 <= i <= |text|
      invariant i > 0 ==> CanSimulateKeys(p)
      invariant r == Pass
      invariant el.trace == old(el.trace) + Typed(p, text[..i], opts)
      invariant el.value == old(el.value) + text[..i]
      invariant sched.scheduled == old(sched.scheduled) + (if opts.fn.Truthy() then i else 0)
    {
      var chr := text[i];
      r := SimulateKey(p, el, Num(chr), opts, sched);
      if r.Fail? {
        return;
      }
      TypedStep(p, text, i, opts);
      assert text[..i + 1] == text[..i] + [text[i]];
      i := i + 1;
    }
    assert text[..i] == text;
  }

  /**
   * `typeText` as written: checks the field, then types the text. Every
   * keystroke is given the same options, callback included, so a callback
   * is scheduled once per code unit and once more at the end.
   */
  method TypeText(p: Platform, field: Option<Widget>, text: seq<CodeUnit>, opts: Options, sched: Scheduler)
    returns (r: Outcome)
    modifies InputTarget(field), sched
    ensures TypeTextEffect(p, field, text, opts, sched, r, |text| + 1)
  {
    r := Guard(field, FieldKind);
    if r.Fail? {
      return;
    }
    r := TypeCodeUnits(p, field.value.inputEl, text, opts, sched);
    if r.Fail? {
      return;
    }
    if opts.fn.Truthy() {
      sched.scheduled := sched.scheduled + 1;
    }
  }

  /** The keystrokes of a text do not depend on the callback option. */
  lemma {:induction false} TypedIgnoresCallback(p: Platform, text: seq<CodeUnit>, opts: Options, fn: JsValue)
    ensures Typed(p, text, opts.(fn := fn)) == Typed(p, text, opts)
    decreases |text|
  {
    if text != [] {
      TypedIgnoresCallback(p, text[..|text| - 1], opts, fn);
    }
  }

  /**
   * `typeText` as its documentation describes it: the same keystrokes and
   * value, with the callback scheduled once, after the whole text is typed.
   */
  method TypeTextSingleCallback(p: Platform, field: Option<Widget>, text: seq<CodeUnit>, opts: Options,
                                sched: Scheduler)
    returns (r: Outcome)
    modifies InputTarget(field), sched
    ensures TypeTextEffect(p, field, text, opts, sched, r, 1)
  {
    r := Guard(field, FieldKind);
    if r.Fail? {
      return;
    }
    r := TypeCodeUnits(p, field.value.inputEl, text, opts.(fn := Absent), sched);
    if r.Fail? {
      return;
    }
    TypedIgnoresCallback(p, text, opts, Absent);
    if opts.fn.Truthy() {
      sched.scheduled := sched.scheduled + 1;
    }
  }

  /** A rendered text field, for the two examples below (which run it on a standards browser). */
  function SampleField(el: Element): Widget {
    Widget(false, false, false, true, true, true, el, el)
  }

  /** Typing "ab" with a callback through `typeText` as written schedules that callback three times. */
  method CallbackCountAsWritten() returns (count: nat)
    ensures count == 3
  {
    var el := new Element([]);
    var sched := new Scheduler();
    var r := TypeText(Platform(false, true, false), Some(SampleField(el)), [97, 98],
                      NoOptions.(fn := Other(true)), sched);
    count := sched.scheduled;
  }

  /** The same call through the corrected version schedules it once. */
  method CallbackCountCorrected() returns (count: nat)
    ensures count == 1
  {
    var el := new Element([]);
    var sched := new Scheduler();
    var r := TypeTextSingleCallback(Platform(false, true, false), Some(SampleField(el)), [97, 98],
                                    NoOptions.(fn := Other(true)), sched);
    count := sched.scheduled;
  }

  /** The element a click helper clicks: the root element of a button, the input of a checkbox or radio. */
  function ClickElement(w: Widget, k: Kind): Element {
    if k == ButtonKind then w.el else w.inputEl
  }

  function ClickTarget(w: Option<Widget>, k: Kind): set<object> {
    if w.Some? then {ClickElement(w.value, k)} else {}
  }

  /**
   * The effect of a click helper: a failed guard throws with nothing
   * dispatched; otherwise one left single click, with no options, is
   * dispatched at the widget's clickable element.
   */
  twostate predicate ClickEffect(p: Platform, w: Option<Widget>, k: Kind, r: Outcome)
    reads ClickTarget(w, k)
  {
    if Guard(w, k).Fail? then
      r == Guard(w, k) && unchanged(ClickTarget(w, k))
    else
      var el := ClickElement(w.value, k);
      && r == Pass
      && el.trace == old(el.trace) + [Mouse(MouseClickEvent(p.isIE, NoOptions))]
      && el.value == old(el.value)
  }

  /** `clickButton`. */
  method ClickButton(p: Platform, button: Option<Widget>) returns (r: Outcome)
    modifies ClickTarget(button, ButtonKind)
    ensures ClickEffect(p, button, ButtonKind, r)
  {
    r := Guard(button, ButtonKind);
    if r.Fail? {
      return;
    }
    r := InjectMouseClick(p, button.value.el, NoOptions);
  }

  /** `clickCheckbox`. */
  method ClickCheckbox(p: Platform, cb: Option<Widget>) returns (r: Outcome)
    modifies ClickTarget(cb, CheckboxKind)
    ensures ClickEffect(p, cb, CheckboxKind, r)
  {
    r := Guard(cb, CheckboxKind);
    if r.Fail? {
      return;
    }
    r := InjectMouseClick(p, cb.value.inputEl, NoOptions);
  }

  /** `clickRadioButton`. */
  method ClickRadioButton(p: Platform, rb: Option<Widget>) returns (r: Outcome)
    modifies ClickTarget(rb, RadioKind)
    ensures ClickEffect(p, rb, RadioKind, r)
  {
    r := Guard(rb, RadioKind);
    if r.Fail? {
      return;
    }
    r := InjectMouseClick(p, rb.value.inputEl, NoOptions);
  }

  /**
   * The effect of `enterSpecialKey`: a target that is not a rendered
   * component is silently ignored; otherwise one keystroke is simulated
   * on its element.
   */
  twostate predicate SpecialKeyEffect(p: Platform, target: Option<Widget>, code: JsNum, opts: Options,
                                      sched: Scheduler, r: Outcome)
    reads MainTarget(target), sched
  {
    if Guard(target, ComponentKind).Fail? then
      r == Pass && unchanged(MainTarget(target)) && unchanged(sched)
    else
      KeystrokeEffect(p, target.value.el, code, opts, sched, r)
  }

  /** `enterSpecialKey`. */
  method EnterSpecialKey(p: Platform, target: Option<Widget>, code: JsNum, opts: Options, sched: Scheduler)
    returns (r: Outcome)
    modifies MainTarget(target), sched
    ensures SpecialKeyEffect(p, target, code, opts, sched, r)
  {
    if target.None? || !target.value.isComponent || !target.value.rendered {
      return Pass;
    }
    r := SimulateKey(p, target.value.el, code, opts, sched);
  }

  /**
   * With key support, `enterSpecialKey` completes without dispatching
   * anything exactly when its target is not a rendered component.
   */
  twostate lemma SilentExactlyWhenGuardFails(p: Platform, target: Option<Widget>, code: JsNum, opts: Options,
                                             sched: Scheduler, r: Outcome)
    requires CanSimulateKeys(p)
    requires SpecialKeyEffect(p, target, code, opts, sched, r)
    ensures Guard(target, ComponentKind).Fail? <==>
            r == Pass && (target.Some? ==> target.value.el.trace == old(target.value.el.trace))
  {
    if Guard(target, ComponentKind).Pass? {
      assert |target.value.el.trace| == |old(target.value.el.trace)| + 3;
    }
  }

  /** `pressEnter`: the special key with Ext's ENTER constant. */
  method PressEnter(p: Platform, keys: map<string, int>, target: Option<Widget>, opts: Options, sched: Scheduler)
    returns (r: Outcome)
    modifies MainTarget(target), sched
    ensures SpecialKeyEffect(p, target, KeyConstant(keys, "ENTER"), opts, sched, r)
  {
    r := EnterSpecialKey(p, target, KeyConstant(keys, "ENTER"), opts, sched);
  }

  /** `pressEscape`: the special key with Ext's ESC constant. */
  method PressEscape(p: Platform, keys: map<string, int>, target: Option<Widget>, opts: Options, sched: Scheduler)
    returns (r: Outcome)
    modifies MainTarget(target), sched
    ensures SpecialKeyEffect(p, target, KeyConstant(keys, "ESC"), opts, sched, r)
  {
    r := EnterSpecialKey(p, target, KeyConstant(keys, "ESC"), opts, sched);
  }

  /** `pressSpecialKey`: the special key named by `key`, resolved by `keyNameToCode`. */
  method PressSpecialKey(p: Platform, keys: map<string, int>, target: Option<Widget>, key: string,
                         opts: Options, sched: Scheduler)
    returns (r: Outcome)
    modifies MainTarget(target), sched
    ensures SpecialKeyEffect(p, target, KeyNameToCode(keys, key), opts, sched, r)
  {
    var code := KeyNameToCode(keys, key);
    r := EnterSpecialKey(p, target, code, opts, sched);
  }
}
