/**
 * The event synthesizer: builds one mouse-click or key event descriptor,
 * normalised for the platform, and dispatches it at a target element.
 */
module Synthesizer {
  import opened Host

  /**
   * Ext's "denormalised" button code for a click, chosen by the four-way
   * table over (IE?, right button?); the final fallback cannot be reached.
   */
  function ButtonCode(isIE: bool, right: bool): (code: int)
    ensures code in {0, 1, 4}
    ensures PressedRight(isIE, code) == Some(right)
  {
    if isIE && right then 4
    else if !isIE && right then 1
    else if isIE && !right then 1
    else if !isIE && !right then 0
    else 0
  }

  /** Reads a denormalised button code back on the given engine: right button, left button, or not a click code. */
  function PressedRight(isIE: bool, code: int): Option<bool> {
    if isIE then
      (if code == 4 then Some(true) else if code == 1 then Some(false) else None)
    else
      (if code == 1 then Some(true) else if code == 0 then Some(false) else None)
  }

  /** The button codes per engine: 4/1 on IE, 1/0 elsewhere for right/left. */
  lemma ButtonCodeTable()
    ensures ButtonCode(true, true) == 4 && ButtonCode(false, true) == 1
    ensures ButtonCode(true, false) == 1 && ButtonCode(false, false) == 0
  {
  }

  /** The same code means different buttons on the two engines, so the engine must be known. */
  lemma ButtonCodeDependsOnEngine()
    ensures ButtonCode(false, true) == ButtonCode(true, false)
    ensures PressedRight(false, 1) != PressedRight(true, 1)
  {
  }

  /** The click descriptor handed to Ext's event object for these options. */
  function MouseClickEvent(isIE: bool, opts: Options): (e: MouseEvent)
    ensures e.eventType in {"click", "dblclick"}
    ensures e.eventType == "dblclick" <==> opts.dblclick.Truthy()
    ensures PressedRight(isIE, e.button) == Some(opts.right.Truthy())
    ensures e.ctrlKey == opts.ctrlKey && e.shiftKey == opts.shiftKey && e.altKey == opts.altKey
  {
    MouseEvent(
      if opts.dblclick.Truthy() then "dblclick" else "click",
      ButtonCode(isIE, opts.right.Truthy()),
      opts.ctrlKey, opts.shiftKey, opts.altKey)
  }

  /** `injectMouseClick`: a missing target throws; otherwise exactly one click event is dispatched. */
  method InjectMouseClick(p: Platform, target: Element?, opts: Options) returns (r: Outcome)
    modifies target
    ensures target == null ==> r == Fail(TargetRequired)
    ensures target != null ==> r == Pass
    ensures target != null ==> target.trace == old(target.trace) + [Mouse(MouseClickEvent(p.isIE, opts))]
    ensures target != null ==> target.value == old(target.value)
  {
    if target == null {
      return Fail(TargetRequired);
    }
    var event := MouseClickEvent(p.isIE, opts);
    target.trace := target.trace + [Mouse(event)];
    r := Pass;
  }

  /** The three key event types. */
  datatype KeyType = KeyDown | KeyPress | KeyUp

  function KeyTypeName(t: KeyType): string {
    match t
    case KeyDown => "keydown"
    case KeyPress => "keypress"
    case KeyUp => "keyup"
  }

  /** Validates an event type string: only the three key event names are accepted. */
  function ParseKeyType(s: string): (r: Option<KeyType>)
    ensures r.Some? <==> s in {"keydown", "keyup", "keypress"}
    ensures r.Some? ==> KeyTypeName(r.value) == s
  {
    if s == "keydown" then Some(KeyDown)
    else if s == "keypress" then Some(KeyPress)
    else if s == "keyup" then Some(KeyUp)
    else None
  }

  /** Each key type's name is accepted and parses back to that type. */
  lemma KeyTypeNameRoundTrip(t: KeyType)
    ensures ParseKeyType(KeyTypeName(t)) == Some(t)
  {
  }

  /** A modifier option is honoured only when it is a boolean; anything else means "not pressed". */
  function ModifierFlag(v: JsValue): (pressed: bool)
    ensures pressed <==> v == Bool(true)
  {
    if v.Bool? then v.b else false
  }

  /**
   * The (keyCode, charCode) pair of a standards-path event: on IE the code
   * is always the key code and the character code is unset; elsewhere the
   * code goes to the channel `isKeyCode` selects and the other one is 0.
   */
  function CodeChannels(isIE: bool, isKeyCode: bool, code: JsNum): (r: (JsNum, JsNum))
    ensures (isIE || isKeyCode ==> r.0 == code) && (!isIE && !isKeyCode ==> r.1 == code)
    ensures isIE ==> r.1 == Unset
    ensures !isIE ==> (if isKeyCode then r.1 else r.0) == Num(0)
  {
    var keyCode := if isIE then code else if isKeyCode then code else Num(0);
    var charCode := if isIE then Unset else if isKeyCode then Num(0) else code;
    (keyCode, charCode)
  }

  /**
   * The key event built for a valid type on a platform with key support:
   * the standards path when `createEvent` exists, else the legacy
   * `createEventObject` path, which always carries the code as key code.
   */
  function KeyDescriptor(p: Platform, t: KeyType, code: JsNum, opts: Options): (e: KeyEvent)
    ensures e.eventType == KeyTypeName(t) && e.bubbles && e.cancelable
    ensures e.ctrlKey <==> opts.ctrlKey == Bool(true)
    ensures e.shiftKey <==> opts.shiftKey == Bool(true)
    ensures e.altKey <==> opts.altKey == Bool(true)
    ensures e.metaKey <==> opts.metaKey == Bool(true)
    ensures p.hasCreateEvent <==> e.path == DispatchEvent
    ensures !p.hasCreateEvent ==> e.path == FireEvent("on" + KeyTypeName(t))
    ensures !p.hasCreateEvent || p.isIE ==> e.keyCode == code && e.charCode == Unset
    ensures p.hasCreateEvent && !p.isIE && opts.isKeyCode.Truthy() ==> e.keyCode == code && e.charCode == Num(0)
    ensures p.hasCreateEvent && !p.isIE && !opts.isKeyCode.Truthy() ==> e.keyCode == Num(0) && e.charCode == code
  {
    if p.hasCreateEvent then StandardKeyEvent(p.isIE, t, code, opts) else LegacyKeyEvent(t, code, opts)
  }

  /** The `createEvent` path: `initEvent(type, true, true)`, then the fields applied. */
  function StandardKeyEvent(isIE: bool, t: KeyType, code: JsNum, opts: Options): KeyEvent {
    var (keyCode, charCode) := CodeChannels(isIE, opts.isKeyCode.Truthy(), code);
    KeyEvent(DispatchEvent, KeyTypeName(t), true, true,
             ModifierFlag(opts.ctrlKey), ModifierFlag(opts.shiftKey),
             ModifierFlag(opts.altKey), ModifierFlag(opts.metaKey),
             keyCode, charCode)
  }

  /** The `createEventObject` path, fired as `'on' + type`; the code always goes to keyCode. */
  function LegacyKeyEvent(t: KeyType, code: JsNum, opts: Options): KeyEvent {
    KeyEvent(FireEvent("on" + KeyTypeName(t)), KeyTypeName(t), true, true,
             ModifierFlag(opts.ctrlKey), ModifierFlag(opts.shiftKey),
             ModifierFlag(opts.altKey), ModifierFlag(opts.metaKey),
             code, Unset)
  }

  /**
   * What a handler reads as "the code" of a key event: the key code on IE
   * and on the legacy path, otherwise the channel the caller chose.
   */
  function CodeRead(p: Platform, isKeyCode: bool, e: KeyEvent): JsNum {
    if p.isIE || !p.hasCreateEvent || isKeyCode then e.keyCode else e.charCode
  }

  /** On every path the dispatched event carries the caller's code where a handler looks for it. */
  lemma KeyDescriptorCarriesCode(p: Platform, t: KeyType, code: JsNum, opts: Options)
    ensures CodeRead(p, opts.isKeyCode.Truthy(), KeyDescriptor(p, t, code, opts)) == code
  {
  }

  /**
   * `injectKeyEvent` on a present target: the descriptor to dispatch, or
   * the error thrown. The type is validated before the platform is probed.
   */
  function KeyEventFor(p: Platform, eventType: string, code: JsNum, opts: Options): (r: Result<KeyEvent>)
    ensures r.Err? <==> ParseKeyType(eventType).None? || !CanSimulateKeys(p)
    ensures ParseKeyType(eventType).None? ==> r == Err(BadEventType)
    ensures ParseKeyType(eventType).Some? && !CanSimulateKeys(p) ==> r == Err(NoEventSimulation)
    ensures r.Ok? ==> r.value.eventType == eventType
    ensures r.Ok? ==> r.value == KeyDescriptor(p, ParseKeyType(eventType).value, code, opts)
  {
    match ParseKeyType(eventType)
    case None => Err(BadEventType)
    case Some(t) =>
      if CanSimulateKeys(p) then Ok(KeyDescriptor(p, t, code, opts)) else Err(NoEventSimulation)
  }

  /**
   * `injectKeyEvent`: a missing target or a bad type throws with nothing
   * dispatched, as does a platform with neither event API; otherwise
   * exactly one key event is dispatched.
   */
  method InjectKeyEvent(p: Platform, target: Element?, eventType: string, code: JsNum, opts: Options)
    returns (r: Outcome)
    modifies target
    ensures target == null ==> r == Fail(TargetRequired)
    ensures target != null ==> target.value == old(target.value)
    ensures target != null && KeyEventFor(p, eventType, code, opts).Err? ==>
      r == Fail(KeyEventFor(p, eventType, code, opts).error) && unchanged(target)
    ensures target != null && KeyEventFor(p, eventType, code, opts).Ok? ==>
      r == Pass && target.trace == old(target.trace) + [Key(KeyEventFor(p, eventType, code, opts).value)]
  {
    if target == null {
      return Fail(TargetRequired);
    }
    var t := ParseKeyType(eventType);
    if t.None? {
      return Fail(BadEventType);
    }
    var event;
    if p.hasCreateEvent {
      event := StandardKeyEvent(p.isIE, t.value, code, opts);
    } else if p.hasCreateEventObject {
      event := LegacyKeyEvent(t.value, code, opts);
    } else {
      return Fail(NoEventSimulation);
    }
    target.trace := target.trace + [Key(event)];
    r := Pass;
  }
}
