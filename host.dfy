/**
 * The host environment and the values the test utilities work on: the
 * platform quirks, JavaScript option values, the error taxonomy, the event
 * descriptors that are dispatched, the DOM elements that receive them and
 * the widgets that own those elements.
 */
module Host {

  datatype Option<T> = None | Some(value: T)

  /** What the browser offers, probed once by the caller instead of per call. */
  datatype Platform = Platform(isIE: bool, hasCreateEvent: bool, hasCreateEventObject: bool)

  /** Key events can be built on this platform by one of the two event APIs. */
  predicate CanSimulateKeys(p: Platform) {
    p.hasCreateEvent || p.hasCreateEventObject
  }

  /**
   * An entry of a JavaScript options object as the library inspects it:
   * missing, a boolean, or any other value (of which only its truthiness
   * is ever used).
   */
  datatype JsValue = Absent | Bool(b: bool) | Other(truthy: bool) {
    /** JavaScript's truthiness, as used by `options.x ? … : …`. */
    predicate Truthy() {
      match this
      case Absent => false
      case Bool(b) => b
      case Other(t) => t
    }
  }

  /** A numeric event field: either unset (`undefined`) or an integer. */
  datatype JsNum = Unset | Num(n: int)

  /** The options object shared by all operations; a missing object is `NoOptions`. */
  datatype Options = Options(
    dblclick: JsValue, right: JsValue,
    ctrlKey: JsValue, shiftKey: JsValue, altKey: JsValue, metaKey: JsValue,
    isKeyCode: JsValue, fn: JsValue)

  const NoOptions := Options(Absent, Absent, Absent, Absent, Absent, Absent, Absent, Absent)

  /** One UTF-16 code unit, the element of a JavaScript string. */
  type CodeUnit = x: int | 0 <= x < 0x1_0000

  /** `String.fromCharCode(code)`: ToUint16 of the code, `undefined` giving 0. */
  function FromCharCode(code: JsNum): (u: CodeUnit)
    ensures code.Num? && 0 <= code.n < 0x1_0000 ==> u == code.n
    ensures code.Num? ==> (u - code.n) % 0x1_0000 == 0
    ensures code.Unset? ==> u == 0
  {
    match code
    case Unset => 0
    case Num(n) => n % 0x1_0000
  }

  /** The capability a widget must expose for an operation. */
  datatype Kind = ButtonKind | CheckboxKind | RadioKind | FieldKind | ComponentKind

  /** The failures the utilities throw. */
  datatype Error =
    | TargetRequired
    | BadEventType
    | NoEventSimulation
    | InvalidObject(kind: Kind)
    | NotRendered(kind: Kind)

  /** Normal completion or a thrown error. */
  datatype Outcome = Pass | Fail(error: Error)

  datatype Result<T> = Ok(value: T) | Err(error: Error)

  /** How a key event reaches the element: `dispatchEvent` or legacy `fireEvent(handler)`. */
  datatype DispatchPath = DispatchEvent | FireEvent(handler: string)

  /** The key event object as it stands when it is dispatched. */
  datatype KeyEvent = KeyEvent(
    path: DispatchPath, eventType: string, bubbles: bool, cancelable: bool,
    ctrlKey: bool, shiftKey: bool, altKey: bool, metaKey: bool,
    keyCode: JsNum, charCode: JsNum)

  /** The configuration handed to Ext's event object for a click. */
  datatype MouseEvent = MouseEvent(
    eventType: string, button: int, ctrlKey: JsValue, shiftKey: JsValue, altKey: JsValue)

  datatype Event = Mouse(mouse: MouseEvent) | Key(key: KeyEvent)

  /** A DOM node: its current text value and every event dispatched at it, in order. */
  class Element {
    var value: seq<CodeUnit>
    var trace: seq<Event>

    constructor (value: seq<CodeUnit>)
      ensures this.value == value && trace == []
    {
      this.value := value;
      trace := [];
    }
  }

  /** Deferred calls requested through `Ext.callback`, counted. */
  class Scheduler {
    var scheduled: nat

    constructor ()
      ensures scheduled == 0
    {
      scheduled := 0;
    }
  }

  /** An Ext component, reduced to its capability flags and the two elements the utilities use. */
  datatype Widget = Widget(
    isButton: bool, isCheckbox: bool, isRadio: bool, isFormField: bool, isComponent: bool,
    rendered: bool, el: Element, inputEl: Element)
  {
    predicate Has(k: Kind) {
      match k
      case ButtonKind => isButton
      case CheckboxKind => isCheckbox
      case RadioKind => isRadio
      case FieldKind => isFormField
      case ComponentKind => isComponent
    }
  }

  /** The element `getEl()` returns, as a frame. */
  function MainTarget(w: Option<Widget>): set<object> {
    if w.Some? then {w.value.el} else {}
  }

  /** The `inputEl` of a field, checkbox or radio button, as a frame. */
  function InputTarget(w: Option<Widget>): set<object> {
    if w.Some? then {w.value.inputEl} else {}
  }
}
