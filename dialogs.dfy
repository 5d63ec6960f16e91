/**
 * The message-box helpers: which message box is "the" box, and routing a
 * named button click or typed text into it.
 */
module Dialogs {
  import opened Host
  import opened Facade

  /** An Ext message box: its buttons by name, its mode and its two input fields. */
  datatype MsgBox = MsgBox(msgButtons: map<string, Widget>, multiline: bool, textField: Widget, textArea: Widget)

  /**
   * `getMsgBox`: of the ids of the `.x-message-box` elements, in document
   * order, the last one is resolved through the component registry;
   * nothing when there is no such element or the id resolves to nothing.
   * `order` is accepted and ignored.
   */
  function GetMsgBox(boxIds: seq<string>, registry: map<string, MsgBox>, order: Option<int>): (r: Option<MsgBox>)
    ensures |boxIds| == 0 ==> r == None
    ensures r.Some? ==> |boxIds| > 0 && boxIds[|boxIds| - 1] in registry && r.value == registry[boxIds[|boxIds| - 1]]
    ensures |boxIds| > 0 && boxIds[|boxIds| - 1] in registry ==> r.Some?
  {
    if |boxIds| == 0 then None
    else
      var id := boxIds[|boxIds| - 1];
      if id in registry then Some(registry[id]) else None
  }

  /** The topmost box alone decides the result: boxes below it and `order` do not matter. */
  lemma TopmostDecides(below: seq<string>, top: string, registry: map<string, MsgBox>, o1: Option<int>, o2: Option<int>)
    ensures GetMsgBox(below + [top], registry, o1) == GetMsgBox([top], registry, o2)
  {
  }

  /** The button `clickMsgBoxButton` clicks: the named button of the given box, else of the topmost box. */
  function ChosenButton(name: string, box: Option<MsgBox>, boxIds: seq<string>, registry: map<string, MsgBox>)
    : (b: Option<Widget>)
    ensures box.Some? ==> (b.Some? <==> name in box.value.msgButtons)
    ensures box.Some? && b.Some? ==> b.value == box.value.msgButtons[name]
    ensures box.None? ==> var top := GetMsgBox(boxIds, registry, None);
                          (b.Some? <==> top.Some? && name in top.value.msgButtons) &&
                          (b.Some? ==> b.value == top.value.msgButtons[name])
  {
    var msgbox := if box.Some? then box else GetMsgBox(boxIds, registry, None);
    if msgbox.None? || name !in msgbox.value.msgButtons then None
    else Some(msgbox.value.msgButtons[name])
  }

  /**
   * `clickMsgBoxButton`: silently does nothing without a box or without a
   * button of that name; otherwise clicks the button as `clickButton` does.
   */
  method ClickMsgBoxButton(p: Platform, name: string, box: Option<MsgBox>, boxIds: seq<string>,
                           registry: map<string, MsgBox>)
    returns (r: Outcome)
    modifies ClickTarget(ChosenButton(name, box, boxIds, registry), ButtonKind)
    ensures ChosenButton(name, box, boxIds, registry).None? ==> r == Pass
    ensures ChosenButton(name, box, boxIds, registry).Some? ==>
      ClickEffect(p, ChosenButton(name, box, boxIds, registry), ButtonKind, r)
  {
    var button := ChosenButton(name, box, boxIds, registry);
    if button.None? {
      return Pass;
    }
    r := ClickButton(p, button);
  }

  /** The field `typeInMsgBoxPrompt` types into: the text area of a multi-line box, else the text field. */
  function PromptField(boxIds: seq<string>, registry: map<string, MsgBox>): (f: Option<Widget>)
    ensures f.Some? <==> GetMsgBox(boxIds, registry, None).Some?
    ensures f.Some? ==> var m := GetMsgBox(boxIds, registry, None).value;
                        f.value == (if m.multiline then m.textArea else m.textField)
  {
    match GetMsgBox(boxIds, registry, None)
    case None => None
    case Some(m) => Some(if m.multiline then m.textArea else m.textField)
  }

  /**
   * `typeInMsgBoxPrompt`: does nothing without a topmost box; otherwise
   * types into its prompt field with `typeText`, so a callback is
   * scheduled once per code unit and once more. The `box` argument is
   * accepted and ignored: the topmost box is always used.
   */
  method TypeInMsgBoxPrompt(p: Platform, text: seq<CodeUnit>, opts: Options, box: Option<MsgBox>,
                            boxIds: seq<string>, registry: map<string, MsgBox>, sched: Scheduler)
    returns (r: Outcome)
    modifies InputTarget(PromptField(boxIds, registry)), sched
    ensures PromptField(boxIds, registry).None? ==> r == Pass && unchanged(sched)
    ensures PromptField(boxIds, registry).Some? ==>
      TypeTextEffect(p, PromptField(boxIds, registry), text, opts, sched, r, |text| + 1)
  {
    var field := PromptField(boxIds, registry);
    if field.None? {
      return Pass;
    }
    r := TypeText(p, field, text, opts, sched);
  }
}
