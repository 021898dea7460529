/** The threshold editing dialog: a number field seeded from the current threshold, Save
    that hands the value to the parent and closes, and Cancel that only closes. */
module EditThresholdModal {
  import opened Common
  import opened JsNumber

  datatype Screen = Nothing | Dialog(inputValue: Number)

  class ThresholdModal {
    var threshold: Number
    var trace: seq<Effect>

    /** Mounted with the parent's current threshold. */
    constructor (currentThreshold: int)
      ensures threshold == Int(currentThreshold) && trace == []
    {
      threshold := Int(currentThreshold);
      trace := [];
    }

    /** Closed, the component renders nothing. */
    function View(isOpen: bool): (screen: Screen)
      reads this
      ensures screen == Nothing <==> !isOpen
      ensures isOpen ==> screen == Dialog(threshold)
    {
      if !isOpen then Nothing else Dialog(threshold)
    }

    /** The input's change handler: `Number` of the text entered. */
    method ChangeInput(value: string)
      modifies this`threshold
      ensures threshold == ToNumber(value)
    {
      threshold := ToNumber(value);
    }

    /** `handleSubmit`: `onSave` with the current value, then `onClose`. */
    method Submit()
      modifies this`trace
      ensures trace == old(trace) + [CallOnSave(threshold), CallOnClose]
    {
      trace := trace + [CallOnSave(threshold)];
      trace := trace + [CallOnClose];
    }

    /** The Cancel button: `onClose` only. */
    method Cancel()
      modifies this`trace
      ensures trace == old(trace) + [CallOnClose]
    {
      trace := trace + [CallOnClose];
    }
  }

  /** Opening with threshold 10, typing 15 and saving calls `onSave(15)` once and then
      `onClose`; the value the parent gets is what was typed. */
  method SaveAfterEditScenario() returns (effects: seq<Effect>)
    ensures effects == [CallOnSave(Int(15)), CallOnClose]
  {
    var modal := new ThresholdModal(10);
    NumberOfIntToString(15);
    modal.ChangeInput(IntToString(15));
    modal.Submit();
    effects := modal.trace;
  }
}
