/**
 * The contact form of portfolio-script.js: real-time validation on blur and
 * input, and the submit handler that refuses an invalid form with a toast or
 * disables the button for the duration of the request and restores it after.
 */
module PortfolioForm {
  import opened Utf16
  import opened Wrappers
  import opened FormRules

  /** An input or textarea: its name, current and default value, and inline border colour. */
  datatype Input = Input(name: string, value: Text, defaultValue: Text, border: Option<Border>)

  datatype ToastKind = Success | Error
  datatype Toast = Toast(text: string, kind: ToastKind)

  /** How the `fetch` of the form ends: an ok response, a non-ok response, or a thrown network error. */
  datatype Outcome = Ok | HttpError | NetworkError

  datatype SubmitButton = SubmitButton(disabled: bool, html: string)

  const SendingHtml := "<i class=\"fas fa-spinner fa-spin\"></i> Sending..."
  const InvalidToast := Toast("Please fix form errors", Error)

  function FieldOf(i: Input): Field {
    Field(i.name, i.value)
  }

  function Fields(inputs: seq<Input>): (fs: seq<Field>)
    ensures |fs| == |inputs| && forall k :: 0 <= k < |inputs| ==> fs[k] == FieldOf(inputs[k])
  {
    seq(|inputs|, k requires 0 <= k < |inputs| => FieldOf(inputs[k]))
  }

  /** `validateField` applied to one input: the border is rewritten only when the check says so. */
  function Validated(i: Input): Input {
    var c := ValidateField(FieldOf(i));
    if c.border.Some? then i.(border := c.border) else i
  }

  /** The toast shown when the request settles. */
  function ToastFor(o: Outcome): Toast {
    match o
    case Ok => Toast("Message sent successfully!", Success)
    case HttpError => Toast("Error sending message", Error)
    case NetworkError => Toast("Network error. Please try again", Error)
  }

  /** `contactForm.reset()` followed by resetting every border to 'inherit'. */
  function Reset(inputs: seq<Input>): (r: seq<Input>)
    ensures |r| == |inputs|
    ensures forall k :: 0 <= k < |r| ==>
      r[k] == inputs[k].(value := inputs[k].defaultValue, border := Some(Inherit))
  {
    seq(|inputs|, k requires 0 <= k < |inputs| =>
      inputs[k].(value := inputs[k].defaultValue, border := Some(Inherit)))
  }

  class ContactForm {
    var inputs: seq<Input>
    var button: SubmitButton
    /** The label each request still in flight captured as `originalText`, oldest first. */
    var inFlight: seq<string>
    /** The form data of every request sent. */
    var sent: seq<seq<Field>>
    var toasts: seq<Toast>

    constructor (inputs: seq<Input>, button: SubmitButton)
      ensures this.inputs == inputs && this.button == button
      ensures inFlight == [] && sent == [] && toasts == []
    {
      this.inputs := inputs;
      this.button := button;
      inFlight := [];
      sent := [];
      toasts := [];
    }

    /** The 'blur' listener of input `k`. */
    method Blur(k: nat)
      requires k < |inputs|
      modifies this`inputs
      ensures inputs == old(inputs)[k := Validated(old(inputs)[k])]
    {
      inputs := inputs[k := Validated(inputs[k])];
    }

    /** The user edits input `k` to `v`; the 'input' listener validates only a non-empty raw value. */
    method Edit(k: nat, v: Text)
      requires k < |inputs|
      modifies this`inputs
      ensures var edited := old(inputs)[k].(value := v);
        inputs == old(inputs)[k := if v == [] then edited else Validated(edited)]
    {
      var edited := inputs[k].(value := v);
      if v != [] {
        edited := Validated(edited);
      }
      inputs := inputs[k := edited];
    }

    /**
     * The synchronous part of the 'submit' listener. An invalid form only shows
     * the error toast; a valid one is posted, with the button disabled and
     * relabelled and its previous label remembered until the request settles.
     */
    method Submit() returns (posted: bool)
      modifies this`button, this`inFlight, this`sent, this`toasts
      ensures posted == AllValid(Fields(old(inputs)))
      ensures !posted ==> toasts == old(toasts) + [InvalidToast]
      ensures !posted ==> button == old(button) && inFlight == old(inFlight) && sent == old(sent)
      ensures posted ==> button == SubmitButton(true, SendingHtml)
      ensures posted ==> inFlight == old(inFlight) + [old(button).html]
      ensures posted ==> sent == old(sent) + [Fields(old(inputs))]
      ensures posted ==> toasts == old(toasts)
    {
      var data := Fields(inputs);
      posted := AllValid(data);
      if posted {
        inFlight := inFlight + [button.html];
        button := SubmitButton(true, SendingHtml);
        sent := sent + [data];
      } else {
        toasts := toasts + [InvalidToast];
      }
    }

    /**
     * The continuation after request `k` settles: the toast for the outcome, a
     * reset on success, and in every case (the `finally` block) the button
     * enabled again with the label that request captured.
     */
    method Settle(k: nat, outcome: Outcome)
      requires k < |inFlight|
      modifies this`inputs, this`button, this`inFlight, this`toasts
      ensures toasts == old(toasts) + [ToastFor(outcome)]
      ensures inputs == if outcome == Ok then Reset(old(inputs)) else old(inputs)
      ensures button == SubmitButton(false, old(inFlight)[k])
      ensures inFlight == old(inFlight)[..k] + old(inFlight)[k + 1..]
    {
      toasts := toasts + [ToastFor(outcome)];
      if outcome == Ok {
        inputs := Reset(inputs);
      }
      button := SubmitButton(false, inFlight[k]);
      inFlight := inFlight[..k] + inFlight[k + 1..];
    }
  }

  /**
   * One submission with nothing else in flight: an invalid form leaves the
   * button alone; a valid one ends, whatever the outcome, with the button
   * enabled and carrying its original label.
   */
  method SubmitAndSettle(f: ContactForm, outcome: Outcome) returns (posted: bool)
    requires f.inFlight == []
    modifies f
    ensures posted == AllValid(Fields(old(f.inputs)))
    ensures !posted ==> f.button == old(f.button) && f.toasts == old(f.toasts) + [InvalidToast]
    ensures !posted ==> f.sent == old(f.sent) && f.inputs == old(f.inputs)
    ensures posted ==> f.inputs == if outcome == Ok then Reset(old(f.inputs)) else old(f.inputs)
    ensures posted ==> f.button == SubmitButton(false, old(f.button).html)
    ensures posted ==> f.toasts == old(f.toasts) + [ToastFor(outcome)]
    ensures posted ==> f.sent == old(f.sent) + [Fields(old(f.inputs))]
    ensures f.inFlight == []
  {
    posted := f.Submit();
    if posted {
      f.Settle(0, outcome);
    }
  }
}
