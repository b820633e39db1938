/** The form-status helpers of script.js: both do nothing when the element is missing. */
module ScriptFormStatus {

  /** The `#formStatus` element. */
  class StatusElement {
    var text: string
    var className: string

    constructor (text: string, className: string)
      ensures this.text == text && this.className == className
    {
      this.text := text;
      this.className := className;
    }
  }

  method ShowSuccess(element: StatusElement?)
    modifies element
    ensures element != null ==> element.text == "Message sent successfully!"
    ensures element != null ==> element.className == "form-status success"
  {
    if element == null {
      return;
    }
    element.text := "Message sent successfully!";
    element.className := "form-status success";
  }

  method ShowError(element: StatusElement?, message: string)
    modifies element
    ensures element != null ==> element.text == message
    ensures element != null ==> element.className == "form-status error"
  {
    if element == null {
      return;
    }
    element.text := message;
    element.className := "form-status error";
  }

  /** With no status element, neither helper changes anything it could reach. */
  method ShowWithoutElement(other: StatusElement, message: string)
    modifies other
    ensures other.text == old(other.text) && other.className == old(other.className)
  {
    ShowSuccess(null);
    ShowError(null, message);
  }
}
