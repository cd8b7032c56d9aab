/**
 The alert hand-off register: a page stores a heading, a message, a button
 label, a link and an optional error code, then navigates to the alert page,
 which reads them back. It holds one payload at a time.
 */
module AlertInfoContext {
  import opened Wrappers
  import opened Js

  datatype AlertInfo = AlertInfo(
    heading: string,
    message: string,
    buttonLabel: string,
    linkURL: string,
    errorCode: Option<string>)

  /** What the register holds before anything is stored; the error code is `null`. */
  const DefaultAlertInfo: AlertInfo :=
    AlertInfo("Heading", "A message goes here", "Go Somewhere", "/", None)

  /**
   The record `setAlertInfoHandler` stores for its five arguments: the four texts
   verbatim and `errorCode || null`, so an omitted, null or empty code becomes null.
   */
  function Stored(args: AlertInfo): (r: AlertInfo)
    ensures r.heading == args.heading && r.message == args.message
    ensures r.buttonLabel == args.buttonLabel && r.linkURL == args.linkURL
    ensures r.errorCode.None? <==> !Truthy(args.errorCode)
    ensures r.errorCode.Some? ==> r.errorCode == args.errorCode
  {
    args.(errorCode := if Truthy(args.errorCode) then args.errorCode else None)
  }

  /** A stored record is never holding an empty code, and storing it again changes nothing. */
  lemma StoredIsNormal(args: AlertInfo)
    ensures Stored(args).errorCode != Some("")
    ensures Stored(Stored(args)) == Stored(args)
  {
  }

  /**
   The register. `provided` is false for a page rendered outside any provider,
   which sees the context's default value, whose setter does nothing.
   */
  class AlertInfoProvider {
    const provided: bool
    var alertInfo: AlertInfo

    constructor(provided: bool)
      ensures this.provided == provided
      ensures alertInfo == DefaultAlertInfo
    {
      this.provided := provided;
      alertInfo := DefaultAlertInfo;
    }

    /** What the register holds once `args` are stored. */
    function After(args: AlertInfo): AlertInfo
      reads this
    {
      if provided then Stored(args) else alertInfo
    }

    /** `setAlertInfoHandler(heading, message, buttonLabel, linkURL, errorCode)`, its arguments as one record. */
    method SetAlertInfoHandler(args: AlertInfo)
      modifies this`alertInfo
      ensures provided ==> alertInfo == Stored(args)
      ensures !provided ==> alertInfo == old(alertInfo)
      ensures alertInfo == old(After(args))
    {
      if provided {
        alertInfo := Stored(args);
      }
    }
  }

  /** A register that has not been written holds the default payload with a null code. */
  method FreshRegisterHoldsDefault() returns (held: AlertInfo)
    ensures held == DefaultAlertInfo
    ensures held.errorCode.None?
  {
    var register := new AlertInfoProvider(true);
    held := register.alertInfo;
  }

  /** After two stores only the second payload is readable: nothing of the first survives. */
  method OnlyLastAlertIsKept(first: AlertInfo, second: AlertInfo) returns (held: AlertInfo)
    ensures held == Stored(second)
  {
    var register := new AlertInfoProvider(true);
    register.SetAlertInfoHandler(first);
    register.SetAlertInfoHandler(second);
    held := register.alertInfo;
  }

  /** Outside a provider, storing has no effect: the default payload stays. */
  method DefaultSetterIsNoOp(args: AlertInfo) returns (held: AlertInfo)
    ensures held == DefaultAlertInfo
  {
    var register := new AlertInfoProvider(false);
    register.SetAlertInfoHandler(args);
    held := register.alertInfo;
  }
}
