/** Sending one message over WhatsApp, or simulating the send when the
    WhatsApp automation is not available. The transport's own behaviour is
    an input: it either delivers or raises with an error text. */
module Delivery {
  import opened Wrappers

  /** What the WhatsApp automation does with one send request. */
  datatype Transport = Delivered | Raised(error: string)

  /** The `(success, detail)` pair a send returns, together with the number
      handed to the automation (None when nothing was handed over). */
  datatype SendResult = SendResult(success: bool, detail: string, dialled: Option<string>)

  const CountryCode := "+56"
  const SimulatedDetail := "Mensaje simulado (ambiente cloud)"
  const SentDetail := "Mensaje enviado por WhatsApp"
  const ErrorPrefix := "Error WhatsApp: "

  /** The channel name recorded for a send. */
  function ChannelName(whatsappAvailable: bool): string {
    if whatsappAvailable then "WhatsApp" else "Demo"
  }

  predicate StartsWithPlus(s: string) {
    |s| > 0 && s[0] == '+'
  }

  /** The number as dialled: unchanged when it already starts with "+",
      otherwise the Chilean country code in front, even when the digits
      already begin with 56. */
  function NormalizePhone(phone: string): (r: string)
    ensures StartsWithPlus(r)
    ensures StartsWithPlus(phone) <==> r == phone
    ensures |r| >= |phone| && r[|r| - |phone|..] == phone
    ensures !StartsWithPlus(phone) ==> |r| == |CountryCode| + |phone| && r[..|CountryCode|] == CountryCode
  {
    if StartsWithPlus(phone) then phone else CountryCode + phone
  }

  /** One send. Without the automation it always succeeds with the simulated
      detail; with it, the number is normalised and the send succeeds exactly
      when the automation delivers, a failure carrying the error text. */
  function SendWhatsApp(whatsappAvailable: bool, phone: string, transport: Transport): (r: SendResult)
    ensures r.success <==> (!whatsappAvailable || transport.Delivered?)
    ensures !whatsappAvailable ==> r.detail == SimulatedDetail && r.dialled.None?
    ensures whatsappAvailable ==> r.dialled == Some(NormalizePhone(phone))
    ensures r.success && whatsappAvailable ==> r.detail == SentDetail
    ensures !r.success ==> r.detail == ErrorPrefix + transport.error && |r.detail| > 0
  {
    if !whatsappAvailable then SendResult(true, SimulatedDetail, None)
    else
      var dialled := NormalizePhone(phone);
      match transport
      case Delivered => SendResult(true, SentDetail, Some(dialled))
      case Raised(e) => SendResult(false, ErrorPrefix + e, Some(dialled))
  }
}
