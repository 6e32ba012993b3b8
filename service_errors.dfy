/** The provider error taxonomy (`AIServiceError`) and the user-facing
    text each error is shown as. */
module ServiceErrors {
  import opened Common

  /** `AIServiceError`. A wrapped Swift `Error` is modelled as the thrown
      value it wraps. */
  datatype ServiceError =
    | InvalidAPIKey
    | QuotaExceeded
    | NetworkError(cause: Thrown)
    | ServiceUnavailable
    | Unknown(detail: Option<Thrown>)

  /** Anything a provider call can throw: one of the service's own errors,
      or an error raised elsewhere (by the transport or by the JSON decoder)
      that is known only by its localized description. */
  datatype Thrown = Service(error: ServiceError) | Foreign(description: string)

  const InvalidAPIKeyText := "Geçersiz API anahtarı"
  const QuotaExceededText := "API kotası aşıldı"
  const NetworkErrorPrefix := "Ağ hatası: "
  const ServiceUnavailableText := "AI servisi geçici olarak kullanılamıyor"
  const UnknownPrefix := "Bilinmeyen hata: "
  const NoDetailText := "Hata detayı yok"

  /** `errorDescription`: the Swift property is optional, but every case
      produces a text. */
  function ErrorDescription(e: ServiceError): (r: Option<string>)
    ensures r.Some? && |r.value| > 0
    decreases e, 1
  {
    match e
    case InvalidAPIKey => Some(InvalidAPIKeyText)
    case QuotaExceeded => Some(QuotaExceededText)
    case NetworkError(cause) => Some(NetworkErrorPrefix + LocalizedDescription(cause))
    case ServiceUnavailable => Some(ServiceUnavailableText)
    case Unknown(cause) =>
      Some(UnknownPrefix + (if cause.Some? then LocalizedDescription(cause.value) else NoDetailText))
  }

  /** `error.localizedDescription`: a `LocalizedError` shows its
      `errorDescription`; any other error its own description. */
  function LocalizedDescription(t: Thrown): string
    decreases t, 0
  {
    match t
    case Service(e) => ErrorDescription(e).value
    case Foreign(d) => d
  }

  /** Which of the five cases an error is. */
  function Kind(e: ServiceError): nat {
    match e
    case InvalidAPIKey => 0
    case QuotaExceeded => 1
    case NetworkError(_) => 2
    case ServiceUnavailable => 3
    case Unknown(_) => 4
  }

  /** The fixed texts of the cases that carry no cause. */
  lemma FixedDescriptions()
    ensures ErrorDescription(InvalidAPIKey) == Some("Geçersiz API anahtarı")
    ensures ErrorDescription(QuotaExceeded) == Some("API kotası aşıldı")
    ensures ErrorDescription(ServiceUnavailable) == Some("AI servisi geçici olarak kullanılamıyor")
    ensures ErrorDescription(Unknown(None)) == Some("Bilinmeyen hata: Hata detayı yok")
  {
    assert UnknownPrefix + NoDetailText == "Bilinmeyen hata: Hata detayı yok";
  }

  /** The description tells which of the five cases occurred: errors of
      different cases are never shown with the same text, whatever they
      wrap. */
  lemma DescriptionsTellKindsApart(e1: ServiceError, e2: ServiceError)
    requires Kind(e1) != Kind(e2)
    ensures ErrorDescription(e1) != ErrorDescription(e2)
  {
    var d1, d2 := ErrorDescription(e1).value, ErrorDescription(e2).value;
    HeadOfDescription(e1);
    HeadOfDescription(e2);
    assert d1[..2] != d2[..2];
  }

  /** The first two characters of a description are fixed by its case. */
  lemma HeadOfDescription(e: ServiceError)
    ensures |ErrorDescription(e).value| >= 2
    ensures ErrorDescription(e).value[..2] ==
      match e
      case InvalidAPIKey => "Ge"
      case QuotaExceeded => "AP"
      case NetworkError(_) => "Ağ"
      case ServiceUnavailable => "AI"
      case Unknown(_) => "Bi"
  {
    var d := ErrorDescription(e).value;
    match e
    case NetworkError(c) =>
      assert d == NetworkErrorPrefix + LocalizedDescription(c);
      assert d[..2] == NetworkErrorPrefix[..2];
    case Unknown(c) =>
      assert d == UnknownPrefix + (if c.Some? then LocalizedDescription(c.value) else NoDetailText);
      assert d[..2] == UnknownPrefix[..2];
    case InvalidAPIKey => assert d[..2] == InvalidAPIKeyText[..2];
    case QuotaExceeded => assert d[..2] == QuotaExceededText[..2];
    case ServiceUnavailable =>
      assert d == ServiceUnavailableText == "AI" + " servisi geçici olarak kullanılamıyor";
  }
}
