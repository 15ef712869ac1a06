/** The optional API-key gate on `/api/*` routes (backend/app/core/auth.py).
    The `X-API-Key` header reaches the gate as `None` when the request does
    not carry it. */
module Auth {
  import opened Common
  import opened Config

  const InvalidApiKey := HttpError(401, "Invalid or missing API key")

  /** `verify_api_key`: with no key configured every request passes and the
      result is `None`; with a key configured the request passes, returning the
      header, exactly when the header equals the key; otherwise 401 is raised. */
  function VerifyApiKey(settings: Settings, header: Option<string>): (r: Result<Option<string>>)
    reads settings
    ensures !Truthy(settings.apiKey) ==> r == Ok(None)
    ensures Truthy(settings.apiKey) && header == settings.apiKey ==> r == Ok(header)
    ensures Truthy(settings.apiKey) && header != settings.apiKey ==> r == Raise(InvalidApiKey)
    ensures Truthy(settings.apiKey) && !Truthy(header) ==> r.Raise?
    ensures r.Ok? <==> !Truthy(settings.apiKey) || header == settings.apiKey
  {
    if !Truthy(settings.apiKey) then Ok(None)
    else if !Truthy(header) || header.value != settings.apiKey.value then Raise(InvalidApiKey)
    else Ok(header)
  }
}
