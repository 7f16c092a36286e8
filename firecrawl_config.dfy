/** The credential form of the Firecrawl configuration dialog, as values:
    the form state, the per-field update, the client-side validation that
    runs when the user saves, and the payload that a valid form is turned
    into before it is sent to the credential service. */
module FirecrawlConfig {

  /** The endpoint used when the user leaves the base URL empty. */
  const DefaultBaseUrl: string := "https://api.firecrawl.dev"

  /** Every Firecrawl API key starts with this. */
  const ApiKeyPrefix: string := "fc-"

  const HttpScheme: string := "http://"
  const HttpsScheme: string := "https://"

  /** The label passed to the "field required" message. */
  const ApiKeyLabel: string := "API Key"

  /** The fixed parts of the submission. */
  const Category: string := "website"
  const Provider: string := "firecrawl"
  const AuthType: string := "bearer"

  datatype Option<T> = None | Some(value: T)

  /** The form state; an empty string is an unset (falsy) field. */
  datatype Config = Config(api_key: string, base_url: string)

  /** The state the dialog opens with. */
  const EmptyConfig: Config := Config("", "")

  /** The two keys the form's inputs update. */
  datatype Field = ApiKey | BaseUrl

  function Get(c: Config, f: Field): string
  {
    match f
    case ApiKey => c.api_key
    case BaseUrl => c.base_url
  }

  /** The update `{ ...prev, [key]: value }`: the named field takes the new
      value and every other field keeps its old one. */
  function WithField(c: Config, f: Field, value: string): (r: Config)
    ensures Get(r, f) == value
    ensures forall g: Field :: g != f ==> Get(r, g) == Get(c, g)
  {
    match f
    case ApiKey => c.(api_key := value)
    case BaseUrl => c.(base_url := value)
  }

  /** JavaScript's `s.startsWith(prefix)` on code units. */
  predicate StartsWith(s: string, prefix: string)
  {
    prefix <= s
  }

  predicate HasHttpScheme(url: string)
  {
    StartsWith(url, HttpScheme) || StartsWith(url, HttpsScheme)
  }

  /** The base URL is optional, but when given it must be an http(s) URL. */
  predicate BaseUrlAccepted(url: string)
  {
    url == "" || HasHttpScheme(url)
  }

  /** The three ways a save is refused. */
  datatype ValidationError =
    | UrlError
    | FieldRequired(field: string)
    | ApiKeyFormatError

  /** The checks of the save handler, in their order: the URL scheme first,
      then presence of the API key, then its prefix; the first failure wins. */
  function Validate(c: Config): (r: Option<ValidationError>)
    // a save goes through exactly when the URL is empty or http(s) and the key has the prefix
    ensures r == None <==> BaseUrlAccepted(c.base_url) && StartsWith(c.api_key, ApiKeyPrefix)
    // a bad URL is reported whatever the key holds, and only a bad URL is
    ensures r == Some(UrlError) <==> !BaseUrlAccepted(c.base_url)
    ensures c.base_url == "" ==> r != Some(UrlError)
    // past the URL check, a missing key is "required", never a format error
    ensures r == Some(FieldRequired(ApiKeyLabel)) <==> BaseUrlAccepted(c.base_url) && c.api_key == ""
    ensures r == Some(ApiKeyFormatError) <==>
              BaseUrlAccepted(c.base_url) && c.api_key != "" && !StartsWith(c.api_key, ApiKeyPrefix)
  {
    if c.base_url != "" && !HasHttpScheme(c.base_url) then
      Some(UrlError)
    else if c.api_key == "" then
      Some(FieldRequired(ApiKeyLabel))
    else if !StartsWith(c.api_key, ApiKeyPrefix) then
      Some(ApiKeyFormatError)
    else
      None
  }

  datatype Credentials = Credentials(auth_type: string, config: Config)

  /** The body of the create-credential request. */
  datatype Payload = Payload(category: string, provider: string, credentials: Credentials)

  /** The request body built from the form; an empty base URL falls back to
      the default endpoint and the key is passed on untouched. */
  function BuildPayload(c: Config): (p: Payload)
    ensures p.category == Category && p.provider == Provider && p.credentials.auth_type == AuthType
    ensures p.credentials.config.api_key == c.api_key
    ensures c.base_url != "" ==> p.credentials.config.base_url == c.base_url
    ensures c.base_url == "" ==> p.credentials.config.base_url == DefaultBaseUrl
    ensures p.credentials.config.base_url != ""
  {
    Payload(Category, Provider,
      Credentials(AuthType, Config(c.api_key, if c.base_url != "" then c.base_url else DefaultBaseUrl)))
  }

  /** What the credential service is promised: the fixed category, provider
      and auth type, a key with the Firecrawl prefix and an http(s) endpoint. */
  predicate Accepted(p: Payload)
  {
    && p.category == Category
    && p.provider == Provider
    && p.credentials.auth_type == AuthType
    && StartsWith(p.credentials.config.api_key, ApiKeyPrefix)
    && HasHttpScheme(p.credentials.config.base_url)
  }

  lemma DefaultBaseUrlIsHttps()
    ensures StartsWith(DefaultBaseUrl, HttpsScheme)
  {
  }

  /** Validation passes exactly when the payload it would send is acceptable:
      the optional URL and its default never let a bad endpoint through. */
  lemma ValidExactlyWhenPayloadAccepted(c: Config)
    ensures Validate(c) == None <==> Accepted(BuildPayload(c))
  {
  }

  /** The configuration that is sent passes validation again, and saving it
      once more would send the very same payload. */
  lemma PayloadConfigIsFixedPoint(c: Config)
    requires Validate(c) == None
    ensures Validate(BuildPayload(c).credentials.config) == None
    ensures BuildPayload(BuildPayload(c).credentials.config) == BuildPayload(c)
  {
  }

  /** Changing one field twice keeps only the last value, and changes of
      different fields commute. */
  lemma WithFieldLastWriteWins(c: Config, f: Field, g: Field, v: string, w: string)
    ensures WithField(WithField(c, f, v), f, w) == WithField(c, f, w)
    ensures f != g ==> WithField(WithField(c, f, v), g, w) == WithField(WithField(c, g, w), f, v)
  {
  }
}
