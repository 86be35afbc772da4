/**
 * The pure helpers and the request loop of the BitMEX brokerage's utility
 * partial (`BitmexBrokerage.Utility.cs`).
 */
module BitmexUtility {
  import opened Wrappers
  import opened Text
  import opened Orders
  import opened Rest

  /** `GetEndpoint`: the path of an API method under `/api/v1`. */
  function GetEndpoint(apiMethod: string): (endpoint: string)
    ensures |endpoint| == |"/api/v1"| + |apiMethod|
    ensures endpoint[..7] == "/api/v1" && endpoint[7..] == apiMethod
  {
    "/api/v1" + apiMethod
  }

  /** The HTTP verbs the adapter sends, rendered by name. */
  datatype HttpMethod = GET | POST | PUT | DELETE

  function MethodName(m: HttpMethod): string
  {
    match m
    case GET => "GET"
    case POST => "POST"
    case PUT => "PUT"
    case DELETE => "DELETE"
  }

  /**
   * The message `SignRequest` signs: verb, endpoint, expiry and body, in that
   * order; an absent body contributes nothing, as a null string does in a C#
   * concatenation. The expiry timestamp is an input.
   */
  function SignaturePreimage(verb: HttpMethod, endpoint: string, expires: string, payload: Option<string>): (message: string)
    ensures var body := if payload.Some? then payload.value else "";
      && |message| == |MethodName(verb)| + |endpoint| + |expires| + |body|
      && message[..|MethodName(verb)|] == MethodName(verb)
      && message[|MethodName(verb)|..|MethodName(verb)| + |endpoint|] == endpoint
      && message[|MethodName(verb)| + |endpoint|..|message| - |body|] == expires
      && message[|message| - |body|..] == body
  {
    MethodName(verb) + endpoint + expires + (if payload.Some? then payload.value else "")
  }

  /** `_statusMapper`, keyed by the capitalised status (the dictionary ignores case). */
  const StatusMapper: map<string, OrderStatus> :=
    map["NEW" := Submitted, "PARTIALLYFILLED" := PartiallyFilled, "FILLED" := Filled, "CANCELED" := Canceled]

  /**
   * `ConvertOrderStatus(string)`: case-insensitively New to Submitted and
   * PartiallyFilled, Filled and Canceled to themselves; the empty string and
   * every other text to None.
   */
  function ConvertOrderStatus(status: string): (r: OrderStatus)
    ensures status == "" ==> r == OrderStatus.None
    ensures r == Submitted <==> ToUpper(status) == "NEW"
    ensures r == PartiallyFilled <==> ToUpper(status) == "PARTIALLYFILLED"
    ensures r == Filled <==> ToUpper(status) == "FILLED"
    ensures r == Canceled <==> ToUpper(status) == "CANCELED"
    ensures r !in {Submitted, PartiallyFilled, Filled, Canceled} ==> r == OrderStatus.None
  {
    if status == "" then OrderStatus.None
    else if ToUpper(status) in StatusMapper then StatusMapper[ToUpper(status)]
    else OrderStatus.None
  }

  /** Status texts that differ only in case convert alike. */
  lemma ConvertOrderStatusIgnoresCase(a: string, b: string)
    requires EqualsIgnoreCase(a, b)
    ensures ConvertOrderStatus(a) == ConvertOrderStatus(b)
  {
  }

  /** `_knownResolutions`. */
  const KnownResolutions: map<Resolution, string> := map[Minute := "1m", Hour := "1h", Daily := "1d"]

  /** `ConvertResolution`: the bin size of a supported resolution, `ArgumentException` for any other. */
  function ConvertResolution(resolution: Resolution): (r: Result<string>)
    ensures r.Ok? <==> resolution in {Minute, Hour, Daily}
    ensures r.Err? ==> r.error == ArgumentException
    ensures r.Ok? ==> |r.value| == 2 && r.value[0] == '1'
  {
    if resolution in KnownResolutions then Ok(KnownResolutions[resolution])
    else Err(ArgumentException)
  }

  /** The bin-size text read back: the partner of `ConvertResolution`. */
  function ParseBinSize(binSize: string): Option<Resolution>
  {
    if binSize == "1m" then Some(Minute)
    else if binSize == "1h" then Some(Hour)
    else if binSize == "1d" then Some(Daily)
    else Option.None
  }

  /** Distinct resolutions get distinct bin sizes: the bin size names its resolution. */
  lemma ConvertResolutionRoundTrip(resolution: Resolution)
    requires ConvertResolution(resolution).Ok?
    ensures ParseBinSize(ConvertResolution(resolution).value) == Some(resolution)
  {
  }

  /**
   * `ExecuteRestRequest`: a do-while over attempts; the server's answers are an
   * input. Returns the last status and the attempt count.
   */
  method ExecuteRestRequest(responses: nat -> int) returns (status: int, attempts: nat)
    ensures attempts == AttemptsNeeded(responses)
    ensures 1 <= attempts <= MaxAttempts
    ensures status == responses(attempts - 1)
    ensures attempts < MaxAttempts ==> status != TooManyRequests
  {
    attempts := 0;
    status := 0;
    while true
      invariant 0 <= attempts < MaxAttempts
      invariant AttemptsFrom(responses, attempts) == AttemptsNeeded(responses)
      decreases MaxAttempts - attempts
    {
      status := responses(attempts);
      attempts := attempts + 1;
      if !(attempts < MaxAttempts && status == TooManyRequests) {
        break;
      }
    }
  }
}
