/**
 * `getClient`: the Azure Monitor HTTP Data Collector API endpoint of a Log
 * Analytics workspace, the SharedKey authorization of the API, and the
 * request `pushRecord` sends for one log.
 */
module AzureClient {
  import opened Wrappers
  import opened JsText

  const DefaultApiVersion := "2016-04-01"
  const Scheme := "SharedKey "
  const ContentType := "application/json"
  const Resource := "/api/logs"

  /**
   * HMAC-SHA256 keyed with the base64-decoded workspace key, base64-encoded:
   * given the workspace key as configured and the string to sign, the signature.
   */
  type Hmac = (string, string) -> string

  /** What `getClient` closes over: the workspace, the endpoint and the one date stamp of the run. */
  datatype Client = Client(workspaceId: string, workspaceKey: string, namespace: string,
                           url: string, date: string, hmac: Hmac)

  /** A request to the Data Collector API. */
  datatype SinkRequest = SinkRequest(url: string, verb: string, headers: seq<(string, string)>, body: string)

  /** What `request` reports back: a transport error, or the HTTP status of the answer. */
  datatype SinkResponse = TransportError | Status(code: int)

  /** The ingestion endpoint; an unset API version is `2016-04-01`. */
  function LogsUrl(workspaceId: string, apiVersion: string): string {
    "https://" + workspaceId + ".ods.opinsights.azure.com/api/logs?api-version="
      + (if apiVersion == "" then DefaultApiVersion else apiVersion)
  }

  /** Leaving LOGANALYTICS_APIVERSION unset is the same as setting it to `2016-04-01`. */
  lemma LogsUrlDefault(workspaceId: string)
    ensures LogsUrl(workspaceId, "") == LogsUrl(workspaceId, DefaultApiVersion)
  {
  }

  /** `getClient(...)`; `now` is the `toUTCString()` of the moment the client is made. */
  function GetClient(workspaceId: string, workspaceKey: string, namespace: string, apiVersion: string,
                     now: string, hmac: Hmac): Client {
    Client(workspaceId, workspaceKey, namespace, LogsUrl(workspaceId, apiVersion), now, hmac)
  }

  /** The string the SharedKey scheme signs; the content length is written in decimal. */
  function StringToSign(verb: string, contentLength: nat, contentType: string, date: string, resource: string): string {
    verb + "\n" + DecimalString(contentLength) + "\n" + contentType + "\nx-ms-date:" + date + "\n" + resource
  }

  /** The Authorization header value. */
  function SharedKey(workspaceId: string, signature: string): string {
    Scheme + workspaceId + ":" + signature
  }

  /** The `hash` closure of `getClient`. */
  function Hash(c: Client, verb: string, contentLength: nat, contentType: string, date: string, resource: string): string {
    SharedKey(c.workspaceId, c.hmac(c.workspaceKey, StringToSign(verb, contentLength, contentType, date, resource)))
  }

  /** The request `pushRecord` sends for a record serialised as `payload`. */
  function PushRequest(c: Client, payload: string): SinkRequest {
    var signature := Hash(c, "POST", |payload|, ContentType, c.date, Resource);
    SinkRequest(c.url, "POST",
      [("Content-Type", ContentType), ("Log-Type", c.namespace), ("x-ms-date", c.date),
       ("Authorization", signature), ("time-generated-field", "date")],
      payload)
  }

  /** The record was delivered: no transport error and status 200 or 202. */
  predicate IsAccepted(r: SinkResponse) {
    r.Status? && (r.code == 200 || r.code == 202)
  }

  /** The value of the first header with this name. */
  function Header(headers: seq<(string, string)>, name: string): Option<string> {
    if headers == [] then None
    else if headers[0].0 == name then Some(headers[0].1)
    else Header(headers[1..], name)
  }

  /** The string to sign is five lines: verb, length, content type, `x-ms-date:` and the date, resource. */
  lemma StringToSignLines(verb: string, contentLength: nat, contentType: string, date: string, resource: string)
    requires '\n' !in verb && '\n' !in contentType && '\n' !in date && '\n' !in resource
    ensures Split(StringToSign(verb, contentLength, contentType, date, resource), '\n')
      == [verb, DecimalString(contentLength), contentType, "x-ms-date:" + date, resource]
  {
    var len := DecimalString(contentLength);
    DecimalStringDenotes(contentLength);
    assert '\n' !in len by {
      forall i | 0 <= i < |len| ensures len[i] != '\n' { assert IsDigit(len[i], 10); }
    }
    var dateLine := "x-ms-date:" + date;
    assert '\n' !in dateLine;
    var t4 := dateLine + "\n" + resource;
    var t3 := contentType + "\n" + t4;
    var t2 := len + "\n" + t3;
    var t1 := verb + "\n" + t2;
    SplitNone(resource, '\n');
    SplitAfter(dateLine, '\n', resource);
    SplitAfter(contentType, '\n', t4);
    SplitAfter(len, '\n', t3);
    SplitAfter(verb, '\n', t2);
    StringToSignNested(verb, contentLength, contentType, date, resource);
  }

  lemma StringToSignNested(verb: string, contentLength: nat, contentType: string, date: string, resource: string)
    ensures StringToSign(verb, contentLength, contentType, date, resource)
      == verb + "\n" + (DecimalString(contentLength) + "\n" + (contentType + "\n" + (("x-ms-date:" + date) + "\n" + resource)))
  {
    assert "\nx-ms-date:" == "\n" + "x-ms-date:";
  }

  /** The signed string pins down the content length and the date: no two requests share it. */
  lemma StringToSignBindsLengthAndDate(verb: string, contentType: string, resource: string,
                                       len1: nat, date1: string, len2: nat, date2: string)
    requires '\n' !in verb && '\n' !in contentType && '\n' !in resource && '\n' !in date1 && '\n' !in date2
    requires StringToSign(verb, len1, contentType, date1, resource) == StringToSign(verb, len2, contentType, date2, resource)
    ensures len1 == len2 && date1 == date2
  {
    StringToSignLines(verb, len1, contentType, date1, resource);
    StringToSignLines(verb, len2, contentType, date2, resource);
    DecimalStringInjective(len1, len2);
    var l1 := "x-ms-date:" + date1;
    var l2 := "x-ms-date:" + date2;
    assert l1 == l2;
    assert date1 == l1[10..] && date2 == l2[10..];
  }

  /** Reading an Authorization value back into workspace id and signature. */
  function ParseSharedKey(h: string): Option<(string, string)> {
    if |h| >= |Scheme| && h[..|Scheme|] == Scheme then
      var rest := h[|Scheme|..];
      var i := IndexOf(rest, ":");
      if i < 0 then None else Some((rest[..i], rest[i + 1..]))
    else None
  }

  /** For a workspace id without a colon, the Authorization value gives back the id and the signature. */
  lemma ParseSharedKeyRoundTrip(workspaceId: string, signature: string)
    requires ':' !in workspaceId
    ensures ParseSharedKey(SharedKey(workspaceId, signature)) == Some((workspaceId, signature))
  {
    var h := SharedKey(workspaceId, signature);
    var rest := workspaceId + ":" + signature;
    assert h[..|Scheme|] == Scheme && h[|Scheme|..] == rest;
    var n := |workspaceId|;
    assert OccursAt(rest, ":", n);
    var i := IndexOf(rest, ":");
    assert i == n by {
      assert rest[i] == ':' by { assert rest[i..i + 1] == ":"; }
    }
    assert rest[..n] == workspaceId && rest[n + 1..] == signature;
  }

  /**
   * Every pushed request signs its own body length and its own `x-ms-date`
   * header under the SharedKey of the workspace, and goes to the client's endpoint.
   */
  lemma PushRequestSignsItself(c: Client, payload: string)
    ensures var r := PushRequest(c, payload);
      && r.url == c.url && r.verb == "POST" && r.body == payload
      && Header(r.headers, "x-ms-date") == Some(c.date)
      && Header(r.headers, "Content-Type") == Some(ContentType)
      && Header(r.headers, "Log-Type") == Some(c.namespace)
      && Header(r.headers, "Authorization")
         == Some(SharedKey(c.workspaceId, c.hmac(c.workspaceKey,
                   StringToSign(r.verb, |r.body|, ContentType, c.date, Resource))))
  {
    var r := PushRequest(c, payload);
    var hs := r.headers;
    assert Header(hs[4..], "Authorization") == None;
    assert Header(hs[3..], "Authorization") == Some(hs[3].1);
    assert Header(hs[2..], "Authorization") == Header(hs[3..], "Authorization");
    assert Header(hs[2..], "x-ms-date") == Some(c.date);
    assert Header(hs[1..], "x-ms-date") == Header(hs[2..], "x-ms-date");
    assert Header(hs[1..], "Authorization") == Header(hs[2..], "Authorization");
    assert Header(hs[1..], "Log-Type") == Some(c.namespace);
  }
}
