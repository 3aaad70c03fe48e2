/**
 * The webtask's settings (`ctx.data`): the six required settings checked before
 * anything else happens, and the page size asked of Auth0.
 */
module Settings {
  import opened Wrappers
  import opened JsText

  /** Setting name to value. A missing setting and an empty one are both falsy in JavaScript. */
  type Config = map<string, string>

  const Auth0Domain := "AUTH0_DOMAIN"
  const Auth0ClientId := "AUTH0_CLIENT_ID"
  const Auth0ClientSecret := "AUTH0_CLIENT_SECRET"
  const WorkspaceId := "LOGANALYTICS_WORKSPACEID"
  const WorkspaceKey := "LOGANALYTICS_WORKSPACEKEY"
  const Namespace := "LOGANALYTICS_NAMESPACE"
  const ApiVersion := "LOGANALYTICS_APIVERSION"
  const BatchSizeSetting := "BATCH_SIZE"

  const CredentialsMissing := "Auth0 API v1 credentials or domain missing."
  const WorkspaceIdMissing := "Azure Log Analytics Workspace ID missing."
  const WorkspaceKeyMissing := "Azure Log Analytics Workspace Key missing."
  const NamespaceMissing := "Azure Log Analytics Namespace missing."

  /** The page size used when BATCH_SIZE is not set, and the most Auth0 is ever asked for. */
  const MaxBatchSize := 100

  /** `ctx.data[key]`, with a missing setting read as the empty string. */
  function Get(data: Config, key: string): string {
    if key in data then data[key] else ""
  }

  /** The setting is truthy: present and not empty. */
  predicate IsSet(data: Config, key: string) {
    Get(data, key) != ""
  }

  /**
   * The guard clauses of `lastLogCheckpoint`: None when every required setting
   * is set, otherwise the message of the 400 reply.
   */
  function CheckConfig(data: Config): Option<string> {
    if !IsSet(data, Auth0Domain) || !IsSet(data, Auth0ClientId) || !IsSet(data, Auth0ClientSecret) then
      Some(CredentialsMissing)
    else if !IsSet(data, WorkspaceId) then Some(WorkspaceIdMissing)
    else if !IsSet(data, WorkspaceKey) then Some(WorkspaceKeyMissing)
    else if !IsSet(data, Namespace) then Some(NamespaceMissing)
    else None
  }

  /** The required settings in the order they are checked, each with the message that names it. */
  const Required: seq<(string, string)> := [
    (Auth0Domain, CredentialsMissing),
    (Auth0ClientId, CredentialsMissing),
    (Auth0ClientSecret, CredentialsMissing),
    (WorkspaceId, WorkspaceIdMissing),
    (WorkspaceKey, WorkspaceKeyMissing),
    (Namespace, NamespaceMissing)
  ]

  /** Reference reading of the checks: the message of the first unset setting of `reqs`. */
  function FirstMissing(reqs: seq<(string, string)>, data: Config): (r: Option<string>)
    ensures r.None? <==> forall i :: 0 <= i < |reqs| ==> IsSet(data, reqs[i].0)
  {
    if reqs == [] then None
    else if !IsSet(data, reqs[0].0) then Some(reqs[0].1)
    else
      var r := FirstMissing(reqs[1..], data);
      assert forall i :: 1 <= i < |reqs| ==> reqs[i] == reqs[1..][i - 1];
      r
  }

  /** The guard clauses report exactly the first unset setting of the fixed order. */
  lemma CheckConfigIsFirstMissing(data: Config)
    ensures CheckConfig(data) == FirstMissing(Required, data)
  {
    var r := Required;
    assert r[1..] == [(Auth0ClientId, CredentialsMissing), (Auth0ClientSecret, CredentialsMissing),
      (WorkspaceId, WorkspaceIdMissing), (WorkspaceKey, WorkspaceKeyMissing), (Namespace, NamespaceMissing)];
    assert r[2..] == [(Auth0ClientSecret, CredentialsMissing), (WorkspaceId, WorkspaceIdMissing),
      (WorkspaceKey, WorkspaceKeyMissing), (Namespace, NamespaceMissing)];
    assert r[3..] == [(WorkspaceId, WorkspaceIdMissing), (WorkspaceKey, WorkspaceKeyMissing), (Namespace, NamespaceMissing)];
    assert r[4..] == [(WorkspaceKey, WorkspaceKeyMissing), (Namespace, NamespaceMissing)];
    assert r[5..] == [(Namespace, NamespaceMissing)];
    assert r[1..][1..] == r[2..] && r[2..][1..] == r[3..] && r[3..][1..] == r[4..] && r[4..][1..] == r[5..];
    assert r[5..][1..] == [];
    assert FirstMissing(r[5..], data) == if !IsSet(data, Namespace) then Some(NamespaceMissing) else None;
    assert FirstMissing(r[4..], data) ==
      if !IsSet(data, WorkspaceKey) then Some(WorkspaceKeyMissing) else FirstMissing(r[5..], data);
    assert FirstMissing(r[3..], data) ==
      if !IsSet(data, WorkspaceId) then Some(WorkspaceIdMissing) else FirstMissing(r[4..], data);
    assert FirstMissing(r[2..], data) ==
      if !IsSet(data, Auth0ClientSecret) then Some(CredentialsMissing) else FirstMissing(r[3..], data);
    assert FirstMissing(r[1..], data) ==
      if !IsSet(data, Auth0ClientId) then Some(CredentialsMissing) else FirstMissing(r[2..], data);
  }

  /** The run goes past the checks exactly when all six required settings are set. */
  lemma CheckConfigAcceptsExactly(data: Config)
    ensures CheckConfig(data).None? <==> forall i :: 0 <= i < |Required| ==> IsSet(data, Required[i].0)
  {
    CheckConfigIsFirstMissing(data);
  }

  /** When setting `i` is the first unset one, its message is the reply. */
  lemma {:induction false} CheckConfigReportsFirst(data: Config, i: nat)
    requires i < |Required|
    requires !IsSet(data, Required[i].0)
    requires forall j :: 0 <= j < i ==> IsSet(data, Required[j].0)
    ensures CheckConfig(data) == Some(Required[i].1)
  {
    CheckConfigIsFirstMissing(data);
    FirstMissingAt(Required, data, i);
  }

  lemma {:induction false} FirstMissingAt(reqs: seq<(string, string)>, data: Config, i: nat)
    requires i < |reqs|
    requires !IsSet(data, reqs[i].0)
    requires forall j :: 0 <= j < i ==> IsSet(data, reqs[j].0)
    ensures FirstMissing(reqs, data) == Some(reqs[i].1)
  {
    if i > 0 {
      assert IsSet(data, reqs[0].0);
      assert forall j :: 0 <= j < i - 1 ==> reqs[1..][j] == reqs[j + 1];
      FirstMissingAt(reqs[1..], data, i - 1);
    }
  }

  /**
   * `take` in `getLogs`: `Number.parseInt(ctx.data.BATCH_SIZE || 100)`, then
   * anything above 100 becomes 100. Without the setting `parseInt` is handed the
   * number 100, which it reads back as 100 (`DefaultBatchSizeParses`). NaN passes
   * through, since `NaN > 100` is false.
   */
  function BatchSize(data: Config): (take: JsInt)
    ensures !(take.Int? && take.value > MaxBatchSize)
  {
    if IsSet(data, BatchSizeSetting) then CapBatchSize(ParseInt(Get(data, BatchSizeSetting)))
    else Int(MaxBatchSize)
  }

  /** `take > 100 ? 100 : take`. */
  function CapBatchSize(take: JsInt): (r: JsInt)
    ensures !(r.Int? && r.value > MaxBatchSize)
  {
    if take.Int? && take.value > 100 then Int(100) else take
  }

  /** `parseInt` reads the default, the number 100 as its text "100", as 100, which the cap leaves alone. */
  lemma DefaultBatchSizeParses()
    ensures CapBatchSize(ParseInt("100")) == Int(MaxBatchSize)
  {
    var text := "100";
    assert !IsWhiteSpace(text[0]);
    assert TrimStart(text) == text && StripSign(text) == text && !HasHexPrefix(text);
    assert AllDigits(text, 10);
    DigitRunOfDigits(text, [], 10);
    assert text + [] == text && text[..3] == text;
    assert ValueOf(text, 10) == 100 by {
      assert text[..2] == "10" && "10"[..1] == "1" && "1"[..0] == [];
    }
  }

  /** A set BATCH_SIZE is what `parseInt` reads from it when that is at most 100, NaN when it reads NaN, else 100. */
  lemma BatchSizeFollowsSetting(data: Config)
    requires IsSet(data, BatchSizeSetting)
    ensures var parsed := ParseInt(Get(data, BatchSizeSetting));
      && (parsed.NaN? ==> BatchSize(data) == NaN)
      && (parsed.Int? && parsed.value <= MaxBatchSize ==> BatchSize(data) == parsed)
      && (parsed.Int? && parsed.value > MaxBatchSize ==> BatchSize(data) == Int(MaxBatchSize))
  {
  }

  /** A BATCH_SIZE written as a plain decimal number is used as given up to 100, and capped at 100. */
  lemma BatchSizeOfNumber(data: Config, n: nat)
    requires Get(data, BatchSizeSetting) == DecimalString(n)
    ensures BatchSize(data) == Int(if n > MaxBatchSize then MaxBatchSize else n)
  {
    ParseIntDecimal(n, []);
    assert DecimalString(n) + [] == DecimalString(n);
  }
}
