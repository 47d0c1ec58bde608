/**
 * The Azure side of the cost exporter: the Cost Management client keeps an
 * OAuth token with its expiry and reuses it while it is valid, and the query
 * answer (a column list and rows) is folded into a cost per service.
 *
 * The clock (whole seconds), the token endpoint's answer and the query's
 * answer arrive as inputs; what Python's `float()` makes of a text cell is
 * given by the map `floatOf`.
 */
module AzureCostExporter {
  import opened Common

  // ---------------------------------------------------------------------
  // The query answer
  // ---------------------------------------------------------------------

  /** A JSON cell of a result row. */
  datatype Cell = Text(s: string) | Number(x: real) | Null

  /** A column description; `name` is `None` when the key is absent. */
  datatype Column = Column(name: Option<string>)

  /** `data['properties']`: `None` fields are absent keys. */
  datatype Properties = Properties(columns: Option<seq<Column>>, rows: Option<seq<seq<Cell>>>)

  datatype CostResponse = CostResponse(properties: Option<Properties>)

  /** Why a query or a token request raised. */
  datatype ClientError = NotANumber(cell: Cell) | HttpError | MissingAccessToken | ExpiresInNotNumeric

  /**
   * `float(cell)`: a number is itself, a text is what `floatOf` says (absent
   * when `float()` rejects it), and null raises.
   */
  function ToFloat(c: Cell, floatOf: map<string, real>): (r: Option<real>)
    ensures c.Number? ==> r == Some(c.x)
    ensures c.Null? ==> r.None?
    ensures c.Text? ==> (r.Some? <==> c.s in floatOf)
  {
    match c
    case Number(x) => Some(x)
    case Text(s) => if s in floatOf then Some(floatOf[s]) else None
    case Null => None
  }

  /** The index the column loop leaves for `name`: the last column so named. */
  function LastIndexNamed(columns: seq<Column>, name: string): (idx: Option<nat>)
    ensures idx.None? <==> forall i :: 0 <= i < |columns| ==> columns[i].name != Some(name)
    ensures idx.Some? ==> idx.value < |columns| && columns[idx.value].name == Some(name) &&
                          forall j :: idx.value < j < |columns| ==> columns[j].name != Some(name)
  {
    if |columns| == 0 then None
    else if columns[|columns| - 1].name == Some(name) then Some(|columns| - 1)
    else LastIndexNamed(columns[..|columns| - 1], name)
  }

  function MaxIndex(a: nat, b: nat): nat
  {
    if a > b then a else b
  }

  /** A row is used only when it is longer than both indices. */
  predicate Kept(row: seq<Cell>, serviceIdx: nat, costIdx: nat)
  {
    |row| > MaxIndex(serviceIdx, costIdx)
  }

  /** The row loop: per-service running sums; a kept row whose cost does not convert raises. */
  function Aggregate(rows: seq<seq<Cell>>, serviceIdx: nat, costIdx: nat, floatOf: map<string, real>)
    : (r: Result<map<Cell, real>, ClientError>)
    ensures r.Err? ==> r.error.NotANumber?
  {
    if |rows| == 0 then Ok(map[])
    else
      match Aggregate(rows[..|rows| - 1], serviceIdx, costIdx, floatOf)
      case Err(e) => Err(e)
      case Ok(costs) => AddRow(costs, rows[|rows| - 1], serviceIdx, costIdx, floatOf)
  }

  /** One pass of the row loop. */
  function AddRow(costs: map<Cell, real>, row: seq<Cell>, serviceIdx: nat, costIdx: nat, floatOf: map<string, real>)
    : (r: Result<map<Cell, real>, ClientError>)
    ensures r.Err? ==> Kept(row, serviceIdx, costIdx) && r.error == NotANumber(row[costIdx])
  {
    if !Kept(row, serviceIdx, costIdx) then Ok(costs)
    else
      var service := row[serviceIdx];
      match ToFloat(row[costIdx], floatOf)
      case None => Err(NotANumber(row[costIdx]))
      case Some(cost) => Ok(costs[service := (if service in costs then costs[service] else 0.0) + cost])
  }

  /** `_parse_cost_data`. */
  function CostsOf(data: CostResponse, floatOf: map<string, real>): (r: Result<map<Cell, real>, ClientError>)
    ensures r.Err? ==> r.error.NotANumber? && data.properties.Some? && data.properties.value.rows.Some?
  {
    if data.properties.None? || data.properties.value.rows.None? then Ok(map[])
    else
      var columns := data.properties.value.columns.GetOr([]);
      var rows := data.properties.value.rows.value;
      var serviceIdx := LastIndexNamed(columns, "ServiceName");
      var costIdx := LastIndexNamed(columns, "Cost");
      if serviceIdx.Some? && costIdx.Some? then Aggregate(rows, serviceIdx.value, costIdx.value, floatOf)
      else Ok(map[])
  }

  /** Without `rows`, or without a `ServiceName` or a `Cost` column, the result is empty. */
  lemma EmptyWithoutRowsOrColumns(data: CostResponse, floatOf: map<string, real>)
    ensures data.properties.None? || data.properties.value.rows.None? ==> CostsOf(data, floatOf) == Ok(map[])
    ensures data.properties.Some? &&
            (forall i :: 0 <= i < |data.properties.value.columns.GetOr([])| ==>
               data.properties.value.columns.GetOr([])[i].name != Some("Cost")) ==>
            CostsOf(data, floatOf) == Ok(map[])
    ensures data.properties.Some? &&
            (forall i :: 0 <= i < |data.properties.value.columns.GetOr([])| ==>
               data.properties.value.columns.GetOr([])[i].name != Some("ServiceName")) ==>
            CostsOf(data, floatOf) == Ok(map[])
  {
  }

  // ---------------------------------------------------------------------
  // The sums, stated independently of the loop
  // ---------------------------------------------------------------------

  /** The cost of a kept row, 0 when it does not convert. */
  function RowCost(row: seq<Cell>, costIdx: nat, floatOf: map<string, real>): real
    requires costIdx < |row|
  {
    ToFloat(row[costIdx], floatOf).GetOr(0.0)
  }

  /** Sum of the costs of the kept rows whose service cell is `service`. */
  function ServiceTotal(rows: seq<seq<Cell>>, serviceIdx: nat, costIdx: nat, floatOf: map<string, real>, service: Cell): real
  {
    if |rows| == 0 then 0.0
    else
      var row := rows[|rows| - 1];
      ServiceTotal(rows[..|rows| - 1], serviceIdx, costIdx, floatOf, service) +
      if Kept(row, serviceIdx, costIdx) && row[serviceIdx] == service then RowCost(row, costIdx, floatOf) else 0.0
  }

  /** Some kept row has service cell `service`. */
  predicate Mentioned(rows: seq<seq<Cell>>, serviceIdx: nat, costIdx: nat, service: Cell)
  {
    exists k :: 0 <= k < |rows| && Kept(rows[k], serviceIdx, costIdx) && rows[k][serviceIdx] == service
  }

  /** Every kept row's cost converts. */
  predicate AllCostsConvert(rows: seq<seq<Cell>>, serviceIdx: nat, costIdx: nat, floatOf: map<string, real>)
  {
    forall k :: 0 <= k < |rows| && Kept(rows[k], serviceIdx, costIdx) ==> ToFloat(rows[k][costIdx], floatOf).Some?
  }

  /**
   * The loop succeeds exactly when every kept row's cost converts, and then
   * holds a key for exactly the services of kept rows, each with the sum of
   * their costs.
   */
  lemma {:induction false} AggregateIsServiceTotals(rows: seq<seq<Cell>>, serviceIdx: nat, costIdx: nat, floatOf: map<string, real>)
    ensures Aggregate(rows, serviceIdx, costIdx, floatOf).Ok? <==> AllCostsConvert(rows, serviceIdx, costIdx, floatOf)
    ensures Aggregate(rows, serviceIdx, costIdx, floatOf).Ok? ==>
              var costs := Aggregate(rows, serviceIdx, costIdx, floatOf).value;
              && (forall s :: s in costs <==> Mentioned(rows, serviceIdx, costIdx, s))
              && (forall s :: s in costs ==> costs[s] == ServiceTotal(rows, serviceIdx, costIdx, floatOf, s))
  {
    if |rows| > 0 {
      var init, row := rows[..|rows| - 1], rows[|rows| - 1];
      AggregateIsServiceTotals(init, serviceIdx, costIdx, floatOf);
      var kept := Kept(row, serviceIdx, costIdx);
      ConvertStep(rows, serviceIdx, costIdx, floatOf);
      if Aggregate(rows, serviceIdx, costIdx, floatOf).Ok? {
        var costs0 := Aggregate(init, serviceIdx, costIdx, floatOf).value;
        var costs := Aggregate(rows, serviceIdx, costIdx, floatOf).value;
        MentionedStep(rows, serviceIdx, costIdx);
        forall s | s in costs ensures costs[s] == ServiceTotal(rows, serviceIdx, costIdx, floatOf, s) {
          if s in costs0 {
            assert costs0[s] == ServiceTotal(init, serviceIdx, costIdx, floatOf, s);
          } else {
            ServiceTotalUnmentioned(init, serviceIdx, costIdx, floatOf, s);
          }
        }
      }
    }
  }

  lemma ConvertStep(rows: seq<seq<Cell>>, serviceIdx: nat, costIdx: nat, floatOf: map<string, real>)
    requires |rows| > 0
    ensures AllCostsConvert(rows, serviceIdx, costIdx, floatOf) <==>
              AllCostsConvert(rows[..|rows| - 1], serviceIdx, costIdx, floatOf) &&
              (Kept(rows[|rows| - 1], serviceIdx, costIdx) ==> ToFloat(rows[|rows| - 1][costIdx], floatOf).Some?)
  {
    var init := rows[..|rows| - 1];
    assert forall k :: 0 <= k < |init| ==> init[k] == rows[k];
  }

  lemma MentionedStep(rows: seq<seq<Cell>>, serviceIdx: nat, costIdx: nat)
    requires |rows| > 0
    ensures forall s :: Mentioned(rows, serviceIdx, costIdx, s) <==>
              Mentioned(rows[..|rows| - 1], serviceIdx, costIdx, s) ||
              (Kept(rows[|rows| - 1], serviceIdx, costIdx) && rows[|rows| - 1][serviceIdx] == s)
  {
    var init := rows[..|rows| - 1];
    assert forall k :: 0 <= k < |init| ==> init[k] == rows[k];
  }

  /** A service that no kept row mentions totals 0. */
  lemma {:induction false} ServiceTotalUnmentioned(rows: seq<seq<Cell>>, serviceIdx: nat, costIdx: nat,
                                                   floatOf: map<string, real>, service: Cell)
    requires !Mentioned(rows, serviceIdx, costIdx, service)
    ensures ServiceTotal(rows, serviceIdx, costIdx, floatOf, service) == 0.0
  {
    if |rows| > 0 {
      MentionedStep(rows, serviceIdx, costIdx);
      ServiceTotalUnmentioned(rows[..|rows| - 1], serviceIdx, costIdx, floatOf, service);
    }
  }

  /** Once a prefix of the rows raises, the whole loop raises the same. */
  lemma {:induction false} AggregateErrSticky(rows: seq<seq<Cell>>, n: nat, serviceIdx: nat, costIdx: nat, floatOf: map<string, real>)
    requires n <= |rows| && Aggregate(rows[..n], serviceIdx, costIdx, floatOf).Err?
    ensures Aggregate(rows, serviceIdx, costIdx, floatOf) == Aggregate(rows[..n], serviceIdx, costIdx, floatOf)
    decreases |rows|
  {
    if n < |rows| {
      var init := rows[..|rows| - 1];
      assert init[..n] == rows[..n];
      AggregateErrSticky(init, n, serviceIdx, costIdx, floatOf);
    } else {
      assert rows[..n] == rows;
    }
  }

  /** `_parse_cost_data`: the column loop, then the row loop updating `costs` in place. */
  method ParseCostData(data: CostResponse, floatOf: map<string, real>) returns (r: Result<map<Cell, real>, ClientError>)
    ensures r == CostsOf(data, floatOf)
  {
    var costs: map<Cell, real> := map[];
    if data.properties.None? || data.properties.value.rows.None? {
      return Ok(costs);
    }
    var columns := data.properties.value.columns.GetOr([]);
    var rows := data.properties.value.rows.value;
    var serviceIdx, costIdx := FindColumns(columns);
    if serviceIdx.None? || costIdx.None? {
      return Ok(costs);
    }
    r := SumRows(rows, serviceIdx.value, costIdx.value, floatOf);
  }

  /** The column loop of `_parse_cost_data`: the last `ServiceName` and the last `Cost` column. */
  method FindColumns(columns: seq<Column>) returns (serviceIdx: Option<nat>, costIdx: Option<nat>)
    ensures serviceIdx == LastIndexNamed(columns, "ServiceName")
    ensures costIdx == LastIndexNamed(columns, "Cost")
  {
    serviceIdx, costIdx := None, None;
    for i := 0 to |columns|
      invariant serviceIdx == LastIndexNamed(columns[..i], "ServiceName")
      invariant costIdx == LastIndexNamed(columns[..i], "Cost")
    {
      assert columns[..i + 1][..i] == columns[..i];
      if columns[i].name == Some("ServiceName") {
        serviceIdx := Some(i);
      } else if columns[i].name == Some("Cost") {
        costIdx := Some(i);
      }
    }
    assert columns[..|columns|] == columns;
  }

  /** The row loop of `_parse_cost_data`, stopping at the first cost that does not convert. */
  method SumRows(rows: seq<seq<Cell>>, si: nat, ci: nat, floatOf: map<string, real>)
    returns (r: Result<map<Cell, real>, ClientError>)
    ensures r == Aggregate(rows, si, ci, floatOf)
  {
    var costs: map<Cell, real> := map[];
    for i := 0 to |rows|
      invariant Aggregate(rows[..i], si, ci, floatOf) == Ok(costs)
    {
      assert rows[..i + 1][..i] == rows[..i];
      var row := rows[i];
      if |row| > MaxIndex(si, ci) {
        var service := row[si];
        var cost := ToFloat(row[ci], floatOf);
        if cost.None? {
          AggregateErrSticky(rows, i + 1, si, ci, floatOf);
          return Err(NotANumber(row[ci]));
        }
        costs := costs[service := (if service in costs then costs[service] else 0.0) + cost.value];
      }
    }
    assert rows[..|rows|] == rows;
    r := Ok(costs);
  }

  // ---------------------------------------------------------------------
  // The token cache
  // ---------------------------------------------------------------------

  /** `expires_in` of a token answer: a number of seconds, or a value that is not a number. */
  datatype ExpiresIn = Seconds(n: int) | NotNumeric

  /**
   * The token endpoint's answer: whether `raise_for_status` passes, and the
   * `access_token` and `expires_in` keys (`None` when absent).
   */
  datatype TokenResponse = TokenResponse(statusOk: bool, accessToken: Option<string>, expiresIn: Option<ExpiresIn>)

  /** The two fields of the client the token logic reads and writes. */
  datatype TokenCache = TokenCache(accessToken: Option<string>, tokenExpires: Option<int>)

  const DefaultExpiresIn := 3600

  /** Seconds taken off the announced lifetime. */
  const ExpiryBuffer := 60

  /** `self.access_token and self.token_expires and now < self.token_expires` (an empty token is falsy). */
  predicate CacheValid(cache: TokenCache, now: int)
  {
    cache.accessToken.Some? && cache.accessToken.value != "" && cache.tokenExpires.Some? && now < cache.tokenExpires.value
  }

  datatype TokenStep = TokenStep(cache: TokenCache, result: Result<string, ClientError>)

  /**
   * `get_access_token` on the client's fields: the cached token while it is
   * valid; otherwise the answer's token is stored and expires `expires_in - 60`
   * seconds from now. A non-numeric `expires_in` raises after the token was
   * stored, leaving the old expiry.
   */
  function AccessTokenStep(cache: TokenCache, now: int, response: TokenResponse): (step: TokenStep)
    ensures step.result.Ok? ==> step.cache.accessToken == Some(step.result.value)
    ensures step.result.Err? ==> step.cache.tokenExpires == cache.tokenExpires
    ensures CacheValid(cache, now) ==> step == TokenStep(cache, Ok(cache.accessToken.value))
  {
    if CacheValid(cache, now) then TokenStep(cache, Ok(cache.accessToken.value))
    else if !response.statusOk then TokenStep(cache, Err(HttpError))
    else if response.accessToken.None? then TokenStep(cache, Err(MissingAccessToken))
    else
      var token := response.accessToken.value;
      match response.expiresIn.GetOr(Seconds(DefaultExpiresIn))
      case NotNumeric => TokenStep(TokenCache(Some(token), cache.tokenExpires), Err(ExpiresInNotNumeric))
      case Seconds(e) => TokenStep(TokenCache(Some(token), Some(now + (e - ExpiryBuffer))), Ok(token))
  }

  /** A valid cached token is returned as is and nothing changes; an invalid one is never returned from the cache. */
  lemma CachedTokenReused(cache: TokenCache, now: int, response: TokenResponse)
    ensures CacheValid(cache, now) ==> AccessTokenStep(cache, now, response) == TokenStep(cache, Ok(cache.accessToken.value))
    ensures !CacheValid(cache, now) && AccessTokenStep(cache, now, response).result.Ok? ==>
              response.statusOk && AccessTokenStep(cache, now, response).result == Ok(response.accessToken.value)
  {
  }

  /**
   * After a successful refresh the new token is cached and expires
   * `expires_in - 60` seconds (3540 without `expires_in`) from now.
   */
  lemma RefreshSetsExpiry(cache: TokenCache, now: int, response: TokenResponse)
    requires !CacheValid(cache, now) && response.statusOk && response.accessToken.Some?
    requires response.expiresIn.None? || response.expiresIn.value.Seconds?
    ensures var step := AccessTokenStep(cache, now, response);
            var e := if response.expiresIn.None? then 3600 else response.expiresIn.value.n;
            && step.result == Ok(response.accessToken.value)
            && step.cache == TokenCache(response.accessToken, Some(now + e - 60))
            && (response.expiresIn.None? ==> step.cache.tokenExpires == Some(now + 3540))
  {
  }

  /**
   * A refreshed non-empty token is reused exactly for the next `expires_in - 60`
   * seconds; with `expires_in` at most 60 it is never reused.
   */
  lemma CachedLifetime(cache: TokenCache, now: int, response: TokenResponse, later: int)
    requires !CacheValid(cache, now) && response.statusOk && response.accessToken.Some?
    requires response.expiresIn.None? || response.expiresIn.value.Seconds?
    requires later >= now
    ensures var e := if response.expiresIn.None? then 3600 else response.expiresIn.value.n;
            var next := AccessTokenStep(cache, now, response).cache;
            && (CacheValid(next, later) <==> response.accessToken.value != "" && later - now < e - 60)
            && (e <= 60 ==> !CacheValid(next, later))
  {
  }

  /** A non-numeric `expires_in` stores the token but keeps the old expiry, and the call raises. */
  lemma NonNumericExpiry(cache: TokenCache, now: int, token: string)
    requires !CacheValid(cache, now)
    ensures AccessTokenStep(cache, now, TokenResponse(true, Some(token), Some(NotNumeric))) ==
              TokenStep(TokenCache(Some(token), cache.tokenExpires), Err(ExpiresInNotNumeric))
  {
  }

  /** `get_cost_data`: any failure (token, query or parsing) yields an empty result. */
  function CostDataOf(tokenResult: Result<string, ClientError>, query: Option<CostResponse>, floatOf: map<string, real>)
    : (costs: map<Cell, real>)
    ensures tokenResult.Err? || query.None? ==> costs == map[]
  {
    if tokenResult.Err? || query.None? then map[]
    else match CostsOf(query.value, floatOf)
      case Err(_) => map[]
      case Ok(m) => m
  }

  class AzureCostManagementClient {
    var accessToken: Option<string>
    var tokenExpires: Option<int>
    const baseUrl: string

    constructor ()
      ensures accessToken.None? && tokenExpires.None? && baseUrl == "https://management.azure.com"
    {
      accessToken := None;
      tokenExpires := None;
      baseUrl := "https://management.azure.com";
    }

    function Cache(): TokenCache
      reads this
    {
      TokenCache(accessToken, tokenExpires)
    }

    /** `get_access_token`, with the clock and the token endpoint's answer as inputs. */
    method GetAccessToken(now: int, response: TokenResponse) returns (r: Result<string, ClientError>)
      modifies this
      ensures TokenStep(Cache(), r) == AccessTokenStep(old(Cache()), now, response)
    {
      if accessToken.Some? && accessToken.value != "" && tokenExpires.Some? && now < tokenExpires.value {
        return Ok(accessToken.value);
      }
      if !response.statusOk {
        return Err(HttpError);
      }
      if response.accessToken.None? {
        return Err(MissingAccessToken);
      }
      accessToken := response.accessToken;
      var expiresIn := response.expiresIn.GetOr(Seconds(DefaultExpiresIn));
      if expiresIn.NotNumeric? {
        return Err(ExpiresInNotNumeric);
      }
      tokenExpires := Some(now + (expiresIn.n - ExpiryBuffer));
      r := Ok(accessToken.value);
    }

    /**
     * `get_cost_data`: fetch a token, post the query (`None` when the request
     * fails) and parse the answer; every failure gives an empty result.
     */
    method GetCostData(now: int, tokenResponse: TokenResponse, query: Option<CostResponse>, floatOf: map<string, real>)
      returns (costs: map<Cell, real>)
      modifies this
      ensures var step := AccessTokenStep(old(Cache()), now, tokenResponse);
              && Cache() == step.cache
              && costs == CostDataOf(step.result, query, floatOf)
    {
      var token := GetAccessToken(now, tokenResponse);
      if token.Err? || query.None? {
        return map[];
      }
      var parsed := ParseCostData(query.value, floatOf);
      if parsed.Err? {
        return map[];
      }
      costs := parsed.value;
    }
  }
}
