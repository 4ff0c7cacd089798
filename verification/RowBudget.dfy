// The byte budgets of internal/authpolicy/postgresql.go: the check of a raw row before it is
// decoded, and the limits derived from the same configuration.
module RowBudget {
  import opened Common
  import opened TextArray

  datatype Config = Config(maxGroups: nat, maxGroupBytes: nat, maxJsonBytes: nat)

  datatype RowError = Width | NullCell | CellTooLong | BadArray | RowTooLong

  const MAX_BACKEND_MESSAGE_BODY := 67_108_864

  const TRUST_ISSUER := ["issuer_id", "provider", "issuer_url", "signing_algs", "max_token_age_seconds"]
  const TRUST_BINDINGS := [
    "client_id", "issuer_id", "binding_id", "subject", "required_claims", "policy_claims", "binding_claims", "groups"]

  // The ranges the configuration loader accepts.
  predicate Configured(cfg: Config) {
    1 <= cfg.maxGroups <= 1000 && 1 <= cfg.maxGroupBytes <= 4096 && 1024 <= cfg.maxJsonBytes <= 1_048_576
  }

  function GroupWire(cfg: Config): nat {
    WireBound(cfg.maxGroups, cfg.maxGroupBytes)
  }

  function RawRowBudget(cfg: Config): nat {
    4 * 256 + GroupWire(cfg) + cfg.maxJsonBytes + 4096
  }

  function BackendMessageBodyLimit(cfg: Config): int {
    Min(MAX_BACKEND_MESSAGE_BODY, RawRowBudget(cfg) + 8 * 4 + 65536)
  }

  function ResultByteLimit(cfg: Config): int {
    Min(MAX_BACKEND_MESSAGE_BODY, cfg.maxJsonBytes + GroupWire(cfg) + 4 * 256 + 65536)
  }

  // ---- What the check accepts ---------------------------------------------------------------------

  predicate IsJson(name: string) {
    name == "required_claims" || name == "policy_claims" || name == "binding_claims"
  }

  // The limit of a cell by the name of its column.
  function CellLimit(cfg: Config, name: string): Option<nat> {
    if name == "client_id" || name == "issuer_id" || name == "subject" then Some(256)
    else if name == "provider" then Some(16)
    else if name == "issuer_url" then Some(2048)
    else if name == "binding_id" then Some(64)
    else if name == "groups" then Some(GroupWire(cfg))
    else if name == "max_token_age_seconds" then Some(19)
    else None
  }

  ghost predicate IsArrayText(value: Bytes, maxElements: nat, maxBytes: nat) {
    exists es :: GoodArray(es, maxElements, maxBytes) && value == ArrayText(es)
  }

  ghost predicate CellFits(cfg: Config, name: string, value: Bytes) {
    && (CellLimit(cfg, name).Some? ==> |value| <= CellLimit(cfg, name).value)
    && (name == "groups" ==> IsArrayText(value, cfg.maxGroups, cfg.maxGroupBytes))
    && (name == "signing_algs" ==> IsArrayText(value, 16, 16))
  }

  // The limits, column by column.
  lemma CellLimits(cfg: Config, value: Bytes)
    ensures CellFits(cfg, "client_id", value) <==> |value| <= 256
    ensures CellFits(cfg, "issuer_id", value) <==> |value| <= 256
    ensures CellFits(cfg, "subject", value) <==> |value| <= 256
    ensures CellFits(cfg, "provider", value) <==> |value| <= 16
    ensures CellFits(cfg, "issuer_url", value) <==> |value| <= 2048
    ensures CellFits(cfg, "binding_id", value) <==> |value| <= 64
    ensures CellFits(cfg, "max_token_age_seconds", value) <==> |value| <= 19
    ensures CellFits(cfg, "groups", value) <==> IsArrayText(value, cfg.maxGroups, cfg.maxGroupBytes)
    ensures CellFits(cfg, "signing_algs", value) <==> IsArrayText(value, 16, 16)
    ensures CellFits(cfg, "required_claims", value) && CellFits(cfg, "policy_claims", value)
      && CellFits(cfg, "binding_claims", value)
  {
    if IsArrayText(value, cfg.maxGroups, cfg.maxGroupBytes) {
      GroupsLengthRedundant(cfg, value);
    }
    hide IsArrayText, GroupWire;
  }

  function Total(raw: seq<Option<Bytes>>): nat {
    if |raw| == 0 then 0
    else Total(raw[..|raw| - 1]) + match raw[|raw| - 1] case None => 0 case Some(v) => |v|
  }

  function JsonTotal(columns: seq<string>, raw: seq<Option<Bytes>>): nat
    requires |raw| <= |columns|
  {
    if |raw| == 0 then 0
    else
      JsonTotal(columns, raw[..|raw| - 1])
      + match raw[|raw| - 1] case None => 0 case Some(v) => if IsJson(columns[|raw| - 1]) then |v| else 0
  }

  ghost predicate CellsFit(cfg: Config, columns: seq<string>, raw: seq<Option<Bytes>>)
    requires |raw| <= |columns|
  {
    forall i :: 0 <= i < |raw| ==> raw[i].Some? && CellFits(cfg, columns[i], raw[i].value)
  }

  // The limits on one cell, by the name of its column.
  method CheckCell(cfg: Config, name: string, value: Bytes) returns (refusal: Option<RowError>)
    ensures refusal.None? <==> CellFits(cfg, name, value)
    ensures refusal == Some(CellTooLong) <==> CellLimit(cfg, name).Some? && |value| > CellLimit(cfg, name).value
  {
    hide GroupWire;
    if name == "client_id" || name == "issuer_id" || name == "subject" {
      return if |value| > 256 then Some(CellTooLong) else None;
    } else if name == "provider" {
      return if |value| > 16 then Some(CellTooLong) else None;
    } else if name == "issuer_url" {
      return if |value| > 2048 then Some(CellTooLong) else None;
    } else if name == "binding_id" {
      return if |value| > 64 then Some(CellTooLong) else None;
    } else if name == "groups" {
      if |value| > GroupWire(cfg) {
        return Some(CellTooLong);
      }
      var valid := ValidateTextArrayWire(value, cfg.maxGroups, cfg.maxGroupBytes);
      return if valid then None else Some(BadArray);
    } else if name == "signing_algs" {
      var valid := ValidateTextArrayWire(value, 16, 16);
      return if valid then None else Some(BadArray);
    } else if name == "max_token_age_seconds" {
      return if |value| > 19 then Some(CellTooLong) else None;
    }
    return None;
  }

  // checkRawRow accepts a row exactly if it has a value that fits for every column, and the JSON
  // and the whole row are within their budgets; and it reports both sizes.
  method CheckRawRow(
    cfg: Config, columns: seq<string>, raw: seq<Option<Bytes>>) returns (r: Result<(nat, nat), RowError>)
    ensures r.Ok? <==>
      && |raw| == |columns| && CellsFit(cfg, columns, raw)
      && JsonTotal(columns, raw) <= cfg.maxJsonBytes && Total(raw) <= RawRowBudget(cfg)
    ensures r.Ok? ==> r.value == (Total(raw), JsonTotal(columns, raw))
  {
    hide RawRowBudget, CellFits, IsJson;
    if |raw| != |columns| {
      return Err(Width);
    }
    var total, jsonTotal := 0, 0;
    assert raw[..|raw|] == raw;
    for i := 0 to |raw|
      invariant CellsFit(cfg, columns, raw[..i])
      invariant total == Total(raw[..i]) && jsonTotal == JsonTotal(columns, raw[..i])
    {
      assert raw[..i + 1][..i] == raw[..i];
      if raw[i].None? {
        return Err(NullCell);
      }
      var value, name := raw[i].value, columns[i];
      total := total + |value|;
      var refusal := CheckCell(cfg, name, value);
      if refusal.Some? {
        return Err(refusal.value);
      }
      if IsJson(name) {
        jsonTotal := jsonTotal + |value|;
      }
    }
    if jsonTotal > cfg.maxJsonBytes || total > RawRowBudget(cfg) {
      return Err(RowTooLong);
    }
    return Ok((total, jsonTotal));
  }

  // ---- The budgets agree ----------------------------------------------------------------------------

  lemma ArrayTextLength(value: Bytes, maxElements: nat, maxBytes: nat)
    requires IsArrayText(value, maxElements, maxBytes)
    ensures |value| <= WireBound(maxElements, maxBytes)
  {
    var es :| GoodArray(es, maxElements, maxBytes) && value == ArrayText(es);
    ParseExact(value, maxElements, maxBytes, es);
    AcceptedLength(value, maxElements, maxBytes);
  }

  // The length check on groups never refuses what the array check would accept.
  lemma GroupsLengthRedundant(cfg: Config, value: Bytes)
    requires IsArrayText(value, cfg.maxGroups, cfg.maxGroupBytes)
    ensures |value| <= GroupWire(cfg)
  {
    ArrayTextLength(value, cfg.maxGroups, cfg.maxGroupBytes);
  }

  // The most a cell that fits can take, JSON apart, which has a budget for the whole row.
  function Allowance(cfg: Config, name: string): nat {
    if name == "signing_algs" then 578 else if CellLimit(cfg, name).Some? then CellLimit(cfg, name).value else 0
  }

  predicate Limited(cfg: Config, name: string) {
    name == "signing_algs" || CellLimit(cfg, name).Some? || IsJson(name)
  }

  function Allowances(cfg: Config, columns: seq<string>, n: nat): nat
    requires n <= |columns|
  {
    if n == 0 then 0 else Allowances(cfg, columns, n - 1) + Allowance(cfg, columns[n - 1])
  }

  lemma CellWithinAllowance(cfg: Config, name: string, value: Bytes)
    requires Limited(cfg, name) && CellFits(cfg, name, value)
    ensures |value| <= Allowance(cfg, name) + if IsJson(name) then |value| else 0
  {
    if name == "signing_algs" {
      ArrayTextLength(value, 16, 16);
    }
  }

  lemma {:induction false} RowWithinAllowances(cfg: Config, columns: seq<string>, raw: seq<Option<Bytes>>)
    requires |raw| <= |columns| && CellsFit(cfg, columns, raw) && forall i :: 0 <= i < |raw| ==>
      Limited(cfg, columns[i])
    ensures Total(raw) <= Allowances(cfg, columns, |raw|) + JsonTotal(columns, raw)
  {
    hide CellFits, Limited, IsJson, Allowance;
    if |raw| > 0 {
      var n := |raw| - 1;
      RowWithinAllowances(cfg, columns, raw[..n]);
      CellWithinAllowance(cfg, columns[n], raw[n].value);
    }
  }

  lemma IssuerAllowances(cfg: Config)
    ensures Allowances(cfg, TRUST_ISSUER, 5) == 256 + 16 + 2048 + 578 + 19
    ensures forall i :: 0 <= i < 5 ==> Limited(cfg, TRUST_ISSUER[i])
  {
    assert Allowances(cfg, TRUST_ISSUER, 1) == 256;
    assert Allowances(cfg, TRUST_ISSUER, 3) == 256 + 16 + 2048;
  }

  lemma BindingAllowances(cfg: Config)
    ensures Allowances(cfg, TRUST_BINDINGS, 8) == 3 * 256 + 64 + GroupWire(cfg)
    ensures forall i :: 0 <= i < 8 ==> Limited(cfg, TRUST_BINDINGS[i])
  {
    hide GroupWire;
    assert Allowances(cfg, TRUST_BINDINGS, 1) == 256;
    assert Allowances(cfg, TRUST_BINDINGS, 2) == 2 * 256;
    assert Allowances(cfg, TRUST_BINDINGS, 3) == 2 * 256 + 64;
    assert Allowances(cfg, TRUST_BINDINGS, 4) == 3 * 256 + 64;
    assert Allowances(cfg, TRUST_BINDINGS, 5) == 3 * 256 + 64;
    assert Allowances(cfg, TRUST_BINDINGS, 6) == 3 * 256 + 64;
    assert Allowances(cfg, TRUST_BINDINGS, 7) == 3 * 256 + 64;
  }

  // A trust row whose cells fit takes a known amount besides its JSON.
  lemma TrustRowSize(cfg: Config, columns: seq<string>, raw: seq<Option<Bytes>>)
    requires columns == TRUST_ISSUER || columns == TRUST_BINDINGS
    requires |raw| == |columns| && CellsFit(cfg, columns, raw)
    ensures columns == TRUST_ISSUER ==> Total(raw) <= 2917 + JsonTotal(columns, raw)
    ensures columns == TRUST_BINDINGS ==> Total(raw) <= 832 + GroupWire(cfg) + JsonTotal(columns, raw)
  {
    IssuerAllowances(cfg);
    BindingAllowances(cfg);
    hide Limited, GroupWire, Allowances, CellsFit;
    RowWithinAllowances(cfg, columns, raw);
  }

  // Cells within their own limits never trip the budget of a trust row: the row is accepted
  // exactly if its cells fit and its JSON does.
  lemma RowBudgetNeverTrips(cfg: Config, columns: seq<string>, raw: seq<Option<Bytes>>)
    requires columns == TRUST_ISSUER || columns == TRUST_BINDINGS
    requires |raw| == |columns| && CellsFit(cfg, columns, raw) && JsonTotal(columns, raw) <= cfg.maxJsonBytes
    ensures Total(raw) <= RawRowBudget(cfg)
  {
    TrustRowSize(cfg, columns, raw);
  }

  // A DataRow message: a field count, and every value after its length.
  function DataRowBody(raw: seq<Option<Bytes>>): nat {
    2 + 4 * |raw| + Total(raw)
  }

  // Within the configured ranges the hard cap never binds, and the message that carries an
  // acceptable trust row, and that row's share of the result, are within their limits.
  lemma TrustRowsFit(cfg: Config, columns: seq<string>, raw: seq<Option<Bytes>>)
    requires Configured(cfg) && (columns == TRUST_ISSUER || columns == TRUST_BINDINGS)
    requires |raw| == |columns| && CellsFit(cfg, columns, raw) && JsonTotal(columns, raw) <= cfg.maxJsonBytes
    ensures BackendMessageBodyLimit(cfg) == RawRowBudget(cfg) + 8 * 4 + 65536 < MAX_BACKEND_MESSAGE_BODY
    ensures DataRowBody(raw) <= BackendMessageBodyLimit(cfg)
    ensures ResultByteLimit(cfg) < MAX_BACKEND_MESSAGE_BODY && Total(raw) <= ResultByteLimit(cfg)
  {
    TrustRowSize(cfg, columns, raw);
    GroupWireBound(cfg);
    hide CellsFit, JsonTotal, Total, GroupWire;
  }

  lemma GroupWireBound(cfg: Config)
    requires Configured(cfg)
    ensures GroupWire(cfg) <= 2 + 1000 * (2 * 4096 + 4)
  {
    Product(cfg.maxGroups, 2 * cfg.maxGroupBytes + 4, 1000, 2 * 4096 + 4);
  }
}
