// Claim names and effective schemas of trust bindings: ValidateClaimName and BuildSchema of
// trustpolicy/policy.go, providerSchema of trustpolicy/schema.go, and the merging of claims in
// compileBindings of internal/authpolicy/postgresql.go.
module ClaimPolicy {
  import opened Common
  import opened TrustSchema

  // ---- Claim names ----------------------------------------------------------------------------------

  datatype Rule = Rule(claims: set<string>, dynamicPrefix: string, allowAny: bool)

  const NO_RULE := Rule({}, "", false)

  function StandardClaims(): set<string> {
    {"aud", "azp", "email", "email_verified", "exp", "iat", "iss", "jti", "nbf", "nonce", "sub"}
  }

  function GithubClaims(): set<string> {
    {
     "actor", "actor_id", "base_ref", "check_run_id", "enterprise", "enterprise_id", "environment",
     "environment_node_id",
     "event_name", "head_ref", "issuer_scope", "job_workflow_ref", "job_workflow_sha", "ref", "ref_protected",
     "ref_type",
     "repository", "repository_id", "repository_owner", "repository_owner_id", "repository_visibility", "run_attempt",
     "run_id",
     "run_number", "runner_environment", "sha", "workflow", "workflow_ref", "workflow_sha"}
  }

  function BuildkiteClaims(): set<string> {
    {
     "agent_id", "build_branch", "build_commit", "build_id", "build_number", "build_source", "build_tag", "cluster_id",
     "cluster_name", "job_id", "organization_id", "organization_slug", "pipeline_id", "pipeline_slug", "queue_id",
     "queue_key",
     "runner_environment", "step_key", "https://aws.amazon.com/tags"}
  }

  function RuleOf(provider: string): Option<Rule> {
    if provider == "github" then Some(Rule(GithubClaims(), "repo_property_", false))
    else if provider == "buildkite" then Some(Rule(BuildkiteClaims(), "agent_tag:", false))
    else if provider == "oidc" then Some(Rule({}, "", true))
    else None
  }

  predicate NameAllowed(name: string, known: bool, rule: Rule) {
    var dynamic :=
      known && (rule.allowAny || (rule.dynamicPrefix != "" && HasPrefix(name, rule.dynamicPrefix)
                                  && ByteLength(name) > ByteLength(rule.dynamicPrefix)));
    name != "" && ByteLength(name) <= MAX_CLAIM_NAME_LENGTH
      && (name in StandardClaims() || name in rule.claims || dynamic)
  }

  predicate ValidateClaimName(name: string, provider: string) {
    match RuleOf(provider)
    case Some(rule) => NameAllowed(name, true, rule)
    case None => NameAllowed(name, false, NO_RULE)
  }

  // The keyword profile of a provider's object schema; pattern is the prefix and the number of
  // characters that may follow it.
  datatype ObjectSchema = ObjectSchema(
    properties: set<string>, pattern: Option<(string, int)>, nameLengths: Option<(int, int)>, additional: bool)

  function ProviderSchema(rule: Rule): ObjectSchema {
    ObjectSchema(
      StandardClaims() + rule.claims,
      if !rule.allowAny && rule.dynamicPrefix != "" then
        Some((rule.dynamicPrefix, MAX_CLAIM_NAME_LENGTH - ByteLength(rule.dynamicPrefix)))
      else None,
      if rule.allowAny then Some((1, MAX_CLAIM_NAME_LENGTH)) else None,
      rule.allowAny)
  }

  // Whether a key may appear with some fragment as its value. Lengths are counted in characters.
  predicate AdmitsKey(s: ObjectSchema, name: string) {
    && (s.nameLengths.Some? ==> s.nameLengths.value.0 <= |name| <= s.nameLengths.value.1)
    && (name in s.properties || s.additional
        || (s.pattern.Some? && HasPrefix(name, s.pattern.value.0)
          && 1 <= |name| - |s.pattern.value.0| <= s.pattern.value.1))
  }

  lemma {:induction false} BytesPerCharacter(s: string)
    ensures ByteLength(s) <= 4 * |s|
  {
    if |s| > 0 {
      BytesPerCharacter(s[1..]);
    }
  }

  lemma {:induction false} PrefixBytes(s: string, prefix: string)
    requires HasPrefix(s, prefix)
    ensures ByteLength(s) - ByteLength(prefix) == ByteLength(s[|prefix|..])
  {
    if |prefix| > 0 {
      assert s[1..][|prefix| - 1..] == s[|prefix|..] && HasPrefix(s[1..], prefix[1..]);
      PrefixBytes(s[1..], prefix[1..]);
    }
  }

  lemma StandardNames(name: string)
    requires name in StandardClaims()
    ensures 1 <= |name| <= 64
  {
  }

  lemma GithubNames(name: string)
    requires name in GithubClaims()
    ensures 1 <= |name| <= 64
  {
  }

  lemma BuildkiteNames(name: string)
    requires name in BuildkiteClaims()
    ensures 1 <= |name| <= 64
  {
  }

  lemma ShortName(name: string, rule: Rule)
    requires name in StandardClaims() || name in rule.claims
    requires rule == NO_RULE || RuleOf("github") == Some(rule) || RuleOf("buildkite") == Some(rule)
      || RuleOf("oidc") == Some(rule)
    ensures 1 <= |name| <= 64 && ByteLength(name) <= MAX_CLAIM_NAME_LENGTH
  {
    hide StandardClaims, GithubClaims, BuildkiteClaims;
    if name in StandardClaims() {
      StandardNames(name);
    } else if rule.claims == GithubClaims() {
      GithubNames(name);
    } else if rule.claims == BuildkiteClaims() {
      BuildkiteNames(name);
    }
    BytesPerCharacter(name);
  }

  lemma PrefixSizes()
    ensures ByteLength("repo_property_") == 14 && ByteLength("agent_tag:") == 10 && ByteLength("") == 0
  {
    ByteLengthBounds("repo_property_");
    ByteLengthBounds("agent_tag:");
  }

  // For a known provider a name is accepted exactly if its schema admits the key and the name is
  // not too long in bytes, which for ASCII names it never is.
  lemma NamesAgreeWithSchema(name: string, provider: string)
    requires RuleOf(provider).Some?
    ensures ValidateClaimName(name, provider) <==>
      AdmitsKey(ProviderSchema(RuleOf(provider).value), name) && ByteLength(name) <= MAX_CLAIM_NAME_LENGTH
    ensures Ascii(name) ==>
      (ValidateClaimName(name, provider) <==> AdmitsKey(ProviderSchema(RuleOf(provider).value), name))
  {
    hide StandardClaims, GithubClaims, BuildkiteClaims, NameAllowed, AdmitsKey, ProviderSchema, ByteLength;
    var rule := RuleOf(provider).value;
    if name in StandardClaims() || name in rule.claims {
      ShortName(name, rule);
    }
    PrefixSizes();
    ByteLengthBounds(name);
    RuleAgrees(name, rule);
  }

  lemma RuleAgrees(name: string, rule: Rule)
    requires name in StandardClaims() || name in rule.claims ==>
      1 <= |name| && ByteLength(name) <= MAX_CLAIM_NAME_LENGTH
    requires ByteLength(rule.dynamicPrefix) == |rule.dynamicPrefix|
    ensures NameAllowed(name, true, rule) <==>
      AdmitsKey(ProviderSchema(rule), name) && ByteLength(name) <= MAX_CLAIM_NAME_LENGTH
    ensures AdmitsKey(ProviderSchema(rule), name) ==> |name| <= MAX_CLAIM_NAME_LENGTH
  {
    hide StandardClaims;
    ByteLengthBounds(name);
    var prefix := rule.dynamicPrefix;
    if prefix != "" && HasPrefix(name, prefix) {
      PrefixBytes(name, prefix);
      ByteLengthBounds(name[|prefix|..]);
      NoBytes(name[|prefix|..]);
    }
    hide ByteLength;
  }

  lemma NoBytes(s: string)
    ensures ByteLength(s) == 0 <==> s == ""
  {
    ByteLengthBounds(s);
  }

  lemma StandardExactly(name: string)
    ensures name in StandardClaims() <==> name in [
      "iss", "sub", "aud", "exp", "nbf", "iat", "jti", "azp", "nonce", "email", "email_verified"]
  {
  }

  // A provider without a rule gets the standard claims, and there is no schema to say so.
  lemma UnknownProvider(name: string, provider: string)
    requires RuleOf(provider).None?
    ensures ValidateClaimName(name, provider) <==> name in StandardClaims()
  {
    hide StandardClaims;
    if name in StandardClaims() {
      ShortName(name, NO_RULE);
    }
  }

  // ---- Effective schemas ------------------------------------------------------------------------------

  // A raw fragment: its size in bytes, and what it decodes to if it is JSON.
  datatype Fragment = Fragment(size: nat, value: Option<Json>)

  function DecodeFragment(f: Fragment): Option<Json> {
    if f.size == 0 || f.size > MAX_FRAGMENT_BYTES || f.value.None? || !InspectSchema(f.value.value, 0) then
      None else f.value
  }

  datatype Property = Only(fragment: Json) | Both(required: Json, ordinary: Json)

  datatype Document = Document(names: seq<string>, properties: map<string, Property>)

  type Claims = map<string, Fragment>

  predicate NameAndFragmentSound(claims: Claims, name: string)
    requires name in claims
  {
    name != "" && ByteLength(name) <= MAX_CLAIM_NAME_LENGTH && DecodeFragment(claims[name]).Some?
  }

  predicate Sound(claims: Claims) {
    forall name :: name in claims ==> NameAndFragmentSound(claims, name)
  }

  function Decoded(claims: Claims, name: string): Json
    requires name in claims
  {
    match DecodeFragment(claims[name])
    case Some(value) => value
    case None => Null
  }

  // A claim that is also required has to satisfy both fragments.
  function EffectiveProperty(claims: Claims, required: Claims, done: set<string>, name: string): Property
    requires name in claims || name in required
  {
    if name in claims && !(name in required && name in done) then Only(Decoded(claims, name))
    else if name !in claims then Only(Decoded(required, name))
    else Both(Decoded(required, name), Decoded(claims, name))
  }

  // The properties once the required claims in done have been merged in.
  function Merged(claims: Claims, required: Claims, done: set<string>): map<string, Property> {
    map name | name in claims.Keys + (required.Keys * done) :: EffectiveProperty(claims, required, done, name)
  }

  // Byte order of names; on characters it is the same order.
  predicate Before(a: string, b: string) {
    if |b| == 0 then false else if |a| == 0 then true else a[0] < b[0] || (a[0] == b[0] && Before(a[1..], b[1..]))
  }

  ghost predicate Ascending(names: seq<string>) {
    forall i, j :: 0 <= i < j < |names| ==> Before(names[i], names[j])
  }

  // What BuildSchema returns says nothing of the order in which maps are visited.
  ghost predicate IsEffective(d: Document, claims: Claims, required: Claims) {
    && Sound(claims) && Sound(required)
    && d.properties == Merged(claims, required, required.Keys)
    && Ascending(d.names) && (forall name :: name in d.names <==> name in claims || name in required)
  }

  lemma {:induction false} BeforeTotal(a: string, b: string)
    ensures a == b || Before(a, b) || Before(b, a)
    ensures !(Before(a, b) && Before(b, a)) && !Before(a, a)
  {
    if |a| > 0 && |b| > 0 {
      BeforeTotal(a[1..], b[1..]);
      BeforeTotal(a[1..], a[1..]);
      assert a == [a[0]] + a[1..] && b == [b[0]] + b[1..];
    } else if |a| > 0 {
      BeforeTotal(a[1..], a[1..]);
    }
  }

  lemma {:induction false} BeforeTransitive(a: string, b: string, c: string)
    requires Before(a, b) && Before(b, c)
    ensures Before(a, c)
  {
    if |a| > 0 && a[0] == b[0] == c[0] {
      BeforeTransitive(a[1..], b[1..], c[1..]);
    }
  }

  // There is one way to list a set of names in order.
  lemma {:induction false} OneOrder(a: seq<string>, b: seq<string>)
    requires Ascending(a) && Ascending(b) && forall name :: name in a <==> name in b
    ensures a == b
  {
    if |a| == 0 {
      SomeName(b);
    } else {
      assert a[0] in a && b[0] in b;
      FirstIsLeast(a, b[0]);
      FirstIsLeast(b, a[0]);
      BeforeTotal(a[0], b[0]);
      assert a[0] == b[0];
      forall name ensures name in a[1..] <==> name in b[1..] {
        InRest(a, name);
        InRest(b, name);
      }
      OneOrder(a[1..], b[1..]);
      assert a == [a[0]] + a[1..] && b == [b[0]] + b[1..];
    }
  }

  lemma SomeName(names: seq<string>)
    ensures |names| > 0 ==> names[0] in names
  {
  }

  lemma FirstIsLeast(a: seq<string>, name: string)
    requires Ascending(a) && name in a
    ensures a[0] == name || Before(a[0], name)
  {
  }

  lemma InRest(a: seq<string>, name: string)
    requires Ascending(a) && |a| > 0
    ensures name in a[1..] <==> name in a && name != a[0]
  {
    BeforeTotal(a[0], a[0]);
    assert a == [a[0]] + a[1..];
    assert forall i :: 0 < i < |a| ==> Before(a[0], a[i]) && a[i] == a[1..][i - 1];
  }

  // So two runs of BuildSchema on the same claims return the same document.
  lemma OrderIndependent(claims: Claims, required: Claims, d1: Document, d2: Document)
    requires IsEffective(d1, claims, required) && IsEffective(d2, claims, required)
    ensures d1 == d2
  {
    OneOrder(d1.names, d2.names);
  }

  // ---- BuildSchema ------------------------------------------------------------------------------------

  ghost predicate NoDuplicates(names: seq<string>) {
    forall i, j :: 0 <= i < j < |names| ==> names[i] != names[j]
  }

  function Inserted(s: seq<string>, name: string): seq<string> {
    if |s| == 0 then [name] else if Before(name, s[0]) then [name] + s else [s[0]] + Inserted(s[1..], name)
  }

  lemma {:induction false} InsertedAscending(s: seq<string>, name: string)
    requires Ascending(s) && name !in s
    ensures Ascending(Inserted(s, name)) && forall n :: n in Inserted(s, name) <==> n == name || n in s
  {
    if |s| > 0 {
      BeforeTotal(name, s[0]);
      assert s == [s[0]] + s[1..];
      if Before(name, s[0]) {
        forall j | 0 <= j < |s| ensures Before(name, s[j]) {
          if j > 0 {
            BeforeTransitive(name, s[0], s[j]);
          }
        }
      } else {
        InsertedAscending(s[1..], name);
        forall n | n in Inserted(s[1..], name) ensures Before(s[0], n) {
          InRest(s, n);
          FirstIsLeast(s, if n == name then s[0] else n);
          assert s[0] in s;
        }
      }
    }
  }

  // sort.Slice.
  method Sort(names: seq<string>) returns (sorted: seq<string>)
    requires NoDuplicates(names)
    ensures Ascending(sorted) && forall n :: n in sorted <==> n in names
  {
    sorted := [];
    for i := 0 to |names|
      invariant Ascending(sorted) && forall n :: n in sorted <==> n in names[..i]
    {
      assert names[..i + 1] == names[..i] + [names[i]];
      InsertedAscending(sorted, names[i]);
      sorted := Inserted(sorted, names[i]);
    }
    assert names[..|names|] == names;
  }

  const MAX_SCHEMA_BYTES := 65536

  predicate WithinLimits(d: Document, size: Document -> nat) {
    size(d) <= MAX_SCHEMA_BYTES && |d.names| <= MAX_CLAIMS
  }

  // How far the building has come: the claims visited are sound, and so are the required ones in
  // done; the properties are merged as far as that, and named once each.
  ghost predicate Built(
    claims: Claims, required: Claims, done: set<string>, properties: map<string, Property>, names: seq<string>) {
    && done <= required.Keys && (forall n :: n in done ==> NameAndFragmentSound(required, n))
    && properties == Merged(claims, required, done)
    && NoDuplicates(names) && (forall n :: n in names <==> n in properties)
  }

  function Restricted(claims: Claims, names: set<string>): Claims {
    map n | n in claims && n in names :: claims[n]
  }

  lemma ClaimAdded(
    claims: Claims, visited: set<string>, properties: map<string, Property>, names: seq<string>, name: string)
    requires name in claims && name !in visited && Built(Restricted(claims, visited), map[], {}, properties, names)
    ensures Built(Restricted(claims, visited + {name}), map[], {}, properties[name := Only(Decoded(claims, name))],
      names + [name])
  {
    hide DecodeFragment, NameAndFragmentSound;
    var a, b := Restricted(claims, visited), Restricted(claims, visited + {name});
    assert forall n :: n in a ==> n in b && b[n] == a[n];
    var after := properties[name := Only(Decoded(claims, name))];
    assert after == Merged(b, map[], {});
    assert name !in properties && forall n :: n in names + [name] <==> n in names || n == name;
  }

  lemma RequiredAdded(
    claims: Claims, required: Claims, done: set<string>, properties: map<string, Property>, names: seq<string>,
    name: string)
    requires Built(claims, required, done, properties, names) && name in required && name !in done
      && NameAndFragmentSound(required, name)
    ensures name in properties ==> properties[name].Only?
    ensures var value := Decoded(required, name);
      (if name in properties then
         Built(claims, required, done + {name}, properties[name := Both(value, properties[name].fragment)], names)
       else Built(claims, required, done + {name}, properties[name := Only(value)], names + [name]))
  {
    hide DecodeFragment, NameAndFragmentSound;
  }

  lemma BuiltSame(claims: Claims, required: Claims, properties: map<string, Property>, names: seq<string>)
    requires Built(claims, map[], {}, properties, names)
    ensures Built(claims, required, {}, properties, names)
  {
    assert Merged(claims, map[], {}) == Merged(claims, required, {});
  }

  // The first loop of BuildSchema: the claims, in any order.
  method ReadClaims(claims: Claims) returns (ok: bool, properties: map<string, Property>, names: seq<string>)
    ensures ok ==> Sound(claims) && Built(claims, map[], {}, properties, names)
    ensures !ok ==> !Sound(claims)
  {
    hide ByteLength, Built, DecodeFragment;
    properties, names := map[], [];
    var rest := claims.Keys;
    ghost var visited := {};
    NothingBuilt(claims);
    while rest != {}
      invariant visited == claims.Keys - rest && rest <= claims.Keys && SoundIn(claims, visited)
      invariant Built(Restricted(claims, visited), map[], {}, properties, names)
      decreases |rest|
    {
      var name :| name in rest;
      rest := rest - {name};
      if name == "" || ByteLength(name) > MAX_CLAIM_NAME_LENGTH {
        return false, properties, names;
      }
      var value := DecodeFragment(claims[name]);
      if value.None? {
        return false, properties, names;
      }
      ClaimAdded(claims, visited, properties, names, name);
      visited := visited + {name};
      properties := properties[name := Only(value.value)];
      names := names + [name];
    }
    assert Restricted(claims, visited) == claims;
    ok := true;
  }

  // The second: the required claims, in any order, merged with the others.
  method MergeRequired(claims: Claims, required: Claims, read: map<string, Property>, readNames: seq<string>)
    returns (ok: bool, properties: map<string, Property>, names: seq<string>)
    requires Built(claims, required, {}, read, readNames)
    ensures ok ==> Sound(required) && Built(claims, required, required.Keys, properties, names)
    ensures !ok ==> !Sound(required)
  {
    hide ByteLength, Built, DecodeFragment;
    properties, names := read, readNames;
    var rest := required.Keys;
    ghost var done := {};
    while rest != {}
      invariant done == required.Keys - rest && rest <= required.Keys && SoundIn(required, done)
      invariant Built(claims, required, done, properties, names)
      decreases |rest|
    {
      var name :| name in rest;
      rest := rest - {name};
      if name == "" || ByteLength(name) > MAX_CLAIM_NAME_LENGTH {
        return false, properties, names;
      }
      var value := DecodeFragment(required[name]);
      if value.None? {
        return false, properties, names;
      }
      RequiredAdded(claims, required, done, properties, names, name);
      done := done + {name};
      if name in properties {
        properties := properties[name := Both(value.value, properties[name].fragment)];
      } else {
        properties := properties[name := Only(value.value)];
        names := names + [name];
      }
    }
    assert done == required.Keys;
    ok := true;
  }

  // A fragment as the published schema asks for it: a JSON value of at most sixteen kibibytes that
  // the outermost layer of the generated schema accepts, with no string too long in bytes.
  predicate SafeFragment(f: Fragment) {
    && 1 <= f.size <= 16384 && f.value.Some?
    && Satisfies(Definitions(), SafeSchemaValue(0), f.value.value) && ShortStrings(f.value.value)
  }

  ghost predicate SafeClaims(claims: Claims) {
    forall name :: name in claims ==> name != "" && ByteLength(name) <= 256 && SafeFragment(claims[name])
  }

  lemma SoundIsSafe(claims: Claims)
    ensures Sound(claims) <==> SafeClaims(claims)
  {
    hide Satisfies, SafeSchemaValue, Definitions, InspectSchema, ShortStrings, ByteLength;
    forall name | name in claims ensures DecodeFragment(claims[name]).Some? <==> SafeFragment(claims[name]) {
      if claims[name].value.Some? {
        CheckMatchesSchema(claims[name].value.value, 0);
      }
    }
  }

  // The named claims in byte order, each with its own fragment, with its required one, or with both.
  ghost predicate Composed(d: Document, claims: Claims, required: Claims) {
    && Ascending(d.names) && (forall name :: name in d.names <==> name in claims || name in required)
    && (forall name :: name in d.properties <==> name in claims || name in required)
    && forall name :: name in d.properties ==> Composes(d.properties[name], claims, required, name)
  }

  predicate Composes(p: Property, claims: Claims, required: Claims, name: string) {
    match p
    case Only(fragment) =>
      || (name in claims && name !in required && claims[name].value == Some(fragment))
      || (name !in claims && name in required && required[name].value == Some(fragment))
    case Both(needed, ordinary) =>
      name in claims && name in required && claims[name].value == Some(ordinary) && required[name].value == Some(needed)
  }

  lemma PropertyComposes(p: Property, claims: Claims, required: Claims, name: string)
    requires name in claims || name in required
    requires name in claims ==> claims[name].value == Some(Decoded(claims, name))
    requires name in required ==> required[name].value == Some(Decoded(required, name))
    ensures Composes(p, claims, required, name) <==> p == EffectiveProperty(claims, required, required.Keys, name)
  {
    hide Decoded;
  }

  lemma MergedComposes(properties: map<string, Property>, claims: Claims, required: Claims)
    requires forall name :: name in claims ==> claims[name].value == Some(Decoded(claims, name))
    requires forall name :: name in required ==> required[name].value == Some(Decoded(required, name))
    ensures properties == Merged(claims, required, required.Keys) <==>
      && (forall name :: name in properties <==> name in claims || name in required)
      && forall name :: name in properties ==> Composes(properties[name], claims, required, name)
  {
    forall name | name in claims || name in required
      ensures name in properties ==>
        (Composes(properties[name], claims, required, name) <==>
           properties[name] == EffectiveProperty(claims, required, required.Keys, name))
    {
      if name in properties {
        PropertyComposes(properties[name], claims, required, name);
      }
    }
    hide Composes, EffectiveProperty, Decoded;
  }

  lemma EffectiveIsComposed(d: Document, claims: Claims, required: Claims)
    ensures IsEffective(d, claims, required) <==>
      SafeClaims(claims) && SafeClaims(required) && Composed(d, claims, required)
  {
    SoundIsSafe(claims);
    SoundIsSafe(required);
    hide SafeClaims, Ascending, Composes, Merged, Decoded;
    if Sound(claims) && Sound(required) {
      DecodedValue(claims);
      DecodedValue(required);
      MergedComposes(d.properties, claims, required);
    }
    hide Sound;
  }

  lemma DecodedValue(claims: Claims)
    requires Sound(claims)
    ensures forall name :: name in claims ==> claims[name].value == Some(Decoded(claims, name))
  {
    hide ByteLength, InspectSchema;
    forall name | name in claims ensures claims[name].value == Some(Decoded(claims, name)) {
      assert NameAndFragmentSound(claims, name);
    }
  }

  // size is the length of the canonical text of a document. BuildSchema succeeds exactly if all
  // fragments are safe and there are no more than sixty-four claims and sixty-four kibibytes of text.
  method BuildSchema(claims: Claims, required: Claims, size: Document -> nat) returns (r: Option<Document>)
    ensures r.Some? ==> IsEffective(r.value, claims, required) && WithinLimits(r.value, size)
    ensures r.None? ==> forall d :: !(IsEffective(d, claims, required) && WithinLimits(d, size))
    ensures r.Some? ==>
      && SafeClaims(claims) && SafeClaims(required) && Composed(r.value, claims, required)
      && |r.value.names| <= 64 && size(r.value) <= 65536
    ensures r.None? && SafeClaims(claims) && SafeClaims(required) ==>
      forall d :: Composed(d, claims, required) ==> |d.names| > 64 || size(d) > 65536
  {
    forall d ensures
      IsEffective(d, claims, required) <==> SafeClaims(claims) && SafeClaims(required) && Composed(d, claims, required)
    {
      EffectiveIsComposed(d, claims, required);
    }
    hide SafeClaims, Composed;
    hide Sound, Built, Merged, Before, Ascending;
    var ok, properties, names := ReadClaims(claims);
    if !ok {
      return None;
    }
    BuiltSame(claims, required, properties, names);
    ok, properties, names := MergeRequired(claims, required, properties, names);
    if !ok {
      return None;
    }
    var sorted := SortBuilt(claims, required, properties, names);
    var d := Document(sorted, properties);
    if size(d) > MAX_SCHEMA_BYTES || |sorted| > MAX_CLAIMS {
      forall e | IsEffective(e, claims, required) ensures e == d {
        OrderIndependent(claims, required, e, d);
      }
      return None;
    }
    return Some(d);
  }

  method SortBuilt(
    claims: Claims, required: Claims, properties: map<string, Property>, names: seq<string>)
    returns (sorted: seq<string>)
    requires Sound(claims) && Sound(required) && Built(claims, required, required.Keys, properties, names)
    ensures IsEffective(Document(sorted, properties), claims, required)
  {
    hide Sound, DecodeFragment, Before, EffectiveProperty;
    sorted := Sort(names);
  }

  lemma NothingBuilt(claims: Claims)
    ensures Built(Restricted(claims, {}), map[], {}, map[], [])
  {
  }

  predicate SoundIn(claims: Claims, names: set<string>)
    requires names <= claims.Keys
  {
    forall n :: n in names ==> NameAndFragmentSound(claims, n)
  }

  // ---- What an effective schema asks -------------------------------------------------------------------

  // Whether a value satisfies a fragment, whatever the fragment says; allOf is conjunction
  // (section 10.2.1.1 of JSON Schema Core 2020-12).
  type Validity = (Json, Json) -> bool

  predicate SatisfiesProperty(valid: Validity, p: Property, v: Json) {
    match p
    case Only(fragment) => valid(fragment, v)
    case Both(required, ordinary) => valid(required, v) && valid(ordinary, v)
  }

  predicate SatisfiesDocument(valid: Validity, d: Document, token: map<string, Json>) {
    && (forall i :: 0 <= i < |d.names| ==> d.names[i] in token)
    && (forall name :: name in token && name in d.properties ==>
      SatisfiesProperty(valid, d.properties[name], token[name]))
  }

  predicate Meets(valid: Validity, claims: Claims, token: map<string, Json>) {
    forall name :: name in claims ==> name in token && valid(Decoded(claims, name), token[name])
  }

  // A token satisfies the effective schema exactly if it has every named claim and each satisfies
  // its ordinary and its required fragment.
  lemma EffectiveMeaning(valid: Validity, d: Document, claims: Claims, required: Claims, token: map<string, Json>)
    requires IsEffective(d, claims, required)
    ensures SatisfiesDocument(valid, d, token) <==> Meets(valid, claims, token) && Meets(valid, required, token)
  {
    hide DecodeFragment, ByteLength, Before;
    if SatisfiesDocument(valid, d, token) {
      forall name | name in claims || name in required
        ensures name in token
        ensures name in claims ==> valid(Decoded(claims, name), token[name])
        ensures name in required ==> valid(Decoded(required, name), token[name])
      {
        assert name in d.names;
        assert SatisfiesProperty(valid, d.properties[name], token[name]);
      }
    }
    if Meets(valid, claims, token) && Meets(valid, required, token) {
      assert forall i :: 0 <= i < |d.names| ==> d.names[i] in d.names;
    }
  }

  // The claims while some of the binding's are still to come.
  function Overlaid(policy: Claims, binding: Claims, rest: set<string>): Claims {
    policy + (binding - rest)
  }

  lemma MergeOne(policy: Claims, binding: Claims, rest: set<string>, name: string)
    requires name in rest && name in binding
    ensures Overlaid(policy, binding, rest)[name := binding[name]] == Overlaid(policy, binding, rest - {name})
  {
  }

  lemma MergeEnds(policy: Claims, binding: Claims)
    ensures Overlaid(policy, binding, binding.Keys) == policy && Overlaid(policy, binding, {}) == policy + binding
  {
    assert binding - {} == binding;
  }

  // compileBindings: the claims of the binding replace those of the policy.
  method MergeClaims(policy: Claims, binding: Claims) returns (claims: Claims)
    ensures claims == policy + binding
  {
    MergeEnds(policy, binding);
    hide Overlaid;
    claims := policy;
    var rest := binding.Keys;
    while rest != {}
      invariant rest <= binding.Keys && claims == Overlaid(policy, binding, rest)
      decreases |rest|
    {
      var name :| name in rest;
      MergeOne(policy, binding, rest, name);
      rest := rest - {name};
      claims := claims[name := binding[name]];
    }
  }

  // So no claims of a binding can admit a token that a required fragment rejects, and what the
  // binding does not name keeps its policy fragment.
  lemma RequiredSurvives(
    valid: Validity, d: Document, policy: Claims, binding: Claims, required: Claims, token: map<string, Json>)
    requires IsEffective(d, policy + binding, required) && SatisfiesDocument(valid, d, token)
    ensures Meets(valid, required, token) && Meets(valid, binding, token) && Meets(valid, policy - binding.Keys, token)
  {
    EffectiveMeaning(valid, d, policy + binding, required, token);
    hide DecodeFragment, ByteLength, Before, IsEffective, SatisfiesDocument;
    forall name | name in binding ensures name in token && valid(Decoded(binding, name), token[name]) {
      assert (policy + binding)[name] == binding[name];
    }
    forall name | name in policy - binding.Keys
      ensures name in token && valid(Decoded(policy - binding.Keys, name), token[name]) {
      assert (policy + binding)[name] == policy[name];
    }
  }
}
