// The runtime safety check of trust policies in trustpolicy/policy.go, the JSON Schema that
// trustpolicy/schema.go generates to describe it, and the effective schema of a binding.
module TrustSchema {
  import opened Common

  // Characters are Unicode scalar values; sizes in the source are counted in UTF-8 bytes.
  datatype Json =
    | Null
    | Boolean(b: bool)
    | Number(text: string)
    | Text(s: string)
    | Array(items: seq<Json>)
    | Object(members: seq<Member>)

  datatype Member = Member(name: string, value: Json)

  const MAX_CLAIM_NAME_LENGTH := 256
  const MAX_CLAIMS := 64
  const MAX_FRAGMENT_BYTES := 16384
  const MAX_DEPTH := 16
  const MAX_MEMBERS := 64
  const MAX_ITEMS := 32
  const MAX_STRING_LENGTH := 4096

  function CharBytes(c: char): nat {
    if c < 0x80 as char then 1 else if c < 0x800 as char then 2 else if c as int < 0x1_0000 then 3 else 4
  }

  function ByteLength(s: string): nat {
    if |s| == 0 then 0 else CharBytes(s[0]) + ByteLength(s[1..])
  }

  predicate Ascii(s: string) {
    forall i :: 0 <= i < |s| ==> s[i] < 0x80 as char
  }

  lemma {:induction false} ByteLengthBounds(s: string)
    ensures |s| <= ByteLength(s) && (Ascii(s) ==> ByteLength(s) == |s|)
  {
    if |s| > 0 {
      ByteLengthBounds(s[1..]);
    }
  }

  predicate HasPrefix(s: string, prefix: string) {
    prefix <= s
  }

  predicate Prohibited(name: string) {
    || name == "$anchor" || name == "$dynamicAnchor" || name == "$dynamicRef" || name == "$id"
      || name == "$recursiveRef"
    || name == "$ref" || name == "$schema" || name == "$vocabulary"
  }

  // What a fragment may not say, and how large it may be.
  lemma SafetyLimits(name: string)
    ensures Prohibited(name) <==> name in [
      "$schema", "$id", "$ref", "$anchor", "$dynamicRef", "$dynamicAnchor", "$recursiveRef", "$vocabulary"]
    ensures MAX_DEPTH == 16 && MAX_MEMBERS == 64 && MAX_ITEMS == 32 && MAX_STRING_LENGTH == 4096
  {
  }

  // ---- The runtime check --------------------------------------------------------------------------

  predicate InspectSchema(v: Json, depth: nat)
    decreases v
  {
    && depth <= MAX_DEPTH
    && match v
       case Object(members) =>
         && |members| <= MAX_MEMBERS
         && forall i :: 0 <= i < |members| ==>
              !Prohibited(members[i].name) && !HasPrefix(members[i].name, "content")
                && InspectSchema(members[i].value, depth + 1)
       case Array(items) => |items| <= MAX_ITEMS && forall i :: 0 <= i < |items| ==> InspectSchema(items[i], depth + 1)
       case Text(s) => ByteLength(s) <= MAX_STRING_LENGTH
       case _ => true
  }

  // ---- The generated schema -----------------------------------------------------------------------

  datatype Kind = NullKind | BooleanKind | NumberKind | StringKind | ArrayKind | ObjectKind

  // The keywords safeSchemaValue uses; items and additionalProperties refer to another layer.
  datatype Variant = Typed(
    kind: Kind, maxLength: Option<nat>, maxItems: Option<nat>, items: Option<nat>,
    maxProperties: Option<nat>, safeNames: bool, additional: Option<nat>)

  datatype Schema = OneOf(variants: seq<Variant>)

  function Plain(kind: Kind): Variant {
    Typed(kind, None, None, None, None, false, None)
  }

  function SafeSchemaValue(depth: nat): Schema {
    var last := depth == MAX_DEPTH;
    var next := if last then None else Some(depth + 1);
    OneOf([
            Plain(NullKind), Plain(BooleanKind), Plain(NumberKind),
            Plain(StringKind).(maxLength := Some(MAX_STRING_LENGTH)),
            Plain(ArrayKind).(maxItems := Some(if last then 0 else MAX_ITEMS), items := next),
            Plain(ObjectKind).(maxProperties := Some(if last then 0 else MAX_MEMBERS), safeNames := true,
              additional := next)])
  }

  // schemaDefinitions, the layers of it.
  method SchemaDefinitions() returns (definitions: map<nat, Schema>)
    ensures definitions == Definitions()
  {
    definitions := map[];
    for depth := 0 to MAX_DEPTH + 1
      invariant definitions == map d: nat | d < depth :: SafeSchemaValue(d)
    {
      definitions := definitions[depth := SafeSchemaValue(depth)];
    }
  }

  function Definitions(): map<nat, Schema> {
    map d: nat | d <= MAX_DEPTH :: SafeSchemaValue(d)
  }

  function KindOf(v: Json): Kind {
    match v
    case Null => NullKind
    case Boolean(_) => BooleanKind
    case Number(_) => NumberKind
    case Text(_) => StringKind
    case Array(_) => ArrayKind
    case Object(_) => ObjectKind
  }

  // Section 6 and 10.3 of JSON Schema Validation and Core 2020-12, for the keywords in use. String
  // lengths are counted in characters. A reference to a missing definition accepts nothing.
  predicate Satisfies(defs: map<nat, Schema>, s: Schema, v: Json)
    decreases v, 1
  {
    exists i :: 0 <= i < |s.variants| && SatisfiesVariant(defs, s.variants[i], v)
                && forall j :: 0 <= j < |s.variants| && j != i ==> !SatisfiesVariant(defs, s.variants[j], v)
  }

  predicate SatisfiesVariant(defs: map<nat, Schema>, t: Variant, v: Json)
    decreases v, 0
  {
    && KindOf(v) == t.kind
    && match v
       case Text(s) => t.maxLength.Some? ==> |s| <= t.maxLength.value
       case Array(list) =>
         && (t.maxItems.Some? ==> |list| <= t.maxItems.value)
         && (t.items.Some? ==> forall i :: 0 <= i < |list| ==>
           t.items.value in defs && Satisfies(defs, defs[t.items.value], list[i]))
       case Object(members) =>
         && (t.maxProperties.Some? ==> |members| <= t.maxProperties.value)
         && (t.safeNames ==> forall i :: 0 <= i < |members| ==>
               !(Prohibited(members[i].name) || HasPrefix(members[i].name, "content")))
         && (t.additional.Some? ==>
               forall i :: 0 <= i < |members| ==>
                 t.additional.value in defs && Satisfies(defs, defs[t.additional.value], members[i].value))
       case _ => true
  }

  // No string inside is longer in bytes than the limit.
  predicate ShortStrings(v: Json) {
    match v
    case Text(s) => ByteLength(s) <= MAX_STRING_LENGTH
    case Array(items) => forall i :: 0 <= i < |items| ==> ShortStrings(items[i])
    case Object(members) => forall i :: 0 <= i < |members| ==> ShortStrings(members[i].value)
    case _ => true
  }

  predicate AsciiStrings(v: Json) {
    match v
    case Text(s) => Ascii(s)
    case Array(items) => forall i :: 0 <= i < |items| ==> AsciiStrings(items[i])
    case Object(members) => forall i :: 0 <= i < |members| ==> AsciiStrings(members[i].value)
    case _ => true
  }

  // What one layer asks of a value.
  predicate LayerAccepts(depth: nat, v: Json) {
    match v
    case Text(s) => |s| <= MAX_STRING_LENGTH
    case Array(items) =>
      if depth >= MAX_DEPTH then |items| == 0
      else |items| <= MAX_ITEMS && forall i :: 0 <= i < |items| ==>
        Satisfies(Definitions(), SafeSchemaValue(depth + 1), items[i])
    case Object(members) =>
      if depth >= MAX_DEPTH then |members| == 0
      else
        && |members| <= MAX_MEMBERS
        && forall i :: 0 <= i < |members| ==>
             !Prohibited(members[i].name) && !HasPrefix(members[i].name, "content")
             && Satisfies(Definitions(), SafeSchemaValue(depth + 1), members[i].value)
    case _ => true
  }

  // Types tell the variants apart, so exactly the one of the value's type decides.
  lemma OneVariant(defs: map<nat, Schema>, s: Schema, k: nat, v: Json)
    requires k < |s.variants| && forall j :: 0 <= j < |s.variants| && j != k ==> s.variants[j].kind != KindOf(v)
    ensures Satisfies(defs, s, v) <==> SatisfiesVariant(defs, s.variants[k], v)
  {
    forall j | 0 <= j < |s.variants| && j != k ensures !SatisfiesVariant(defs, s.variants[j], v) {
      WrongKind(defs, s.variants[j], v);
    }
    hide SatisfiesVariant;
  }

  lemma WrongKind(defs: map<nat, Schema>, t: Variant, v: Json)
    requires t.kind != KindOf(v)
    ensures !SatisfiesVariant(defs, t, v)
  {
  }

  lemma ArrayVariant(depth: nat, v: Json)
    requires depth <= MAX_DEPTH && v.Array?
    ensures SatisfiesVariant(Definitions(), SafeSchemaValue(depth).variants[4], v) <==> LayerAccepts(depth, v)
  {
    if depth < MAX_DEPTH {
      assert Definitions()[depth + 1] == SafeSchemaValue(depth + 1);
    }
  }

  lemma ObjectVariant(depth: nat, v: Json)
    requires depth <= MAX_DEPTH && v.Object?
    ensures SatisfiesVariant(Definitions(), SafeSchemaValue(depth).variants[5], v) <==> LayerAccepts(depth, v)
  {
    hide Prohibited, HasPrefix;
    if depth < MAX_DEPTH {
      assert Definitions()[depth + 1] == SafeSchemaValue(depth + 1);
    }
  }

  lemma LayerMeaning(depth: nat, v: Json)
    requires depth <= MAX_DEPTH
    ensures Satisfies(Definitions(), SafeSchemaValue(depth), v) <==> LayerAccepts(depth, v)
  {
    var variants, k := SafeSchemaValue(depth).variants, Position(KindOf(v));
    assert forall j :: 0 <= j < 6 ==> Position(variants[j].kind) == j;
    OneVariant(Definitions(), SafeSchemaValue(depth), k, v);
    if v.Array? {
      ArrayVariant(depth, v);
    } else if v.Object? {
      ObjectVariant(depth, v);
    }
    hide Definitions;
  }

  function Position(k: Kind): nat {
    match k
    case NullKind => 0
    case BooleanKind => 1
    case NumberKind => 2
    case StringKind => 3
    case ArrayKind => 4
    case ObjectKind => 5
  }

  // The check accepts a value at a depth exactly if that layer of the schema does and no string
  // in it is too long in bytes.
  lemma {:induction false} CheckMatchesSchema(v: Json, depth: nat)
    requires depth <= MAX_DEPTH
    ensures InspectSchema(v, depth) <==> Satisfies(Definitions(), SafeSchemaValue(depth), v) && ShortStrings(v)
    decreases v
  {
    LayerMeaning(depth, v);
    hide Satisfies, SafeSchemaValue, Definitions, Prohibited, HasPrefix;
    match v
    case Text(s) => ByteLengthBounds(s);
    case Array(items) =>
      if depth == MAX_DEPTH {
        assert |items| > 0 ==> !InspectSchema(items[0], depth + 1);
      } else {
        forall i | 0 <= i < |items|
          ensures InspectSchema(items[i], depth + 1) <==>
            Satisfies(Definitions(), SafeSchemaValue(depth + 1), items[i]) && ShortStrings(items[i])
        {
          CheckMatchesSchema(items[i], depth + 1);
        }
      }
    case Object(members) =>
      if depth == MAX_DEPTH {
        assert |members| > 0 ==> !InspectSchema(members[0].value, depth + 1);
      } else {
        forall i | 0 <= i < |members|
          ensures InspectSchema(members[i].value, depth + 1) <==>
            Satisfies(Definitions(), SafeSchemaValue(depth + 1), members[i].value) && ShortStrings(members[i].value)
        {
          CheckMatchesSchema(members[i].value, depth + 1);
        }
      }
    case _ =>
  }

  // With ASCII strings the two agree; and whatever the check accepts the schema accepts.
  lemma CheckAgreesWithSchema(v: Json)
    ensures InspectSchema(v, 0) ==> Satisfies(Definitions(), SafeSchemaValue(0), v)
    ensures AsciiStrings(v) ==> (InspectSchema(v, 0) <==> Satisfies(Definitions(), SafeSchemaValue(0), v))
  {
    CheckMatchesSchema(v, 0);
    if AsciiStrings(v) && Satisfies(Definitions(), SafeSchemaValue(0), v) {
      AsciiShort(v, 0);
    }
  }

  lemma {:induction false} AsciiShort(v: Json, depth: nat)
    requires depth <= MAX_DEPTH && AsciiStrings(v) && Satisfies(Definitions(), SafeSchemaValue(depth), v)
    ensures ShortStrings(v)
    decreases v
  {
    LayerMeaning(depth, v);
    hide Satisfies, SafeSchemaValue, Definitions, Prohibited, HasPrefix;
    match v
    case Text(s) => ByteLengthBounds(s);
    case Array(items) =>
      forall i | 0 <= i < |items| ensures ShortStrings(items[i]) {
        AsciiShort(items[i], depth + 1);
      }
    case Object(members) =>
      forall i | 0 <= i < |members| ensures ShortStrings(members[i].value) {
        AsciiShort(members[i].value, depth + 1);
      }
    case _ =>
  }

  // Beyond ASCII they do not agree: a string may fit in characters but not in bytes.
  lemma BytesAreNotCharacters()
    ensures var v := Text(seq(2049, _ => '\U{E9}'));
      Satisfies(Definitions(), SafeSchemaValue(0), v) && !InspectSchema(v, 0)
  {
    var s := seq(2049, _ => '\U{E9}');
    LayerMeaning(0, Text(s));
    Accented(s);
  }

  lemma {:induction false} Accented(s: string)
    requires forall i :: 0 <= i < |s| ==> s[i] == '\U{E9}'
    ensures ByteLength(s) == 2 * |s|
  {
    if |s| > 0 {
      Accented(s[1..]);
    }
  }
}
