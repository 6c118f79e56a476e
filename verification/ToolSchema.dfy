/**
 Two validators of one schema language: the tool gateway's, which raises on the first
 fault, and the feedback gate's, which lists every fault and knows more keywords.
 */
module ToolSchema {
  import opened Wrappers
  import opened Json

  /** `re.search`, which only the feedback gate uses. */
  type Search = (string, string) -> bool

  const TYPE_NAMES: set<string> :=
    {"object", "array", "string", "integer", "number", "boolean", "null"}

  const SHARED_KEYWORDS: set<string> :=
    {"type", "enum", "required", "properties", "additionalProperties", "items"}

  const EXTRA_KEYWORDS: set<string> :=
    {"$schema", "$id", "title", "description", "const", "pattern", "minLength", "maxLength"}

  function Lookup(fields: seq<Field>, name: string): (r: Option<Json>)
    ensures r.Some? ==> exists i | 0 <= i < |fields| :: fields[i] == Field(name, r.value)
    ensures r.None? ==> forall i | 0 <= i < |fields| :: fields[i].name != name
  {
    if fields == [] then None
    else if fields[0].name == name then
      assert fields[0] == Field(name, fields[0].value);
      Some(fields[0].value)
    else
      var r := Lookup(fields[1..], name);
      assert forall i | 0 <= i < |fields[1..]| :: fields[1..][i] == fields[i + 1];
      r
  }

  predicate IsInteger(token: string) {
    '.' !in token && 'e' !in token && 'E' !in token
  }

  predicate HasType(value: Json, name: string) {
    match name
    case "object" => value.Obj?
    case "array" => value.Arr?
    case "string" => value.Str?
    case "integer" => value.Num? && IsInteger(value.token)
    case "number" => value.Num?
    case "boolean" => value.Bool?
    case "null" => value.Null?
    case _ => false
  }

  /** The type names a `type` keyword lists, or none when they cannot be read. */
  function TypeNames(t: Json): Option<seq<string>> {
    match t
    case Str(s) => Some([s])
    case Arr(items) =>
      if forall i | 0 <= i < |items| :: items[i].Str?
      then Some(seq(|items|, i requires 0 <= i < |items| && items[i].Str? => items[i].s))
      else None
    case Obj(fields) => Some(seq(|fields|, i requires 0 <= i < |fields| => fields[i].name))
    case _ => None
  }

  predicate KnownTypes(names: seq<string>) {
    forall i | 0 <= i < |names| :: names[i] in TYPE_NAMES
  }

  predicate SomeType(value: Json, names: seq<string>) {
    exists i | 0 <= i < |names| :: HasType(value, names[i])
  }

  function FieldsOf(v: Option<Json>): seq<Field> {
    if v.Some? && v.value.Obj? then v.value.fields else []
  }

  /** A list or an object has no hash, so asking whether a value has such a key raises. */
  predicate AreKeys(items: seq<Json>) {
    forall i | 0 <= i < |items| :: !items[i].Arr? && !items[i].Obj?
  }

  function Letters(s: string): seq<Json> {
    seq(|s|, i requires 0 <= i < |s| => Str([s[i]]))
  }

  /** What `required` goes through, item by item, or none when it cannot be gone through. */
  function RequiredKeys(required: Option<Json>): Option<seq<Json>> {
    match required
    case None => Some([])
    case Some(Arr(items)) => if AreKeys(items) then Some(items) else None
    case Some(Str(s)) => Some(Letters(s))
    case Some(Obj(fields)) => Some(seq(|fields|, i requires 0 <= i < |fields| => Str(fields[i].name)))
    case Some(_) => None
  }

  predicate HasKey(fields: seq<Field>, key: Json) {
    key.Str? && Lookup(fields, key.s).Some?
  }

  /** The required keys a value does not have; what is no string is never one it has. */
  function Missing(required: seq<Json>, fields: seq<Field>): seq<Json> {
    if required == [] then []
    else (if HasKey(fields, required[0]) then [] else [required[0]]) + Missing(required[1..], fields)
  }

  /** The names a value has that the schema does not declare. */
  function Undeclared(fields: seq<Field>, properties: seq<Field>): seq<string> {
    if fields == [] then []
    else (if Lookup(properties, fields[0].name).None? then [fields[0].name] else [])
         + Undeclared(fields[1..], properties)
  }

  // --------------------------------------------------- the gateway's validator

  datatype Verdict = Valid | Mismatch | BadSchema

  function First(a: Verdict, b: Verdict): Verdict {
    if a == Valid then b else a
  }

  function CheckType(value: Json, schema: seq<Field>): Verdict {
    match Lookup(schema, "type")
    case None => Valid
    case Some(Null) => Valid
    case Some(t) =>
      match TypeNames(t)
      case None => BadSchema
      case Some(names) =>
        if names == [] || !KnownTypes(names) then BadSchema
        else if SomeType(value, names) then Valid else Mismatch
  }

  function CheckEnum(value: Json, schema: seq<Field>): Verdict {
    match Lookup(schema, "enum")
    case None => Valid
    case Some(Arr(items)) => if value in items then Valid else Mismatch
    case Some(_) => BadSchema
  }

  function CheckNames(fields: seq<Field>, schema: seq<Field>): Verdict {
    var properties, required := Lookup(schema, "properties"), Lookup(schema, "required");
    if (properties.Some? && !properties.value.Obj?) || (required.Some? && !required.value.Arr?) then BadSchema
    else if RequiredKeys(required).None? then BadSchema
    else if Missing(RequiredKeys(required).value, fields) != [] then Mismatch
    else if Lookup(schema, "additionalProperties") == Some(Bool(false))
            && Undeclared(fields, FieldsOf(properties)) != [] then Mismatch
    else Valid
  }

  function ValidateSchema(value: Json, schema: seq<Field>): Verdict
    decreases value, 1
  {
    First(CheckType(value, schema),
    First(CheckEnum(value, schema),
          match value
          case Obj(fields) =>
            First(CheckNames(fields, schema),
                  ValidateFields(fields, FieldsOf(Lookup(schema, "properties"))))
          case Arr(items) =>
            (match Lookup(schema, "items")
             case Some(Obj(child)) => ValidateItems(items, child)
             case _ => Valid)
          case _ => Valid))
  }

  function ValidateFields(fields: seq<Field>, properties: seq<Field>): Verdict
    decreases fields, 0
  {
    if fields == [] then Valid
    else
      First(match Lookup(properties, fields[0].name)
            case Some(Obj(child)) => ValidateSchema(fields[0].value, child)
            case _ => Valid,
            ValidateFields(fields[1..], properties))
  }

  function ValidateItems(items: seq<Json>, child: seq<Field>): Verdict
    decreases items, 0
  {
    if items == [] then Valid
    else First(ValidateSchema(items[0], child), ValidateItems(items[1..], child))
  }

  // ----------------------------------------------- the feedback gate's validator

  datatype Fault =
    | UnsupportedKeyword(name: string) | UnsupportedType | WrongType | NotConst | NotInEnum
    | TooShort | TooLong | NoMatch | MissingKey(key: Json) | NotAllowed(name: string)
    | UnreadableSchema

  function UnknownKeywords(schema: seq<Field>): seq<Fault> {
    if schema == [] then []
    else (if schema[0].name in SHARED_KEYWORDS + EXTRA_KEYWORDS then [] else [UnsupportedKeyword(schema[0].name)])
         + UnknownKeywords(schema[1..])
  }

  function TypeFaults(value: Json, schema: seq<Field>): seq<Fault> {
    match Lookup(schema, "type")
    case None => []
    case Some(t) =>
      match TypeNames(t)
      case None => [UnreadableSchema]
      case Some(names) =>
        if !KnownTypes(names) then [UnsupportedType]
        else if SomeType(value, names) then [] else [WrongType]
  }

  /** A numeral of digits only: the bounds this model compares lengths with. */
  predicate IsNatural(token: string) {
    token != "" && forall i | 0 <= i < |token| :: IsDigit(token[i])
  }

  function NatOf(token: string): nat
    requires forall i | 0 <= i < |token| :: IsDigit(token[i])
  {
    if token == "" then 0
    else
      assert IsDigit(token[|token| - 1]);
      NatOf(token[..|token| - 1]) * 10 + (token[|token| - 1] as int - '0' as int)
  }

  predicate IsAtMost(n: nat, bound: Json) {
    bound.Num? && IsNatural(bound.token) && n <= NatOf(bound.token)
  }

  function ValueFaults(value: Json, schema: seq<Field>, search: Search): seq<Fault> {
    var const', enum' := Lookup(schema, "const"), Lookup(schema, "enum");
    var least, most, pattern := Lookup(schema, "minLength"), Lookup(schema, "maxLength"), Lookup(schema, "pattern");
    (if const'.Some? && value != const'.value then [NotConst] else [])
    + (match enum'
       case None => []
       case Some(Arr(items)) => if value in items then [] else [NotInEnum]
       case Some(_) => [UnreadableSchema])
    + (if value.Str? && least.Some? && IsAtMost(|value.s| + 1, least.value) then [TooShort] else [])
    + (if value.Str? && most.Some? && !IsAtMost(|value.s|, most.value) then [TooLong] else [])
    + (if value.Str? && pattern.Some? && !(pattern.value.Str? && search(pattern.value.s, value.s))
       then [NoMatch] else [])
  }

  function MissingFaults(keys: seq<Json>): seq<Fault> {
    if keys == [] then [] else [MissingKey(keys[0])] + MissingFaults(keys[1..])
  }

  function ExtraFaults(names: seq<string>): seq<Fault> {
    if names == [] then [] else [NotAllowed(names[0])] + ExtraFaults(names[1..])
  }

  function NameFaults(fields: seq<Field>, schema: seq<Field>): seq<Fault> {
    (match RequiredKeys(Lookup(schema, "required"))
     case None => [UnreadableSchema]
     case Some(keys) => MissingFaults(Missing(keys, fields)))
    + if Lookup(schema, "additionalProperties") == Some(Bool(false))
      then ExtraFaults(Undeclared(fields, FieldsOf(Lookup(schema, "properties"))))
      else []
  }

  function SchemaErrors(value: Json, schema: seq<Field>, search: Search): seq<Fault>
    decreases value, 1
  {
    var unknown, types := UnknownKeywords(schema), TypeFaults(value, schema);
    if unknown != [] then unknown
    else if types != [] then types
    else
      ValueFaults(value, schema, search)
      + match value
        case Obj(fields) =>
          NameFaults(fields, schema)
          + FieldErrors(fields, FieldsOf(Lookup(schema, "properties")), search)
        case Arr(items) =>
          (match Lookup(schema, "items")
           case None => []
           case Some(Obj(child)) => ItemErrors(items, child, search)
           case Some(_) => if items == [] then [] else [UnreadableSchema])
        case _ => []
  }

  function FieldErrors(fields: seq<Field>, properties: seq<Field>, search: Search): seq<Fault>
    decreases fields, 0
  {
    if fields == [] then []
    else
      (match Lookup(properties, fields[0].name)
       case None => []
       case Some(Obj(child)) => SchemaErrors(fields[0].value, child, search)
       case Some(_) => [UnreadableSchema])
      + FieldErrors(fields[1..], properties, search)
  }

  function ItemErrors(items: seq<Json>, child: seq<Field>, search: Search): seq<Fault>
    decreases items, 0
  {
    if items == [] then [] else SchemaErrors(items[0], child, search) + ItemErrors(items[1..], child, search)
  }

  // ------------------------------------------------------- where they agree

  /** The keywords have the shapes their specification gives them, at every level. */
  predicate WellFormedSchema(schema: Json)
    decreases schema
  {
    schema.Obj?
    && var fields := schema.fields;
       forall i | 0 <= i < |fields| ::
         var v := fields[i].value;
         match fields[i].name
         case "type" => v.Str? || (v.Arr? && forall k | 0 <= k < |v.items| :: v.items[k].Str?)
         case "enum" => v.Arr?
         case "required" => v.Arr? && forall k | 0 <= k < |v.items| :: v.items[k].Str?
         case "properties" => v.Obj? && forall k | 0 <= k < |v.fields| :: WellFormedSchema(v.fields[k].value)
         case "items" => WellFormedSchema(v)
         case "minLength" => v.Num? && IsNatural(v.token)
         case "maxLength" => v.Num? && IsNatural(v.token)
         case _ => true
  }

  /** What the feedback gate asks of one value on top of the shared keywords. */
  predicate OwnExtras(value: Json, schema: seq<Field>, search: Search) {
    (Lookup(schema, "const").Some? ==> value == Lookup(schema, "const").value)
    && (value.Str? ==>
          && (Lookup(schema, "minLength").Some? ==> !IsAtMost(|value.s| + 1, Lookup(schema, "minLength").value))
          && (Lookup(schema, "maxLength").Some? ==> IsAtMost(|value.s|, Lookup(schema, "maxLength").value))
          && (Lookup(schema, "pattern").Some? ==>
                var p := Lookup(schema, "pattern").value; p.Str? && search(p.s, value.s)))
  }

  /** The same wherever a value is reached through the schema. */
  predicate Extras(value: Json, schema: seq<Field>, search: Search)
    decreases value, 1
  {
    UnknownKeywords(schema) == [] && OwnExtras(value, schema, search)
    && match value
       case Obj(fields) => FieldExtras(fields, FieldsOf(Lookup(schema, "properties")), search)
       case Arr(items) =>
         (match Lookup(schema, "items")
          case Some(Obj(child)) => ItemExtras(items, child, search)
          case _ => true)
       case _ => true
  }

  predicate FieldExtras(fields: seq<Field>, properties: seq<Field>, search: Search)
    decreases fields, 0
  {
    fields == []
    || ((match Lookup(properties, fields[0].name)
         case Some(Obj(child)) => Extras(fields[0].value, child, search)
         case _ => true)
        && FieldExtras(fields[1..], properties, search))
  }

  predicate ItemExtras(items: seq<Json>, child: seq<Field>, search: Search)
    decreases items, 0
  {
    items == [] || (Extras(items[0], child, search) && ItemExtras(items[1..], child, search))
  }

  lemma TypesAgree(value: Json, schema: seq<Field>)
    requires WellFormedSchema(Obj(schema))
    ensures TypeFaults(value, schema) == [] <==> CheckType(value, schema) == Valid
  {
    var t := Lookup(schema, "type");
    if t.Some? {
      assert t.value.Str? || t.value.Arr?;
    }
  }

  lemma NamesAgree(fields: seq<Field>, schema: seq<Field>)
    requires WellFormedSchema(Obj(schema))
    ensures NameFaults(fields, schema) == [] <==> CheckNames(fields, schema) == Valid
  {
  }

  lemma ValuesAgree(value: Json, schema: seq<Field>, search: Search)
    requires WellFormedSchema(Obj(schema))
    ensures ValueFaults(value, schema, search) == []
            <==> CheckEnum(value, schema) == Valid && OwnExtras(value, schema, search)
  {
    var e := Lookup(schema, "enum");
    assert e.Some? ==> e.value.Arr?;
  }

  predicate ChildrenWellFormed(properties: seq<Field>) {
    forall k | 0 <= k < |properties| :: WellFormedSchema(properties[k].value)
  }

  lemma PartsAreSchemas(schema: seq<Field>)
    requires WellFormedSchema(Obj(schema))
    ensures ChildrenWellFormed(FieldsOf(Lookup(schema, "properties")))
    ensures Lookup(schema, "items").Some? ==> WellFormedSchema(Lookup(schema, "items").value)
    ensures Lookup(schema, "items").Some? ==> Lookup(schema, "items").value.Obj?
  {
  }

  lemma ObjectErrorsAre(fields: seq<Field>, schema: seq<Field>, search: Search)
    ensures SchemaErrors(Obj(fields), schema, search) == []
            <==> && UnknownKeywords(schema) == [] && TypeFaults(Obj(fields), schema) == []
                 && ValueFaults(Obj(fields), schema, search) == [] && NameFaults(fields, schema) == []
                 && FieldErrors(fields, FieldsOf(Lookup(schema, "properties")), search) == []
  {
  }

  lemma ObjectVerdictIs(fields: seq<Field>, schema: seq<Field>)
    ensures ValidateSchema(Obj(fields), schema) == Valid
            <==> && CheckType(Obj(fields), schema) == Valid && CheckEnum(Obj(fields), schema) == Valid
                 && CheckNames(fields, schema) == Valid
                 && ValidateFields(fields, FieldsOf(Lookup(schema, "properties"))) == Valid
  {
  }

  /** Where the keywords of one value agree, the validators agree if its parts do. */
  lemma ObjectsCompare(fields: seq<Field>, schema: seq<Field>, search: Search)
    requires WellFormedSchema(Obj(schema))
    requires var properties := FieldsOf(Lookup(schema, "properties"));
             FieldErrors(fields, properties, search) == []
             <==> ValidateFields(fields, properties) == Valid && FieldExtras(fields, properties, search)
    ensures SchemaErrors(Obj(fields), schema, search) == []
            <==> ValidateSchema(Obj(fields), schema) == Valid && Extras(Obj(fields), schema, search)
  {
    ObjectErrorsAre(fields, schema, search);
    ObjectVerdictIs(fields, schema);
    TypesAgree(Obj(fields), schema);
    ValuesAgree(Obj(fields), schema, search);
    NamesAgree(fields, schema);
  }

  predicate ItemsAgree(items: seq<Json>, schema: Option<Json>, search: Search) {
    match schema
    case None => true
    case Some(Obj(child)) =>
      (ItemErrors(items, child, search) == []
       <==> ValidateItems(items, child) == Valid && ItemExtras(items, child, search))
    case Some(_) => false
  }

  lemma ArraysCompare(items: seq<Json>, schema: seq<Field>, search: Search)
    requires WellFormedSchema(Obj(schema))
    requires ItemsAgree(items, Lookup(schema, "items"), search)
    ensures SchemaErrors(Arr(items), schema, search) == []
            <==> ValidateSchema(Arr(items), schema) == Valid && Extras(Arr(items), schema, search)
  {
    TypesAgree(Arr(items), schema);
    ValuesAgree(Arr(items), schema, search);
  }

  lemma ScalarsCompare(value: Json, schema: seq<Field>, search: Search)
    requires WellFormedSchema(Obj(schema)) && !value.Obj? && !value.Arr?
    ensures SchemaErrors(value, schema, search) == []
            <==> ValidateSchema(value, schema) == Valid && Extras(value, schema, search)
  {
    TypesAgree(value, schema);
    ValuesAgree(value, schema, search);
  }

  /**
   The two validators, compared completely: on a well-formed schema the feedback gate lists
   no fault exactly when the gateway accepts and the keywords only the gate knows hold too.
   */
  lemma {:induction false} ValidatorsCompare(value: Json, schema: seq<Field>, search: Search)
    requires WellFormedSchema(Obj(schema))
    ensures SchemaErrors(value, schema, search) == []
            <==> ValidateSchema(value, schema) == Valid && Extras(value, schema, search)
    decreases value, 1
  {
    PartsAreSchemas(schema);
    match value {
      case Obj(fields) =>
        FieldsCompare(fields, FieldsOf(Lookup(schema, "properties")), search);
        ObjectsCompare(fields, schema, search);
      case Arr(items) =>
        if Lookup(schema, "items").Some? {
          ItemsCompare(items, Lookup(schema, "items").value.fields, search);
        }
        ArraysCompare(items, schema, search);
      case _ =>
        ScalarsCompare(value, schema, search);
    }
  }

  lemma {:induction false} FieldsCompare(fields: seq<Field>, properties: seq<Field>, search: Search)
    requires ChildrenWellFormed(properties)
    ensures FieldErrors(fields, properties, search) == []
            <==> ValidateFields(fields, properties) == Valid && FieldExtras(fields, properties, search)
    decreases fields, 0
  {
    if fields != [] {
      var child := Lookup(properties, fields[0].name);
      if child.Some? {
        assert WellFormedSchema(child.value) && child.value.Obj?;
        ValidatorsCompare(fields[0].value, child.value.fields, search);
      }
      FieldsCompare(fields[1..], properties, search);
    }
  }

  lemma {:induction false} ItemsCompare(items: seq<Json>, child: seq<Field>, search: Search)
    requires WellFormedSchema(Obj(child))
    ensures ItemErrors(items, child, search) == []
            <==> ValidateItems(items, child) == Valid && ItemExtras(items, child, search)
    decreases items, 0
  {
    if items != [] {
      ValidatorsCompare(items[0], child, search);
      ItemsCompare(items[1..], child, search);
    }
  }

  /** Only the keywords both validators know, at every level. */
  predicate SharedOnly(schema: Json)
    decreases schema
  {
    schema.Obj? ==>
      forall i | 0 <= i < |schema.fields| ::
        schema.fields[i].name in SHARED_KEYWORDS
        && (schema.fields[i].name == "items" ==> SharedOnly(schema.fields[i].value))
        && (schema.fields[i].name == "properties" && schema.fields[i].value.Obj? ==>
              forall k | 0 <= k < |schema.fields[i].value.fields| ::
                SharedOnly(schema.fields[i].value.fields[k].value))
  }

  lemma {:induction false} SharedIsKnown(schema: seq<Field>)
    requires forall i | 0 <= i < |schema| :: schema[i].name in SHARED_KEYWORDS
    ensures UnknownKeywords(schema) == []
  {
    if schema != [] { SharedIsKnown(schema[1..]); }
  }

  lemma {:induction false} SharedHasNoExtras(value: Json, schema: seq<Field>, search: Search)
    requires SharedOnly(Obj(schema))
    ensures Extras(value, schema, search)
    decreases value, 1
  {
    SharedIsKnown(schema);
    match value {
      case Obj(fields) => SharedFields(fields, FieldsOf(Lookup(schema, "properties")), search);
      case Arr(items) =>
        match Lookup(schema, "items") {
          case Some(Obj(child)) => SharedItems(items, child, search);
          case _ =>
        }
      case _ =>
    }
  }

  lemma {:induction false} SharedFields(fields: seq<Field>, properties: seq<Field>, search: Search)
    requires forall k | 0 <= k < |properties| :: SharedOnly(properties[k].value)
    ensures FieldExtras(fields, properties, search)
    decreases fields, 0
  {
    if fields != [] {
      match Lookup(properties, fields[0].name) {
        case Some(Obj(child)) => SharedHasNoExtras(fields[0].value, child, search);
        case _ =>
      }
      SharedFields(fields[1..], properties, search);
    }
  }

  lemma {:induction false} SharedItems(items: seq<Json>, child: seq<Field>, search: Search)
    requires SharedOnly(Obj(child))
    ensures ItemExtras(items, child, search)
    decreases items, 0
  {
    if items != [] {
      SharedHasNoExtras(items[0], child, search);
      SharedItems(items[1..], child, search);
    }
  }

  /** On the shared keywords the two agree, at any nesting and for every value. */
  lemma ValidatorsAgree(value: Json, schema: seq<Field>, search: Search)
    requires WellFormedSchema(Obj(schema)) && SharedOnly(Obj(schema))
    ensures SchemaErrors(value, schema, search) == [] <==> ValidateSchema(value, schema) == Valid
  {
    ValidatorsCompare(value, schema, search);
    SharedHasNoExtras(value, schema, search);
  }

  /** The restriction is needed: `const` is a fault to one and nothing to the other. */
  lemma ConstDivides(search: Search)
    ensures var schema := [Field("const", Bool(true))];
            && WellFormedSchema(Obj(schema))
            && ValidateSchema(Bool(false), schema) == Valid
            && SchemaErrors(Bool(false), schema, search) == [NotConst]
  {
    var schema := [Field("const", Bool(true))];
    assert Lookup(schema, "const") == Some(Bool(true));
    assert UnknownKeywords(schema) == UnknownKeywords(schema[1..]) == [];
    assert ValueFaults(Bool(false), schema, search) == [NotConst];
  }
}
