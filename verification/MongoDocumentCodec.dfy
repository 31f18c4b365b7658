/** Models to BSON documents and back (Source/MongoDB/MongoDocumentCodec.ts). */
module MongoDocumentCodec {
  import opened Options
  import GeoJSON = MongoGeoJSON

  type ClassId = nat
  type ConceptId = nat

  // ---- types, models and documents --------------------------------------------------------------

  /** The declared type of a field. `Plain` stands for dates, strings, booleans, object ids and binaries. */
  datatype Type =
    | Plain
    | Number
    | Guid
    | DateOnly
    | TimeOnly
    | TimeSpan
    | Geometry(kind: GeoJSON.Kind)
    | Concept(id: ConceptId, of: Type)
    | Model(cls: ClassId)
    | Unsupported

  datatype Field = Field(name: string, of: Type, element: Option<Type>)

  /** A class: its fields, its derived type identifier, the types derived from it, and what its constructor assigns. */
  datatype Class = Class(fields: seq<Field>, derived: Option<string>, derivatives: seq<ClassId>, initial: seq<Value>)

  /** A property value; an object holds one value for each field of its class, in their order. */
  datatype Value =
    | Undefined
    | Null
    | Raw(content: nat)
    | Num(number: GeoJSON.Number)
    | Long(integer: int)
    | Decimal(exact: Option<real>)
    | Uuid(text: string)
    | Day(day: int)
    | Time(milliseconds: nat)
    | Span(span: string)
    | Place(geometry: GeoJSON.Geometry)
    | Wrapped(concept: ConceptId, inner: Value)
    | List(items: seq<Value>)
    | Object(cls: ClassId, values: seq<Value>)
    | Foreign(stored: Bson)

  /** `Verbatim` is a value the driver stores as it is; an instant is a day and a time of day. */
  datatype Bson =
    | BUndefined
    | BNull
    | Verbatim(value: Value)
    | Binary(hex: string)
    | Instant(on: int, at: nat)
    | BText(text: string)
    | BGeo(json: GeoJSON.Json)
    | BList(elements: seq<Bson>)
    | BDocument(entries: seq<Entry>)
  datatype Entry = Entry(name: string, value: Bson)

  datatype Codec = Codec(classes: map<ClassId, Class>, root: ClassId, key: string, policy: string -> string)

  function ClassOf(c: Codec, id: ClassId): Class {
    if id in c.classes then c.classes[id] else Class([], None, [], [])
  }

  const ID := "_id"
  const DERIVED := "_derivedTypeId"
  /** Noon, and the length of a day, in milliseconds. */
  const NOON: nat := 43200000
  const DAY: nat := 86400000

  // ---- documents --------------------------------------------------------------------------------

  function Find(entries: seq<Entry>, name: string): Option<Bson> {
    if entries == [] then None
    else if entries[0].name == name then Some(entries[0].value)
    else Find(entries[1..], name)
  }

  /** Assign a property. */
  function Put(entries: seq<Entry>, name: string, value: Bson): seq<Entry> {
    if entries == [] then [Entry(name, value)]
    else if entries[0].name == name then [Entry(name, value)] + entries[1..]
    else [entries[0]] + Put(entries[1..], name, value)
  }

  lemma {:induction false} FindPut(entries: seq<Entry>, name: string, value: Bson, other: string)
    ensures Find(Put(entries, name, value), other) == if other == name then Some(value) else Find(entries, other)
  {
    if entries == [] {
      assert [Entry(name, value)][1..] == [];
    } else if entries[0].name == name {
      assert ([Entry(name, value)] + entries[1..])[1..] == entries[1..];
    } else {
      FindPut(entries[1..], name, value, other);
      assert ([entries[0]] + Put(entries[1..], name, value))[1..] == Put(entries[1..], name, value);
    }
  }

  // ---- names and runtime classes ----------------------------------------------------------------

  function NameOf(c: Codec, field: Field, root: bool): string {
    if root && field.name == c.key then ID else c.policy(field.name)
  }

  predicate IsHex(x: char) {
    '0' <= x <= '9' || 'a' <= x <= 'f' || 'A' <= x <= 'F'
  }

  /** Hexadecimal digits with dashes after 8, 12, 16 and 20 of them. */
  predicate IsGuid(s: string) {
    |s| == 36 && forall i :: 0 <= i < 36 ==> if i in {8, 13, 18, 23} then s[i] == '-' else IsHex(s[i])
  }

  function ToLower(x: char): char {
    if 'A' <= x <= 'Z' then x + 32 as char else x
  }

  function Lower(s: string): (r: string)
    ensures |r| == |s|
  {
    seq(|s|, i requires 0 <= i < |s| => ToLower(s[i]))
  }

  /** Derived type identifiers that are Guids are compared without regard to case. */
  predicate SameId(a: string, b: string) {
    if IsGuid(a) && IsGuid(b) then Lower(a) == Lower(b) else a == b
  }

  predicate Names(c: Codec, candidate: ClassId, id: string) {
    ClassOf(c, candidate).derived.Some? && SameId(ClassOf(c, candidate).derived.value, id)
  }

  /** The first derived type with that identifier. */
  function FindDerived(c: Codec, candidates: seq<ClassId>, id: string): Option<ClassId> {
    if candidates == [] then None
    else if Names(c, candidates[0], id) then Some(candidates[0])
    else FindDerived(c, candidates[1..], id)
  }

  // ---- encoding ---------------------------------------------------------------------------------

  /** The digits of a Guid. */
  function Digits(g: string): string
    requires |g| == 36
  {
    g[..8] + g[9..13] + g[14..18] + g[19..23] + g[24..]
  }

  /** A Guid from its digits. */
  function Dashed(hex: string): string
    requires |hex| == 32
  {
    hex[..8] + "-" + hex[8..12] + "-" + hex[12..16] + "-" + hex[16..20] + "-" + hex[20..]
  }

  /** `Reflect.get`. */
  function Get(c: Codec, o: Value, name: string): (v: Value)
    requires o.Object?
    ensures v.Undefined? || v < o
  {
    Lookup(ClassOf(c, o.cls).fields, o, name, 0)
  }

  function Lookup(fields: seq<Field>, o: Value, name: string, i: nat): (v: Value)
    requires o.Object?
    ensures v.Undefined? || v < o
    decreases |fields| - i
  {
    if |fields| <= i || |o.values| <= i then Undefined
    else if fields[i].name == name then o.values[i]
    else Lookup(fields, o, name, i + 1)
  }

  /** None when it throws. The class of a value decides before the declared type does. */
  function EncodeValue(c: Codec, t: Type, v: Value): Option<Bson>
    decreases v, 2, t
  {
    if v.Undefined? then Some(BUndefined)
    else if v.Null? then Some(BNull)
    else if v.Wrapped? then
      if t.Concept? then EncodeValue(c, t.of, v.inner)
      else if v.inner.Undefined? then Some(BUndefined)
      else if v.inner.Null? then Some(BNull) else None
    else if t.Concept? then EncodeValue(c, t.of, v)
    else if v.Uuid? then if |v.text| == 36 then Some(Binary(Lower(Digits(v.text)))) else None
    else if v.Day? then Some(Instant(v.day, NOON))
    else if v.Time? then Some(Instant(0, v.milliseconds))
    else if v.Span? then Some(BText(v.span))
    else if t.Geometry? then
      if v.Place? && GeoJSON.KindOf(v.geometry) == t.kind && GeoJSON.Encode(v.geometry).Some?
      then Some(BGeo(GeoJSON.Encode(v.geometry).value)) else None
    else if t.Plain? || t.Number? then Some(Verbatim(v))
    else if t.Model? && v.Object? && ClassOf(c, t.cls).fields != [] then
      EncodeObject(c, if ClassOf(c, v.cls).derived.Some? then v.cls else t.cls, v, false)
    else None
  }

  function EncodeItems(c: Codec, t: Type, items: seq<Value>): Option<seq<Bson>>
    decreases items, 3, t
  {
    if items == [] then Some([]) else
      var first, rest := EncodeValue(c, t, items[0]), EncodeItems(c, t, items[1..]);
      if first.Some? && rest.Some? then Some([first.value] + rest.value) else None
  }

  /** A field's value: each item of an array, or the value itself. */
  function EncodeField(c: Codec, field: Field, v: Value): Option<Bson>
    decreases v, 4
  {
    if v.Undefined? then Some(BUndefined)
    else if v.Null? then Some(BNull)
    else if field.element.Some? then
      if !v.List? then None else
        var items := EncodeItems(c, field.element.value, v.items);
        if items.Some? then Some(BList(items.value)) else None
    else EncodeValue(c, field.of, v)
  }

  /** The first `n` fields of a class, assigned one after the other. */
  function EncodeFields(c: Codec, fields: seq<Field>, o: Value, root: bool, n: nat): Option<seq<Entry>>
    requires o.Object? && n <= |fields|
    decreases o, 0, n
  {
    if n == 0 then Some([]) else
      var before := EncodeFields(c, fields, o, root, n - 1);
      var content := Get(c, o, fields[n - 1].name);
      if before.None? || content.Undefined? then before
      else
        var encoded := EncodeField(c, fields[n - 1], content);
        if encoded.Some? then Some(Put(before.value, NameOf(c, fields[n - 1], root), encoded.value)) else None
  }

  function EncodeObject(c: Codec, cls: ClassId, o: Value, root: bool): Option<Bson>
    requires o.Object?
    decreases o, 1
  {
    var entries := EncodeFields(c, ClassOf(c, cls).fields, o, root, |ClassOf(c, cls).fields|);
    if entries.None? then None
    else if ClassOf(c, cls).derived.None? then Some(BDocument(entries.value))
    else Some(BDocument(Put(entries.value, DERIVED, BText(ClassOf(c, cls).derived.value))))
  }

  /** `serialize`: the key must have a value, before and after encoding. */
  function Serialize(c: Codec, o: Value): Option<Bson>
    requires o.Object?
  {
    var key := Get(c, o, c.key);
    if key.Undefined? || key.Null? then None else
      var document := EncodeObject(c, if ClassOf(c, o.cls).fields != [] then o.cls else c.root, o, true);
      if document.Some? && document.value.BDocument? && Find(document.value.entries, ID).Some?
         && !Find(document.value.entries, ID).value.BNull? && !Find(document.value.entries, ID).value.BUndefined?
      then document else None
  }

  // ---- decoding ---------------------------------------------------------------------------------

  /** Which class a document is read as; None when its identifier is unknown. */
  function Actual(c: Codec, cls: ClassId, entries: seq<Entry>): Option<ClassId> {
    var id := Find(entries, DERIVED);
    if id.None? || id.value.BNull? || id.value.BUndefined? || ClassOf(c, cls).derivatives == [] then Some(cls)
    else if id.value.BText? then FindDerived(c, ClassOf(c, cls).derivatives, id.value.text)
    else None
  }

  /** The value a plain field takes from a stored one. */
  function AsValue(b: Bson): Value {
    if b.Verbatim? then b.value else Foreign(b)
  }

  /** A number must be represented exactly. */
  function DecodeNumber(b: Bson): Option<Value> {
    if !b.Verbatim? then None
    else match b.value
      case Num(number) => if number.Finite? then Some(b.value) else None
      case Long(n) => if -0x20_0000_0000_0000 < n < 0x20_0000_0000_0000 then Some(Num(GeoJSON.Finite(n as real))) else None
      case Decimal(exact) => if exact.Some? then Some(Num(GeoJSON.Finite(exact.value))) else None
      case _ => None
  }

  /** `hasOwn`, then the stored value: `Find`, from one entry on. */
  function Own(b: Bson, name: string, i: nat): (r: Option<Bson>)
    requires b.BDocument? && i <= |b.entries|
    ensures r.Some? ==> r.value < b
    ensures r == Find(b.entries[i..], name)
    decreases |b.entries| - i
  {
    if i == |b.entries| then None
    else if b.entries[i].name == name then Some(b.entries[i].value)
    else Own(b, name, i + 1)
  }

  function DecodeValue(c: Codec, t: Type, b: Bson): Option<Value>
    decreases b, 2, t
  {
    if b.BUndefined? then Some(Undefined)
    else if b.BNull? then Some(Null)
    else
      match t
      case Concept(id, of) =>
        var inner := DecodeValue(c, of, b);
        if inner.Some? then Some(Wrapped(id, inner.value)) else None
      case Guid => if b.Binary? && |b.hex| == 32 then Some(Uuid(Dashed(b.hex))) else None
      case DateOnly => if b.Instant? then Some(Day(b.on)) else None
      case TimeOnly => if b.Instant? then Some(Time(b.at)) else None
      case TimeSpan => if b.BText? then Some(Span(b.text)) else None
      case Geometry(kind) =>
        if !b.BGeo? || GeoJSON.Decode(kind, b.json).None? then None else Some(Place(GeoJSON.Decode(kind, b.json).value))
      case Number => DecodeNumber(b)
      case Plain => Some(AsValue(b))
      case Model(cls) =>
        if ClassOf(c, cls).fields == [] || !b.BDocument? then None else DecodeObject(c, cls, b, false)
      case Unsupported => None
  }

  function DecodeItems(c: Codec, t: Type, elements: seq<Bson>): Option<seq<Value>>
    decreases elements, 3, t
  {
    if elements == [] then Some([]) else
      var first, rest := DecodeValue(c, t, elements[0]), DecodeItems(c, t, elements[1..]);
      if first.Some? && rest.Some? then Some([first.value] + rest.value) else None
  }

  function DecodeField(c: Codec, field: Field, b: Bson): Option<Value>
    decreases b, 4
  {
    if b.BUndefined? then Some(Undefined)
    else if b.BNull? then Some(Null)
    else if field.element.Some? then
      if !b.BList? then None else
        var items := DecodeItems(c, field.element.value, b.elements);
        if items.Some? then Some(List(items.value)) else None
    else DecodeValue(c, field.of, b)
  }

  /** The first `n` fields of a new instance: what the document holds, else what the constructor assigned. */
  function DecodeFields(c: Codec, cls: Class, b: Bson, root: bool, n: nat): Option<seq<Value>>
    requires b.BDocument? && n <= |cls.fields|
    decreases b, 0, n
  {
    if n == 0 then Some([]) else
      var before := DecodeFields(c, cls, b, root, n - 1);
      if before.None? then None else
        var stored := Own(b, NameOf(c, cls.fields[n - 1], root), 0);
        var initial := if n <= |cls.initial| then cls.initial[n - 1] else Undefined;
        if stored.None? then Some(before.value + [initial])
        else
          var decoded := DecodeField(c, cls.fields[n - 1], stored.value);
          if decoded.Some? then Some(before.value + [decoded.value]) else None
  }

  function DecodeObject(c: Codec, cls: ClassId, b: Bson, root: bool): Option<Value>
    requires b.BDocument?
    decreases b, 1
  {
    var actual := Actual(c, cls, b.entries);
    if actual.None? then None else
      var values := DecodeFields(c, ClassOf(c, actual.value), b, root, |ClassOf(c, actual.value).fields|);
      if values.Some? then Some(Object(actual.value, values.value)) else None
  }

  function Deserialize(c: Codec, b: Bson): Option<Value>
    requires b.BDocument?
  {
    if Find(b.entries, ID).None? then None else DecodeObject(c, c.root, b, true)
  }

  // ---- the loops --------------------------------------------------------------------------------

  /** `encodeObject` as it runs: assign one property after the other. */
  method EncodeDocument(c: Codec, cls: ClassId, o: Value, root: bool) returns (document: Option<Bson>)
    requires o.Object?
    ensures document == EncodeObject(c, cls, o, root)
  {
    var result: seq<Entry> := [];
    var fields := ClassOf(c, cls).fields;
    for i := 0 to |fields|
      invariant EncodeFields(c, fields, o, root, i) == Some(result)
    {
      var content := Get(c, o, fields[i].name);
      if !content.Undefined? {
        var encoded := EncodeField(c, fields[i], content);
        if encoded.None? {
          FailureStays(c, fields, o, root, i + 1, |fields|);
          return None;
        }
        result := Put(result, NameOf(c, fields[i], root), encoded.value);
      }
    }
    var derived := ClassOf(c, cls).derived;
    if derived.Some? { result := Put(result, DERIVED, BText(derived.value)); }
    return Some(BDocument(result));
  }

  lemma {:induction false} FailureStays(c: Codec, fields: seq<Field>, o: Value, root: bool, n: nat, m: nat)
    requires o.Object? && n <= m <= |fields| && EncodeFields(c, fields, o, root, n).None?
    ensures EncodeFields(c, fields, o, root, m).None?
    decreases m
  {
    if n < m { FailureStays(c, fields, o, root, n, m - 1); }
  }

  /** `decodeObject` as it runs: construct an instance, then set every field the document holds. */
  method DecodeDocument(c: Codec, cls: ClassId, b: Bson, root: bool) returns (instance: Option<Value>)
    requires b.BDocument?
    ensures instance == DecodeObject(c, cls, b, root)
  {
    var actual := Actual(c, cls, b.entries);
    if actual.None? { return None; }
    var declared := ClassOf(c, actual.value);
    var values: seq<Value> := [];
    for i := 0 to |declared.fields|
      invariant DecodeFields(c, declared, b, root, i) == Some(values)
    {
      var stored := Own(b, NameOf(c, declared.fields[i], root), 0);
      if stored.None? {
        values := values + [InitialOf(declared, i)];
      } else {
        var decoded := DecodeField(c, declared.fields[i], stored.value);
        if decoded.None? {
          DecodingFailureStays(c, declared, b, root, i + 1, |declared.fields|);
          return None;
        }
        values := values + [decoded.value];
      }
    }
    return Some(Object(actual.value, values));
  }

  lemma {:induction false} DecodingFailureStays(c: Codec, cls: Class, b: Bson, root: bool, n: nat, m: nat)
    requires b.BDocument? && n <= m <= |cls.fields| && DecodeFields(c, cls, b, root, n).None?
    ensures DecodeFields(c, cls, b, root, m).None?
    decreases m
  {
    if n < m { DecodingFailureStays(c, cls, b, root, n, m - 1); }
  }

  // ---- well-typed models ------------------------------------------------------------------------

  /** A derived type that its identifier selects. */
  predicate Selected(c: Codec, cls: ClassId, actual: ClassId) {
    && ClassOf(c, actual).derived.Some?
    && FindDerived(c, ClassOf(c, cls).derivatives, ClassOf(c, actual).derived.value) == Some(actual)
  }

  /**
   * The runtime classes a declared class can be read back as: itself, unless it has an identifier that its own
   * derivatives do not know, or one of them.
   */
  predicate Readable(c: Codec, cls: ClassId, actual: ClassId) {
    || (actual == cls && (ClassOf(c, cls).derived.None? || ClassOf(c, cls).derivatives == []))
    || Selected(c, cls, actual)
  }

  /** What the constructor leaves in field `i`. */
  function InitialOf(cls: Class, i: nat): Value {
    if i < |cls.initial| then cls.initial[i] else Undefined
  }

  /** A value of a declared type; nothing at all is a value of every type, and the text of a Guid is lower case. */
  predicate WellTyped(c: Codec, t: Type, v: Value)
    decreases v, 2, t
  {
    if v.Undefined? || v.Null? then true
    else match t
      case Concept(id, of) => v.Wrapped? && v.concept == id && WellTyped(c, of, v.inner)
      case Guid => v.Uuid? && IsGuid(v.text) && Lower(v.text) == v.text
      case DateOnly => v.Day?
      case TimeOnly => v.Time? && v.milliseconds < DAY
      case TimeSpan => v.Span?
      case Geometry(kind) => v.Place? && GeoJSON.KindOf(v.geometry) == kind && GeoJSON.Encode(v.geometry).Some?
      case Number => v.Num? && v.number.Finite?
      case Plain => v.Raw?
      case Model(cls) => v.Object? && ClassOf(c, cls).fields != [] && Readable(c, cls, v.cls) && Fits(c, v)
      case Unsupported => false
  }

  predicate WellTypedField(c: Codec, field: Field, v: Value)
    decreases v, 3
  {
    if field.element.Some? && !v.Undefined? && !v.Null?
    then v.List? && forall i :: 0 <= i < |v.items| ==> WellTyped(c, field.element.value, v.items[i])
    else WellTyped(c, field.of, v)
  }

  /** An object holds a value of the right type in every field. */
  predicate Fits(c: Codec, o: Value)
    requires o.Object?
    decreases o, 1
  {
    var cls := ClassOf(c, o.cls);
    && |o.values| == |cls.fields|
    && forall i :: 0 <= i < |o.values| ==> WellTypedField(c, cls.fields[i], o.values[i])
  }

  /** The fields of a class have names of their own, in the model and in the document. */
  predicate Named(c: Codec, cls: ClassId, root: bool) {
    var fields := ClassOf(c, cls).fields;
    && (forall i, j :: 0 <= i < j < |fields| ==> fields[i].name != fields[j].name)
    && (forall i, j :: 0 <= i < j < |fields| ==> NameOf(c, fields[i], root) != NameOf(c, fields[j], root))
    && (forall i :: 0 <= i < |fields| ==> NameOf(c, fields[i], root) != DERIVED)
  }

  ghost predicate AllNamed(c: Codec) {
    forall cls :: Named(c, cls, false)
  }

  /** Where no other derivative has the same identifier, the identifier selects its own. */
  lemma {:induction false} UniqueIdentifiersSelect(c: Codec, candidates: seq<ClassId>, actual: ClassId)
    requires actual in candidates && ClassOf(c, actual).derived.Some?
    requires forall other :: other in candidates && other != actual ==> !Names(c, other, ClassOf(c, actual).derived.value)
    ensures FindDerived(c, candidates, ClassOf(c, actual).derived.value) == Some(actual)
  {
    if candidates[0] != actual {
      assert candidates == [candidates[0]] + candidates[1..];
      UniqueIdentifiersSelect(c, candidates[1..], actual);
    }
  }

  /** An injective policy that avoids the two reserved names names every class properly, as the root and inside it. */
  lemma InjectivePolicyNames(c: Codec, cls: ClassId, root: bool)
    requires var fields := ClassOf(c, cls).fields;
             && (forall i, j :: 0 <= i < j < |fields| ==> fields[i].name != fields[j].name)
             && (forall i, j :: 0 <= i < j < |fields| ==> c.policy(fields[i].name) != c.policy(fields[j].name))
             && (forall i :: 0 <= i < |fields| ==> c.policy(fields[i].name) != DERIVED)
             && (root ==> forall i :: 0 <= i < |fields| && fields[i].name != c.key ==> c.policy(fields[i].name) != ID)
    ensures Named(c, cls, root)
  {
    assert ID != DERIVED by { assert ID[1] != DERIVED[1]; }
  }

  // ---- what comes back --------------------------------------------------------------------------

  /** What a chain of concepts wraps in the end. */
  function Core(v: Value): Value {
    if v.Wrapped? then Core(v.inner) else v
  }

  /** Nothing, or concepts around nothing. */
  predicate Empty(v: Value) {
    Core(v).Undefined? || Core(v).Null?
  }

  /**
   * The value a stored one is read back as: an empty concept comes back as what it wraps, and a field that was left
   * undefined as what the constructor assigns to it.
   */
  function Restored(c: Codec, v: Value): Value
    decreases v
  {
    if Empty(v) then Core(v)
    else match v
      case Wrapped(concept, inner) => Wrapped(concept, Restored(c, inner))
      case List(items) => List(seq(|items|, i requires 0 <= i < |items| => Restored(c, items[i])))
      case Object(cls, values) =>
        Object(cls, seq(|values|, i requires 0 <= i < |values| =>
          if values[i].Undefined? then InitialOf(ClassOf(c, cls), i) else Restored(c, values[i])))
      case _ => v
  }

  /** No concept in it is empty, and no field that it leaves undefined is assigned by a constructor. */
  predicate Intact(c: Codec, v: Value)
    decreases v
  {
    match v
    case Wrapped(_, inner) => !Empty(inner) && Intact(c, inner)
    case List(items) => forall i :: 0 <= i < |items| ==> Intact(c, items[i])
    case Object(cls, values) =>
      forall i :: 0 <= i < |values| ==>
        Intact(c, values[i]) && (values[i].Undefined? ==> InitialOf(ClassOf(c, cls), i).Undefined?)
    case _ => true
  }

  /** Exactly the intact values come back as they were. */
  lemma {:induction false} IntactReturns(c: Codec, v: Value)
    ensures Restored(c, v) == v <==> Intact(c, v)
    decreases v
  {
    match v
    case Wrapped(_, inner) => IntactReturns(c, inner); CoreIsBare(v);
    case List(items) =>
      forall i | 0 <= i < |items| ensures Restored(c, items[i]) == items[i] <==> Intact(c, items[i]) {
        IntactReturns(c, items[i]);
      }
      if Intact(c, v) { assert Restored(c, v).items == items; } else { SomeItemChanges(c, v); }
    case Object(cls, values) =>
      forall i | 0 <= i < |values| ensures Restored(c, values[i]) == values[i] <==> Intact(c, values[i]) {
        IntactReturns(c, values[i]);
      }
      if Intact(c, v) { assert Restored(c, v).values == values; } else { SomeFieldChanges(c, v); }
    case _ =>
  }

  lemma {:induction false} CoreIsBare(v: Value)
    ensures !Core(v).Wrapped?
  {
    if v.Wrapped? { CoreIsBare(v.inner); }
  }

  lemma SomeItemChanges(c: Codec, v: Value)
    requires v.List? && !Intact(c, v)
    requires forall i :: 0 <= i < |v.items| ==> (Restored(c, v.items[i]) == v.items[i] <==> Intact(c, v.items[i]))
    ensures Restored(c, v) != v
  {
    var i :| 0 <= i < |v.items| && !Intact(c, v.items[i]);
    assert Restored(c, v).items[i] == Restored(c, v.items[i]);
  }

  lemma SomeFieldChanges(c: Codec, v: Value)
    requires v.Object? && !Intact(c, v)
    requires forall i :: 0 <= i < |v.values| ==> (Restored(c, v.values[i]) == v.values[i] <==> Intact(c, v.values[i]))
    ensures Restored(c, v) != v
  {
    var cls := ClassOf(c, v.cls);
    var i :| 0 <= i < |v.values| && !(Intact(c, v.values[i]) && (v.values[i].Undefined? ==> InitialOf(cls, i).Undefined?));
    assert Restored(c, v).values[i] == if v.values[i].Undefined? then InitialOf(cls, i) else Restored(c, v.values[i]);
  }

  // ---- the round trip ---------------------------------------------------------------------------

  lemma DashesReturn(g: string)
    requires IsGuid(g)
    ensures |Digits(g)| == 32 && Dashed(Digits(g)) == g
    ensures Lower(g) == g ==> Lower(Digits(g)) == Digits(g)
  {
    var hex := Digits(g);
    assert hex[..8] == g[..8] && hex[8..12] == g[9..13] && hex[12..16] == g[14..18] && hex[16..20] == g[19..23] && hex[20..] == g[24..];
    assert g == g[..8] + [g[8]] + g[9..13] + [g[13]] + g[14..18] + [g[18]] + g[19..23] + [g[23]] + g[24..];
    if Lower(g) == g { DigitsAreLower(g); }
  }

  lemma DigitsAreLower(g: string)
    requires |g| == 36 && Lower(g) == g
    ensures Lower(Digits(g)) == Digits(g)
  {
    forall i | 0 <= i < 36 ensures ToLower(g[i]) == g[i] { assert Lower(g)[i] == ToLower(g[i]); }
    assert forall x :: x in Digits(g) ==> x in g;
    assert forall i :: 0 <= i < 32 ==> Digits(g)[i] in g;
  }

  /** The field that holds a name is the one a lookup finds. */
  lemma {:induction false} LookupFinds(fields: seq<Field>, o: Value, i: nat, from: nat)
    requires o.Object? && |o.values| == |fields| && from <= i < |fields|
    requires forall a, b :: 0 <= a < b < |fields| ==> fields[a].name != fields[b].name
    ensures Lookup(fields, o, fields[i].name, from) == o.values[i]
    decreases i - from
  {
    if from < i { LookupFinds(fields, o, i, from + 1); }
  }

  /** A value encodes, to nothing exactly when it is empty, and what it encodes to decodes to its restored form. */
  ghost predicate Returns(c: Codec, v: Value, encoded: Option<Bson>, decoded: Option<Value>) {
    && encoded.Some? && decoded == Some(Restored(c, v))
    && (encoded.value.BUndefined? <==> Core(v).Undefined?)
    && (encoded.value.BNull? <==> Core(v).Null?)
  }

  ghost predicate ValueReturns(c: Codec, t: Type, v: Value) {
    var encoded := EncodeValue(c, t, v);
    Returns(c, v, encoded, if encoded.Some? then DecodeValue(c, t, encoded.value) else None)
  }

  ghost predicate FieldValueReturns(c: Codec, field: Field, v: Value) {
    var encoded := EncodeField(c, field, v);
    Returns(c, v, encoded, if encoded.Some? then DecodeField(c, field, encoded.value) else None)
  }

  lemma {:induction false} ValuesReturn(c: Codec, t: Type, v: Value)
    requires AllNamed(c) && WellTyped(c, t, v)
    ensures ValueReturns(c, t, v)
    decreases v, 2, t
  {
    if !v.Undefined? && !v.Null? {
      match t
      case Concept(_, of) => ValuesReturn(c, of, v.inner);
      case Guid => DashesReturn(v.text);
      case Geometry(_) => GeoJSON.EncodedDecodes(v.geometry);
      case Model(cls) => NestedReturns(c, cls, v);
      case _ =>
    }
  }

  lemma NestedReturns(c: Codec, cls: ClassId, v: Value)
    requires AllNamed(c) && v.Object? && ClassOf(c, cls).fields != [] && Readable(c, cls, v.cls) && Fits(c, v)
    ensures ValueReturns(c, Model(cls), v)
    decreases v, 1, 1
  {
    assert Named(c, v.cls, false);
    ObjectsReturn(c, cls, v, false);
  }

  lemma {:induction false} ItemsReturn(c: Codec, t: Type, items: seq<Value>)
    requires AllNamed(c) && forall i :: 0 <= i < |items| ==> WellTyped(c, t, items[i])
    ensures EncodeItems(c, t, items).Some?
    ensures DecodeItems(c, t, EncodeItems(c, t, items).value) == Some(Restored(c, List(items)).items)
    decreases items, 3, t
  {
    if items != [] {
      ValuesReturn(c, t, items[0]);
      ItemsReturn(c, t, items[1..]);
      assert EncodeItems(c, t, items).value[1..] == EncodeItems(c, t, items[1..]).value;
      assert Restored(c, List(items)).items == [Restored(c, items[0])] + Restored(c, List(items[1..])).items;
    }
  }

  lemma FieldReturns(c: Codec, field: Field, v: Value)
    requires AllNamed(c) && WellTypedField(c, field, v)
    ensures FieldValueReturns(c, field, v)
    decreases v, 4
  {
    if !v.Undefined? && !v.Null? {
      if field.element.Some? { ItemsReturn(c, field.element.value, v.items); } else { ValuesReturn(c, field.of, v); }
    }
  }

  /** What the document must hold for one field. */
  ghost predicate Holds(c: Codec, entries: seq<Entry>, field: Field, v: Value, root: bool) {
    if v.Undefined? then Find(entries, NameOf(c, field, root)).None?
    else EncodeField(c, field, v).Some? && Find(entries, NameOf(c, field, root)) == EncodeField(c, field, v)
  }

  /** The document holds the first `n` fields, and nothing under any other name. */
  ghost predicate HoldsFirst(c: Codec, entries: seq<Entry>, o: Value, root: bool, n: nat)
    requires o.Object? && n <= |o.values| <= |ClassOf(c, o.cls).fields|
  {
    var fields := ClassOf(c, o.cls).fields;
    && (forall i :: 0 <= i < n ==> Holds(c, entries, fields[i], o.values[i], root))
    && (forall name :: (forall i :: 0 <= i < n ==> NameOf(c, fields[i], root) != name) ==> Find(entries, name).None?)
  }

  lemma HoldsNext(c: Codec, before: seq<Entry>, o: Value, root: bool, n: nat)
    requires o.Object? && n < |o.values| == |ClassOf(c, o.cls).fields| && Named(c, o.cls, root)
    requires HoldsFirst(c, before, o, root, n)
    requires var field, v := ClassOf(c, o.cls).fields[n], o.values[n]; !v.Undefined? && EncodeField(c, field, v).Some?
    ensures var field, v := ClassOf(c, o.cls).fields[n], o.values[n];
            HoldsFirst(c, Put(before, NameOf(c, field, root), EncodeField(c, field, v).value), o, root, n + 1)
  {
    hide EncodeField, Find, Put;
    var fields := ClassOf(c, o.cls).fields;
    var name, value := NameOf(c, fields[n], root), EncodeField(c, fields[n], o.values[n]).value;
    var after := Put(before, name, value);
    forall other ensures Find(after, other) == if other == name then Some(value) else Find(before, other) {
      FindPut(before, name, value, other);
    }
    forall i | 0 <= i < n + 1 ensures Holds(c, after, fields[i], o.values[i], root) {
      if i < n { assert Holds(c, before, fields[i], o.values[i], root); }
    }
    forall other | forall i :: 0 <= i < n + 1 ==> NameOf(c, fields[i], root) != other ensures Find(after, other).None? {
      assert other != name;
    }
  }

  lemma HoldsSame(c: Codec, entries: seq<Entry>, o: Value, root: bool, n: nat)
    requires o.Object? && n < |o.values| == |ClassOf(c, o.cls).fields| && Named(c, o.cls, root)
    requires HoldsFirst(c, entries, o, root, n) && o.values[n].Undefined?
    ensures HoldsFirst(c, entries, o, root, n + 1)
  {
    hide Find;
  }

  lemma FieldIsHeld(c: Codec, o: Value, root: bool, n: nat)
    requires o.Object? && n < |o.values| == |ClassOf(c, o.cls).fields| && Named(c, o.cls, root)
    requires var fields := ClassOf(c, o.cls).fields;
             var before := EncodeFields(c, fields, o, root, n);
             before.Some? && HoldsFirst(c, before.value, o, root, n) && EncodeField(c, fields[n], o.values[n]).Some?
    ensures var entries := EncodeFields(c, ClassOf(c, o.cls).fields, o, root, n + 1);
            entries.Some? && HoldsFirst(c, entries.value, o, root, n + 1)
  {
    var fields := ClassOf(c, o.cls).fields;
    var before := EncodeFields(c, fields, o, root, n).value;
    LookupFinds(fields, o, n, 0);
    if o.values[n].Undefined? { HoldsSame(c, before, o, root, n); } else { HoldsNext(c, before, o, root, n); }
    hide HoldsFirst, EncodeField, Put, NameOf, Named, Lookup;
  }

  lemma {:induction false} FieldsAreHeld(c: Codec, o: Value, root: bool, n: nat)
    requires AllNamed(c) && o.Object? && Fits(c, o) && Named(c, o.cls, root) && n <= |o.values|
    ensures var entries := EncodeFields(c, ClassOf(c, o.cls).fields, o, root, n);
            entries.Some? && HoldsFirst(c, entries.value, o, root, n)
    decreases o, 0, n
  {
    if n == 0 {
      assert HoldsFirst(c, [], o, root, 0);
    } else {
      FieldsAreHeld(c, o, root, n - 1);
      FieldReturns(c, ClassOf(c, o.cls).fields[n - 1], o.values[n - 1]);
      hide HoldsFirst, EncodeField, EncodeFields, Named;
      FieldIsHeld(c, o, root, n - 1);
    }
  }

  /** The document of an object, before it is decoded. */
  lemma ObjectsAreHeld(c: Codec, cls: ClassId, o: Value, root: bool)
    requires AllNamed(c) && o.Object? && Fits(c, o) && Named(c, o.cls, root) && Readable(c, cls, o.cls)
    ensures var b := EncodeObject(c, o.cls, o, root);
            && b.Some? && b.value.BDocument?
            && Actual(c, cls, b.value.entries) == Some(o.cls)
            && forall i :: 0 <= i < |o.values| ==> Holds(c, b.value.entries, ClassOf(c, o.cls).fields[i], o.values[i], root)
    decreases o, 0
  {
    var actual := ClassOf(c, o.cls);
    FieldsAreHeld(c, o, root, |actual.fields|);
    var entries := EncodeFields(c, actual.fields, o, root, |actual.fields|).value;
    assert Find(entries, DERIVED).None?;
    if actual.derived.Some? {
      hide EncodeField, EncodeFields, Find, Put;
      forall other ensures Find(Put(entries, DERIVED, BText(actual.derived.value)), other) ==
                           if other == DERIVED then Some(BText(actual.derived.value)) else Find(entries, other)
      {
        FindPut(entries, DERIVED, BText(actual.derived.value), other);
      }
    }
  }

  lemma {:induction false} FieldsReturn(c: Codec, o: Value, b: Bson, root: bool, n: nat)
    requires AllNamed(c) && o.Object? && Fits(c, o) && b.BDocument? && n <= |o.values|
    requires forall i :: 0 <= i < |o.values| ==> Holds(c, b.entries, ClassOf(c, o.cls).fields[i], o.values[i], root)
    ensures DecodeFields(c, ClassOf(c, o.cls), b, root, n) == Some(Restored(c, o).values[..n])
    decreases o, 0, n
  {
    if n != 0 {
      var field, v := ClassOf(c, o.cls).fields[n - 1], o.values[n - 1];
      FieldsReturn(c, o, b, root, n - 1);
      assert Holds(c, b.entries, field, v, root);
      assert b.entries[0..] == b.entries;
      FieldReturns(c, field, v);
      var back := Restored(c, o).values;
      assert back[..n] == back[..n - 1] + [back[n - 1]];
      hide EncodeField, DecodeField, Find, WellTypedField;
    }
  }

  lemma ObjectsReturn(c: Codec, cls: ClassId, o: Value, root: bool)
    requires AllNamed(c) && o.Object? && Fits(c, o) && Named(c, o.cls, root) && Readable(c, cls, o.cls)
    ensures var b := EncodeObject(c, o.cls, o, root);
            b.Some? && b.value.BDocument? && DecodeObject(c, cls, b.value, root) == Some(Restored(c, o))
    decreases o, 1, 0
  {
    ObjectsAreHeld(c, cls, o, root);
    var b := EncodeObject(c, o.cls, o, root).value;
    hide EncodeObject, Actual, Holds;
    FieldsReturn(c, o, b, root, |o.values|);
    assert Restored(c, o).values[..|o.values|] == Restored(c, o).values;
  }

  /** A model as an application stores it: well typed, under names of its own. */
  ghost predicate Storable(c: Codec, o: Value) {
    AllNamed(c) && o.Object? && Fits(c, o) && Named(c, o.cls, true) && Readable(c, c.root, o.cls)
  }

  lemma {:induction false} LookupMisses(fields: seq<Field>, o: Value, name: string, from: nat)
    requires o.Object? && |o.values| == |fields| && from <= |fields|
    requires Lookup(fields, o, name, from).Undefined? == false
    ensures exists i :: 0 <= i < |fields| && fields[i].name == name
    decreases |fields| - from
  {
    if from < |fields| && fields[from].name != name { LookupMisses(fields, o, name, from + 1); }
  }

  /** A model is stored exactly when there is something in its key. */
  lemma KeyedModelsSerialize(c: Codec, o: Value)
    requires Storable(c, o)
    ensures Serialize(c, o).Some? <==> !Empty(Get(c, o, c.key))
    ensures Serialize(c, o).Some? ==> Serialize(c, o) == EncodeObject(c, o.cls, o, true)
  {
    var key := Get(c, o, c.key);
    if !key.Undefined? && !key.Null? {
      var fields := ClassOf(c, o.cls).fields;
      LookupMisses(fields, o, c.key, 0);
      var i :| 0 <= i < |fields| && fields[i].name == c.key;
      LookupFinds(fields, o, i, 0);
      ObjectsAreHeld(c, c.root, o, true);
      FieldReturns(c, fields[i], o.values[i]);
      assert Holds(c, EncodeObject(c, o.cls, o, true).value.entries, fields[i], o.values[i], true);
      hide EncodeObject, Fits, Named, EncodeField, DecodeField;
    }
  }

  /**
   * Round trip: a well-typed model serializes exactly when its key holds something, its document then deserializes to
   * its restored form, through nested objects, arrays, concepts, geometry and derived types, and that is the model
   * itself exactly when no concept in it is empty and no undefined field of it is assigned by a constructor.
   */
  lemma SerializedDeserializes(c: Codec, o: Value)
    requires Storable(c, o)
    ensures Serialize(c, o).Some? <==> !Empty(Get(c, o, c.key))
    ensures Serialize(c, o).Some? ==>
              && Serialize(c, o).value.BDocument?
              && Deserialize(c, Serialize(c, o).value) == Some(Restored(c, o))
              && (Deserialize(c, Serialize(c, o).value) == Some(o) <==> Intact(c, o))
  {
    KeyedModelsSerialize(c, o);
    if Serialize(c, o).Some? {
      assert Find(Serialize(c, o).value.entries, ID).Some?;
      hide EncodeObject, DecodeObject, Fits, Named, Serialize, Restored, Intact;
      ObjectsReturn(c, c.root, o, true);
      IntactReturns(c, o);
    }
  }
}
