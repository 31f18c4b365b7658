/**
 * What is found in the database, literally: the names documents use, the representation of each value, and what else a
 * reader accepts (Source/MongoDB/MongoDocumentCodec.ts:72-162 and MongoGeoJSON.ts:9-45). A round trip alone would allow
 * any other names and forms.
 */
module MongoStoredForms {
  import opened Options
  import opened MongoDocumentCodec
  import GeoJSON = MongoGeoJSON

  // ---- geometry ---------------------------------------------------------------------------------

  /** A coordinate pair, longitude before latitude. */
  ghost predicate Pair(j: GeoJSON.Json, p: GeoJSON.Position) {
    j == GeoJSON.Items([GeoJSON.Scalar(p.longitude), GeoJSON.Scalar(p.latitude)])
  }

  /** One pair for each point, in order. */
  ghost predicate Pairs(j: GeoJSON.Json, points: seq<GeoJSON.Position>) {
    j.Items? && |j.items| == |points| && forall i :: 0 <= i < |points| ==> Pair(j.items[i], points[i])
  }

  /** The shell, then the holes. */
  ghost predicate Rings(j: GeoJSON.Json, rings: seq<seq<GeoJSON.Position>>) {
    j.Items? && |j.items| == |rings| && forall i :: 0 <= i < |rings| ==> Pairs(j.items[i], rings[i])
  }

  lemma {:induction false} PositionsArePairs(s: seq<GeoJSON.Position>)
    requires GeoJSON.EncodePositions(s).Some?
    ensures Pairs(GeoJSON.Items(GeoJSON.EncodePositions(s).value), s)
  {
    if s != [] { PositionsArePairs(s[1..]); }
  }

  lemma {:induction false} RingsArePairs(rings: seq<seq<GeoJSON.Position>>)
    requires GeoJSON.EncodeRings(rings).Some?
    ensures Rings(GeoJSON.Items(GeoJSON.EncodeRings(rings).value), rings)
  {
    if rings != [] {
      PositionsArePairs(rings[0]);
      RingsArePairs(rings[1..]);
    }
  }

  /** The documents of RFC 7946, sections 3.1.2, 3.1.4 and 3.1.6, with their literal types. */
  lemma GeometriesAreStoredAs(g: GeoJSON.Geometry)
    requires GeoJSON.Encode(g).Some?
    ensures var j := GeoJSON.Encode(g).value;
            match g
            case Point(p) => j.Document? && j.kind == Some("Point") && Pair(j.coordinates, p)
            case LineString(points) => j.Document? && j.kind == Some("LineString") && Pairs(j.coordinates, points)
            case Polygon(shell, holes) => j.Document? && j.kind == Some("Polygon") && Rings(j.coordinates, [shell] + holes)
  {
    match g
    case Point(_) =>
    case LineString(points) => PositionsArePairs(points);
    case Polygon(shell, holes) => RingsArePairs([shell] + holes);
  }

  // ---- values -----------------------------------------------------------------------------------

  /** How many dashes of a Guid stand before its `i`-th digit. */
  function Dashes(i: nat): nat {
    if i < 8 then 0 else if i < 12 then 1 else if i < 16 then 2 else if i < 20 then 3 else 4
  }

  /** A Guid is stored as its digits, in lower case and in order. */
  lemma GuidsAreStoredAs(c: Codec, g: string)
    requires IsGuid(g)
    ensures var b := EncodeValue(c, Guid, Uuid(g));
            && b.Some? && b.value.Binary? && |b.value.hex| == 32
            && forall i :: 0 <= i < 32 ==> b.value.hex[i] == ToLower(g[i + Dashes(i)]) && IsHex(b.value.hex[i])
  {
    var digits := Digits(g);
    assert |digits| == 32 && forall i :: 0 <= i < 32 ==> digits[i] == g[i + Dashes(i)];
  }

  /** Days are stored at noon, times of day on the first day of the epoch, lengths of time as their text. */
  lemma TimesAreStoredAs(c: Codec, v: Value)
    ensures v.Day? ==> EncodeValue(c, DateOnly, v) == Some(Instant(v.day, 12 * 60 * 60 * 1000))
    ensures v.Time? ==> EncodeValue(c, TimeOnly, v) == Some(Instant(0, v.milliseconds))
    ensures v.Span? ==> EncodeValue(c, TimeSpan, v) == Some(BText(v.span))
  {
  }

  /** A concept's declared type, without the concepts. */
  function Underlying(t: Type): Type {
    if t.Concept? then Underlying(t.of) else t
  }

  /** The value is wrapped as often as its type says. */
  predicate Wraps(t: Type, v: Value) {
    if t.Concept? then v.Wrapped? && v.concept == t.id && Wraps(t.of, v.inner) else !v.Wrapped?
  }

  /** However many concepts wrap it, a value is stored as if none did; so is one that was not wrapped at all. */
  lemma {:induction false} ConceptsAreStoredAsTheirCore(c: Codec, t: Type, v: Value)
    requires Wraps(t, v)
    ensures EncodeValue(c, t, v) == EncodeValue(c, Underlying(t), Core(v))
    ensures EncodeValue(c, t, Core(v)) == EncodeValue(c, Underlying(t), Core(v))
    decreases t
  {
    if t.Concept? {
      ConceptsAreStoredAsTheirCore(c, t.of, v.inner);
      CoreIsBare(v);
    }
  }

  /** Numbers are read back from the driver's wide types only where that is exact; nothing else is a number. */
  lemma NumbersAreReadExactly(c: Codec, b: Bson)
    requires !b.BUndefined? && !b.BNull?
    ensures var r := DecodeValue(c, Number, b);
            && (r.Some? ==> r.value.Num? && r.value.number.Finite?)
            && (r.Some? <==> b.Verbatim? &&
                             ((b.value.Num? && b.value.number.Finite?)
                              || (b.value.Long? && -9007199254740991 <= b.value.integer <= 9007199254740991)
                              || (b.value.Decimal? && b.value.exact.Some?)))
            && (r.Some? && b.value.Num? ==> r.value == b.value)
            && (r.Some? && b.value.Long? ==> r.value.number.value == b.value.integer as real)
            && (r.Some? && b.value.Decimal? ==> r.value.number.value == b.value.exact.value)
  {
  }

  // ---- derived types ----------------------------------------------------------------------------

  /** The class that a document is read as: the first derived type its identifier names, when it has one that matters. */
  lemma {:induction false} DerivedTypesAreFound(c: Codec, candidates: seq<ClassId>, id: string)
    ensures var r := FindDerived(c, candidates, id);
            && (r.None? <==> forall i :: 0 <= i < |candidates| ==> !Names(c, candidates[i], id))
            && (r.Some? ==> exists i :: 0 <= i < |candidates| && candidates[i] == r.value && Names(c, r.value, id)
                                        && forall j :: 0 <= j < i ==> !Names(c, candidates[j], id))
  {
    if candidates != [] && !Names(c, candidates[0], id) {
      DerivedTypesAreFound(c, candidates[1..], id);
      assert forall i :: 0 < i < |candidates| ==> candidates[i] == candidates[1..][i - 1];
      var r := FindDerived(c, candidates[1..], id);
      if r.Some? {
        var i :| 0 <= i < |candidates[1..]| && candidates[1..][i] == r.value && Names(c, r.value, id)
                 && forall j :: 0 <= j < i ==> !Names(c, candidates[1..][j], id);
        assert candidates[i + 1] == r.value;
      }
    }
  }

  lemma LowerKeepsGuids(s: string)
    requires IsGuid(s)
    ensures IsGuid(Lower(s)) && Lower(Lower(s)) == Lower(s)
  {
  }

  /** Identifiers that are Guids select the same class in any case; other identifiers are compared as they are. */
  lemma {:induction false} IdentifiersIgnoreCase(c: Codec, candidates: seq<ClassId>, id: string)
    requires IsGuid(id)
    ensures FindDerived(c, candidates, id) == FindDerived(c, candidates, Lower(id))
  {
    LowerKeepsGuids(id);
    if candidates != [] {
      var declared := ClassOf(c, candidates[0]).derived;
      assert declared.Some? ==> (SameId(declared.value, id) <==> SameId(declared.value, Lower(id))) by {
        if declared.Some? && !IsGuid(declared.value) { assert declared.value != id && declared.value != Lower(id); }
      }
      IdentifiersIgnoreCase(c, candidates[1..], id);
    }
  }

  /**
   * A document without an identifier, or for a class that has no derived types, is read as the declared class; one whose
   * identifier names none of them is refused.
   */
  lemma UnknownTypesAreRefused(c: Codec, cls: ClassId, b: Bson, root: bool)
    requires b.BDocument?
    ensures var id := Find(b.entries, "_derivedTypeId");
            var known := ClassOf(c, cls).derivatives;
            && (id.None? || known == [] ==> Actual(c, cls, b.entries) == Some(cls))
            && (id.Some? && id.value.BText? && known != [] ==>
                  Actual(c, cls, b.entries) == FindDerived(c, known, id.value.text)
                  && ((forall i :: 0 <= i < |known| ==> !Names(c, known[i], id.value.text)) ==> DecodeObject(c, cls, b, root).None?))
  {
    var id := Find(b.entries, DERIVED);
    if id.Some? && id.value.BText? { DerivedTypesAreFound(c, ClassOf(c, cls).derivatives, id.value.text); }
  }

  // ---- documents --------------------------------------------------------------------------------

  /** The name a property has in the document: the key's own, or what the naming policy makes of it. */
  function Stored(c: Codec, name: string): string {
    if name == c.key then "_id" else c.policy(name)
  }

  lemma RootNames(c: Codec, field: Field)
    ensures NameOf(c, field, true) == Stored(c, field.name)
  {
  }

  /** In a document, under these names, stands what is said here of every name. */
  ghost predicate Entries(c: Codec, entries: seq<Entry>, o: Value)
    requires o.Object? && |o.values| == |ClassOf(c, o.cls).fields|
  {
    var cls := ClassOf(c, o.cls);
    && (forall i :: 0 <= i < |o.values| && !o.values[i].Undefined? ==>
                      EncodeField(c, cls.fields[i], o.values[i]).Some?
                      && Find(entries, Stored(c, cls.fields[i].name)) == EncodeField(c, cls.fields[i], o.values[i]))
    && (cls.derived.Some? ==> Find(entries, "_derivedTypeId") == Some(BText(cls.derived.value)))
    && forall name :: ((forall i :: 0 <= i < |o.values| && !o.values[i].Undefined? ==> Stored(c, cls.fields[i].name) != name)
                       && (name == "_derivedTypeId" ==> cls.derived.None?)) ==> Find(entries, name).None?
  }

  /**
   * A stored model: the key under `_id`, every other property that is defined under its policy name, the identifier of a
   * derived type under `_derivedTypeId`, and nothing else.
   */
  lemma DocumentsHoldExactly(c: Codec, o: Value)
    requires Storable(c, o) && Serialize(c, o).Some?
    ensures Serialize(c, o).value.BDocument? && Entries(c, Serialize(c, o).value.entries, o)
    ensures Find(Serialize(c, o).value.entries, "_id").Some?
  {
    KeyedModelsSerialize(c, o);
    ObjectsAreHeld(c, c.root, o, true);
    FieldsAreHeld(c, o, true, |o.values|);
    var cls := ClassOf(c, o.cls);
    var before := EncodeFields(c, cls.fields, o, true, |cls.fields|).value;
    var entries := Serialize(c, o).value.entries;
    assert Find(entries, "_id").Some? by { hide EncodeObject, Find; }
    hide EncodeField, EncodeFields, Find, Put, Fits, Named, Serialize, Lookup;
    forall name ensures Find(entries, name) ==
                        if cls.derived.Some? && name == DERIVED then Some(BText(cls.derived.value)) else Find(before, name)
    {
      if cls.derived.Some? { FindPut(before, DERIVED, BText(cls.derived.value), name); }
    }
    OthersAreAbsent(c, before, entries, o);
  }

  lemma OthersAreAbsent(c: Codec, before: seq<Entry>, entries: seq<Entry>, o: Value)
    requires o.Object? && |o.values| == |ClassOf(c, o.cls).fields| && HoldsFirst(c, before, o, true, |o.values|)
    requires var derived := ClassOf(c, o.cls).derived;
             forall name :: Find(entries, name) == if derived.Some? && name == DERIVED then Some(BText(derived.value)) else Find(before, name)
    requires forall i :: 0 <= i < |o.values| ==> NameOf(c, ClassOf(c, o.cls).fields[i], true) != DERIVED
    ensures Entries(c, entries, o)
  {
    hide EncodeField, Find;
    var cls := ClassOf(c, o.cls);
    forall i | 0 <= i < |o.values| && !o.values[i].Undefined?
      ensures EncodeField(c, cls.fields[i], o.values[i]).Some?
              && Find(entries, Stored(c, cls.fields[i].name)) == EncodeField(c, cls.fields[i], o.values[i])
    {
      assert Holds(c, before, cls.fields[i], o.values[i], true);
    }
    forall name | (forall i :: 0 <= i < |o.values| && !o.values[i].Undefined? ==> Stored(c, cls.fields[i].name) != name)
                  && (name == "_derivedTypeId" ==> cls.derived.None?)
      ensures Find(entries, name).None?
    {
      if i :| 0 <= i < |o.values| && NameOf(c, cls.fields[i], true) == name { assert Holds(c, before, cls.fields[i], o.values[i], true); }
    }
  }
}
