/**
 * The registration request body: a `PushConfig` serialised by Gson under an
 * exclusion strategy that keeps only a fixed whitelist of `PushConfig`'s own
 * fields. The JSON text itself is not modelled, only which fields (with their
 * values) reach it.
 */
module PushPayload {
  /** The class a field is declared in (`FieldAttributes.getDeclaringClass()`). */
  datatype DeclaringClass = PushConfigClass | OtherClass(qualifiedName: string)

  datatype FieldValue = Text(s: string) | TextSet(items: set<string>)

  /** A field as Gson's reflection sees it: where it is declared, its name and its value. */
  datatype Field = Field(declaringClass: DeclaringClass, name: string, value: FieldValue)

  /** The five `PushConfig` fields the registration endpoint receives. */
  const SERIALIZED_FIELD_NAMES: set<string> :=
    {"deviceToken", "deviceType", "alias", "mobileOperatingSystem", "osVersion"}

  /** The exclusion strategy's `shouldSkipField`. */
  predicate ShouldSkipField(f: Field) {
    !(f.declaringClass == PushConfigClass && f.name in SERIALIZED_FIELD_NAMES)
  }

  /** The fields Gson writes, in the order it visits them. */
  function SerializedFields(fields: seq<Field>): (kept: seq<Field>)
    ensures |kept| <= |fields|
    ensures forall f {:trigger f in kept} :: f in kept ==> f in fields
  {
    if fields == [] then []
    else if ShouldSkipField(fields[0]) then SerializedFields(fields[1..])
    else [fields[0]] + SerializedFields(fields[1..])
  }

  /**
   * A field reaches the request body iff the object has it, it is declared
   * by `PushConfig` itself and its name is on the whitelist.
   */
  lemma {:induction false} SerializedFieldsAreWhitelisted(fields: seq<Field>)
    ensures forall f :: f in SerializedFields(fields) <==>
      f in fields && f.declaringClass == PushConfigClass && f.name in SERIALIZED_FIELD_NAMES
  {
    if fields != [] {
      SerializedFieldsAreWhitelisted(fields[1..]);
      assert fields == [fields[0]] + fields[1..];
    }
  }

  /**
   * Serialising a concatenation serialises each part in turn, so the kept
   * fields stay in the order the object declares them.
   */
  lemma {:induction false} SerializedFieldsOfConcat(a: seq<Field>, b: seq<Field>)
    ensures SerializedFields(a + b) == SerializedFields(a) + SerializedFields(b)
  {
    if a != [] {
      assert (a + b)[1..] == a[1..] + b;
      SerializedFieldsOfConcat(a[1..], b);
    } else {
      assert a + b == b;
    }
  }

  /** No two fields share a declaring class and a name, as Java guarantees for one object. */
  predicate DeclaredOnce(fields: seq<Field>) {
    forall i, j :: 0 <= i < j < |fields| ==>
      fields[i].declaringClass != fields[j].declaringClass || fields[i].name != fields[j].name
  }

  function FieldNames(fields: seq<Field>): set<string> {
    set f | f in fields :: f.name
  }

  lemma DeclaredOnceTail(fields: seq<Field>)
    requires fields != [] && DeclaredOnce(fields)
    ensures DeclaredOnce(fields[1..])
  {
    var rest := fields[1..];
    forall i, j | 0 <= i < j < |rest|
      ensures rest[i].declaringClass != rest[j].declaringClass || rest[i].name != rest[j].name
    {
      assert rest[i] == fields[i + 1] && rest[j] == fields[j + 1];
    }
  }

  /** A kept field's name is not taken by any field serialised after it. */
  lemma NameNotRepeated(fields: seq<Field>)
    requires fields != [] && DeclaredOnce(fields) && !ShouldSkipField(fields[0])
    ensures fields[0].name !in FieldNames(SerializedFields(fields[1..]))
  {
    var f, rest := fields[0], fields[1..];
    var tail := SerializedFields(rest);
    SerializedFieldsAreWhitelisted(rest);
    forall g | g in tail ensures g.name != f.name {
      var j :| 0 <= j < |rest| && rest[j] == g;
      assert fields[j + 1] == g;
    }
  }

  /** The serialised fields of a real object have distinct, whitelisted names. */
  lemma {:induction false} SerializedNamesDistinct(fields: seq<Field>)
    requires DeclaredOnce(fields)
    ensures FieldNames(SerializedFields(fields)) <= SERIALIZED_FIELD_NAMES
    ensures |FieldNames(SerializedFields(fields))| == |SerializedFields(fields)|
  {
    if fields != [] {
      DeclaredOnceTail(fields);
      SerializedNamesDistinct(fields[1..]);
      var f, tail := fields[0], SerializedFields(fields[1..]);
      if !ShouldSkipField(f) {
        NameNotRepeated(fields);
        assert SerializedFields(fields) == [f] + tail;
        assert FieldNames([f] + tail) == {f.name} + FieldNames(tail);
      } else {
        assert SerializedFields(fields) == tail;
      }
    }
  }

  lemma {:induction false} SubsetCardinality(a: set<string>, b: set<string>)
    requires a <= b
    ensures |a| <= |b|
  {
    if a != {} {
      var x :| x in a;
      SubsetCardinality(a - {x}, b - {x});
    }
  }

  /** Whatever fields an object declares, the request body carries at most five. */
  lemma PayloadHasAtMostFiveFields(fields: seq<Field>)
    requires DeclaredOnce(fields)
    ensures |SerializedFields(fields)| <= 5
  {
    SerializedNamesDistinct(fields);
    SubsetCardinality(FieldNames(SerializedFields(fields)), SERIALIZED_FIELD_NAMES);
  }

  lemma SkipFirst(fields: seq<Field>)
    requires fields != [] && ShouldSkipField(fields[0])
    ensures SerializedFields(fields) == SerializedFields(fields[1..])
  {
  }

  lemma KeepFirst(fields: seq<Field>)
    requires fields != [] && !ShouldSkipField(fields[0])
    ensures SerializedFields(fields) == [fields[0]] + SerializedFields(fields[1..])
  {
  }

  /** A suffix whose fields are all kept is serialised unchanged. */
  lemma {:induction false} KeptSuffix(fields: seq<Field>, n: nat)
    requires n <= |fields|
    requires forall k :: n <= k < |fields| ==> !ShouldSkipField(fields[k])
    ensures SerializedFields(fields[n..]) == fields[n..]
    decreases |fields| - n
  {
    if n < |fields| {
      KeptSuffix(fields, n + 1);
      KeepFirst(fields[n..]);
      assert fields[n..][1..] == fields[n + 1..];
    }
  }

  /** The declared fields of a `PushConfig` holding the given values. */
  function PushConfigFields(senderIds: set<string>, mobileVariantId: string, deviceToken: string,
                            deviceType: string, alias: string, mobileOperatingSystem: string,
                            osVersion: string): seq<Field>
  {
    [ Field(PushConfigClass, "senderIds", TextSet(senderIds)),
      Field(PushConfigClass, "mobileVariantId", Text(mobileVariantId)),
      Field(PushConfigClass, "deviceToken", Text(deviceToken)),
      Field(PushConfigClass, "deviceType", Text(deviceType)),
      Field(PushConfigClass, "alias", Text(alias)),
      Field(PushConfigClass, "mobileOperatingSystem", Text(mobileOperatingSystem)),
      Field(PushConfigClass, "osVersion", Text(osVersion)) ]
  }

  /**
   * The body sent for a configuration is its five whitelisted fields with
   * their current values, in declaration order; the sender ids and the
   * variant id never reach it.
   */
  lemma PayloadIsWhitelist(senderIds: set<string>, mobileVariantId: string, deviceToken: string,
                           deviceType: string, alias: string, mobileOperatingSystem: string,
                           osVersion: string)
    ensures SerializedFields(PushConfigFields(senderIds, mobileVariantId, deviceToken, deviceType,
                                             alias, mobileOperatingSystem, osVersion)) ==
      [ Field(PushConfigClass, "deviceToken", Text(deviceToken)),
        Field(PushConfigClass, "deviceType", Text(deviceType)),
        Field(PushConfigClass, "alias", Text(alias)),
        Field(PushConfigClass, "mobileOperatingSystem", Text(mobileOperatingSystem)),
        Field(PushConfigClass, "osVersion", Text(osVersion)) ]
  {
    var fields := PushConfigFields(senderIds, mobileVariantId, deviceToken, deviceType,
                                   alias, mobileOperatingSystem, osVersion);
    assert SerializedFields(fields) == SerializedFields(fields[2..]) by {
      SkipFirst(fields);
      SkipFirst(fields[1..]);
      assert fields[1..][1..] == fields[2..];
    }
    KeptSuffix(fields, 2);
  }

  /**
   * The registration configuration, restricted to the fields the registrar
   * reads or writes.
   */
  class PushConfig {
    var senderIds: set<string>
    var mobileVariantId: string
    var deviceToken: string
    var deviceType: string
    var alias: string
    var mobileOperatingSystem: string
    var osVersion: string

    /** A fresh configuration has no device token yet; `""` stands in for Java's `null`. */
    constructor (senderIds: set<string>, mobileVariantId: string, deviceType: string,
                 alias: string, mobileOperatingSystem: string, osVersion: string)
      ensures this.senderIds == senderIds && this.mobileVariantId == mobileVariantId
      ensures deviceToken == ""
      ensures this.deviceType == deviceType && this.alias == alias
      ensures this.mobileOperatingSystem == mobileOperatingSystem && this.osVersion == osVersion
    {
      this.senderIds := senderIds;
      this.mobileVariantId := mobileVariantId;
      this.deviceToken := "";
      this.deviceType := deviceType;
      this.alias := alias;
      this.mobileOperatingSystem := mobileOperatingSystem;
      this.osVersion := osVersion;
    }

    /** `setDeviceToken`. */
    method SetDeviceToken(token: string)
      modifies this
      ensures deviceToken == token
      ensures senderIds == old(senderIds) && mobileVariantId == old(mobileVariantId)
      ensures deviceType == old(deviceType) && alias == old(alias)
      ensures mobileOperatingSystem == old(mobileOperatingSystem) && osVersion == old(osVersion)
    {
      deviceToken := token;
    }

    /** The fields reflection finds on this object. */
    function DeclaredFields(): seq<Field>
      reads this
    {
      PushConfigFields(senderIds, mobileVariantId, deviceToken, deviceType,
                       alias, mobileOperatingSystem, osVersion)
    }

    /** The request body for this configuration. */
    function Payload(): seq<Field>
      reads this
    {
      SerializedFields(DeclaredFields())
    }
  }
}
