/**
 * Downgrade queries of AMWA IS-04 (NMOS Discovery and Registration) v1.2,
 * "APIs - Query Parameters": whether a resource registered under one API
 * version may be returned to a client asking for another, and how its
 * document is cut down to the properties the requested version defines.
 */
module ApiDowngrade {
  import opened ApiVersions
  import opened Json
  import opened Resources

  // ---------------------------------------------------------------------------
  // Which resources may be returned
  // ---------------------------------------------------------------------------

  /**
   * Whether a resource registered under `resourceVersion` may be returned at
   * the requested `version`, when the client accepts any version down to
   * `downgradeVersion`: never across major versions, never as an upgrade,
   * and a subscription only at the very version it was created under.
   */
  function IsPermittedDowngrade(resourceVersion: ApiVersion, resourceType: ResourceType,
                                version: ApiVersion, downgradeVersion: ApiVersion): (permitted: bool)
    ensures permitted ==> resourceVersion.major == version.major == downgradeVersion.major
    ensures permitted ==> LessEq(downgradeVersion, resourceVersion)
  {
    if version.major != downgradeVersion.major then false
    else if resourceVersion.major != version.major then false
    else if resourceVersion.minor < downgradeVersion.minor then false
    else if resourceType == Subscription && version != resourceVersion then false
    else true
  }

  /** The overload taking the resource record itself. */
  function IsPermittedDowngradeOf(resource: Resource, version: ApiVersion, downgradeVersion: ApiVersion): (permitted: bool)
    ensures permitted ==> resource.version.major == version.major
    ensures permitted ==> LessEq(downgradeVersion, resource.version)
  {
    IsPermittedDowngrade(resource.version, resource.resourceType, version, downgradeVersion)
  }

  /**
   * The overload without a separate floor: the requested version is also the
   * lowest acceptable one, so only resources of that major version registered
   * at or after the requested minor version qualify, and subscriptions only at
   * exactly the requested version.
   */
  function IsPermittedDowngradeAt(resource: Resource, version: ApiVersion): (permitted: bool)
    ensures permitted <==>
      && resource.version.major == version.major
      && version.minor <= resource.version.minor
      && (resource.resourceType == Subscription ==> resource.version == version)
  {
    IsPermittedDowngradeOf(resource, version, version)
  }

  /** "Downgrade queries may not be performed between major API versions." */
  lemma CrossMajorNeverPermitted(resourceVersion: ApiVersion, resourceType: ResourceType,
                                 version: ApiVersion, downgradeVersion: ApiVersion)
    requires version.major != downgradeVersion.major
    ensures !IsPermittedDowngrade(resourceVersion, resourceType, version, downgradeVersion)
  {
  }

  /** A resource of another major version than the one requested is never returned. */
  lemma ResourceMajorMismatchNeverPermitted(resourceVersion: ApiVersion, resourceType: ResourceType,
                                            version: ApiVersion, downgradeVersion: ApiVersion)
    requires resourceVersion.major != version.major
    ensures !IsPermittedDowngrade(resourceVersion, resourceType, version, downgradeVersion)
  {
  }

  /** Never an upgrade: a resource older than the floor is not returned. */
  lemma NeverUpgrade(resourceVersion: ApiVersion, resourceType: ResourceType,
                     version: ApiVersion, downgradeVersion: ApiVersion)
    requires resourceVersion.minor < downgradeVersion.minor
    ensures !IsPermittedDowngrade(resourceVersion, resourceType, version, downgradeVersion)
  {
  }

  /** Subscriptions are returned only at the version they were created under. */
  lemma SubscriptionOnlyAtOwnVersion(resourceVersion: ApiVersion, version: ApiVersion, downgradeVersion: ApiVersion)
    requires IsPermittedDowngrade(resourceVersion, Subscription, version, downgradeVersion)
    ensures version == resourceVersion
  {
  }

  /**
   * The converse of the guards: a resource that shares the major version,
   * is not older than the floor and is not a subscription asked for at
   * another version is returned, whatever its type.
   */
  lemma PermittedWhenGuardsPass(resourceVersion: ApiVersion, resourceType: ResourceType,
                                version: ApiVersion, downgradeVersion: ApiVersion)
    requires resourceVersion.major == version.major == downgradeVersion.major
    requires downgradeVersion.minor <= resourceVersion.minor
    requires resourceType == Subscription ==> version == resourceVersion
    ensures IsPermittedDowngrade(resourceVersion, resourceType, version, downgradeVersion)
  {
  }

  /** Lowering the floor within a major version never withdraws a permission. */
  lemma LowerFloorStillPermitted(resourceVersion: ApiVersion, resourceType: ResourceType,
                                 version: ApiVersion, floor: ApiVersion, lowerFloor: ApiVersion)
    requires IsPermittedDowngrade(resourceVersion, resourceType, version, floor)
    requires lowerFloor.major == floor.major && lowerFloor.minor <= floor.minor
    ensures IsPermittedDowngrade(resourceVersion, resourceType, version, lowerFloor)
  {
  }

  // ---------------------------------------------------------------------------
  // The property-introduction table
  // ---------------------------------------------------------------------------

  /** The top-level properties first defined at `version`. */
  datatype Entry = Entry(version: ApiVersion, properties: seq<string>)

  /** Entries keyed by strictly increasing versions, like the keys of an ordered map. */
  predicate StrictlySorted(entries: seq<Entry>)
  {
    forall i, j :: 0 <= i < j < |entries| ==> Less(entries[i].version, entries[j].version)
  }

  /**
   * For each resource type, the version in which each top-level property
   * was added to the specification, in increasing version order. Every type
   * starts at v1.0 with its "id".
   */
  function ResourcesVersions(resourceType: ResourceType): (entries: seq<Entry>)
    ensures StrictlySorted(entries)
    ensures |entries| > 0 && entries[0].version == V1_0 && "id" in entries[0].properties
  {
    match resourceType
    case Node => [
      Entry(V1_0, ["id", "version", "label", "href", "hostname", "caps", "services"]),
      Entry(V1_1, ["description", "tags", "api", "clocks"]),
      Entry(V1_2, ["interfaces"])]
    case Device => [
      Entry(V1_0, ["id", "version", "label", "type", "node_id", "senders", "receivers"]),
      Entry(V1_1, ["description", "tags", "controls"])]
    case Source => [
      Entry(V1_0, ["id", "version", "label", "description", "format", "caps", "tags", "device_id", "parents"]),
      Entry(V1_1, ["grain_rate", "clock_name", "channels"])]
    case Flow => [
      Entry(V1_0, ["id", "version", "label", "description", "format", "tags", "source_id", "parents"]),
      Entry(V1_1, ["grain_rate", "device_id", "media_type", "sample_rate", "bit_depth", "DID_SDID",
                   "frame_width", "frame_height", "interlace_mode", "colorspace",
                   "transfer_characteristic", "components"])]
    case Sender => [
      Entry(V1_0, ["id", "version", "label", "description", "flow_id", "transport", "tags", "device_id", "manifest_href"]),
      Entry(V1_2, ["caps", "interface_bindings", "subscription"])]
    case Receiver => [
      Entry(V1_0, ["id", "version", "label", "description", "format", "caps", "tags", "device_id", "transport", "subscription"]),
      Entry(V1_2, ["interface_bindings"])]
    case Subscription => [
      Entry(V1_0, ["id", "ws_href", "max_update_rate_ms", "persist", "resource_path", "params"]),
      Entry(V1_1, ["secure"])]
  }

  /**
   * The ordered map's upper bound: the number of leading entries whose
   * version is at most `version`; every later entry is newer.
   */
  function UpperBound(entries: seq<Entry>, version: ApiVersion): (n: nat)
    requires StrictlySorted(entries)
    ensures n <= |entries|
    ensures forall i :: 0 <= i < n ==> LessEq(entries[i].version, version)
    ensures forall i :: n <= i < |entries| ==> Less(version, entries[i].version)
    decreases |entries|
  {
    if entries == [] || Less(version, entries[0].version) then 0
    else 1 + UpperBound(entries[1..], version)
  }

  /** The names occurring in a list of property names. */
  function Elements(names: seq<string>): set<string>
  {
    set k | k in names
  }

  /** Every property listed by some entry of `entries`. */
  function Listed(entries: seq<Entry>): set<string>
  {
    set i, p | 0 <= i < |entries| && p in entries[i].properties :: p
  }

  /** Every property listed by an entry of `entries` whose version is at most `version`. */
  function ListedUpTo(entries: seq<Entry>, version: ApiVersion): set<string>
  {
    set i, p | 0 <= i < |entries| && LessEq(entries[i].version, version) && p in entries[i].properties :: p
  }

  /** The top-level properties a resource of this type has at `version`. */
  function Selected(resourceType: ResourceType, version: ApiVersion): set<string>
  {
    ListedUpTo(ResourcesVersions(resourceType), version)
  }

  /**
   * The document cut down to the named top-level properties, values copied
   * unchanged; null when no named property is present (an object only
   * comes into being with its first property).
   */
  function Project(data: JsonValue, names: set<string>): JsonValue
  {
    if data.Object? && data.fields.Keys * names != {} then
      Object(map k | k in data.fields.Keys * names :: data.fields[k])
    else
      Null
  }

  // ---------------------------------------------------------------------------
  // Downgrading a document
  // ---------------------------------------------------------------------------

  /**
   * The representation of a resource's document at the requested version:
   * null when the resource may not be returned, the document itself when
   * the resource is not newer than the requested version, otherwise only
   * the properties that existed at the requested version.
   */
  function Downgraded(resourceVersion: ApiVersion, resourceType: ResourceType, data: JsonValue,
                      version: ApiVersion, downgradeVersion: ApiVersion): JsonValue
  {
    if !IsPermittedDowngrade(resourceVersion, resourceType, version, downgradeVersion) then Null
    else if LessEq(resourceVersion, version) then data
    else Project(data, Selected(resourceType, version))
  }

  /**
   * The downgrade itself: after the permission check and the shortcut for
   * resources that need no downgrade, walks the table entries up to the
   * upper bound of the requested version and copies each listed property
   * the document has into a result that starts out null.
   */
  method Downgrade(resourceVersion: ApiVersion, resourceType: ResourceType, data: JsonValue,
                   version: ApiVersion, downgradeVersion: ApiVersion) returns (result: JsonValue)
    ensures result == Downgraded(resourceVersion, resourceType, data, version, downgradeVersion)
  {
    if !IsPermittedDowngrade(resourceVersion, resourceType, version, downgradeVersion) {
      return Null;
    }
    if LessEq(resourceVersion, version) {
      return data;
    }
    var entries := ResourcesVersions(resourceType);
    var last := UpperBound(entries, version);
    result := CopyListed(data, entries, last);
    ListedPrefixIsSelected(entries, version, last);
  }

  /**
   * The nested loops of the downgrade: for each of the first `last` entries,
   * for each property it lists, `result[property] = data.at(property)` when
   * the document has that property, starting from a null result.
   */
  method CopyListed(data: JsonValue, entries: seq<Entry>, last: nat) returns (result: JsonValue)
    requires last <= |entries|
    ensures result == Project(data, Listed(entries[..last]))
  {
    result := Null;
    var i := 0;
    while i < last
      invariant 0 <= i <= last
      invariant result == Project(data, Listed(entries[..i]))
    {
      var properties := entries[i].properties;
      var j := 0;
      while j < |properties|
        invariant 0 <= j <= |properties|
        invariant result == Project(data, Listed(entries[..i]) + Elements(properties[..j]))
      {
        var property := properties[j];
        var names := Listed(entries[..i]) + Elements(properties[..j]);
        ProjectInsert(data, Listed(entries[..i]) + Elements(properties[..j]), property);
        if HasField(data, property) {
          result := SetField(result, property, data.fields[property]);
        }
        assert Elements(properties[..j + 1]) == Elements(properties[..j]) + {property} by {
          assert properties[..j + 1] == properties[..j] + [property];
        }
        assert Listed(entries[..i]) + Elements(properties[..j + 1]) == names + {property};
        assert result == Project(data, names + {property});
        j := j + 1;
      }
      assert properties[..j] == properties;
      ListedSnoc(entries, i);
      i := i + 1;
    }
  }

  /** The overload taking the resource record itself. */
  method DowngradeOf(resource: Resource, version: ApiVersion, downgradeVersion: ApiVersion) returns (result: JsonValue)
    ensures result == Downgraded(resource.version, resource.resourceType, resource.data, version, downgradeVersion)
  {
    result := Downgrade(resource.version, resource.resourceType, resource.data, version, downgradeVersion);
  }

  /**
   * The overload without a separate floor: null for a resource that may not
   * be returned at `version`, and the document as registered when asked for
   * at its own version.
   */
  method DowngradeAt(resource: Resource, version: ApiVersion) returns (result: JsonValue)
    ensures result == Downgraded(resource.version, resource.resourceType, resource.data, version, version)
    ensures !IsPermittedDowngradeAt(resource, version) ==> result.Null?
    ensures resource.version == version ==> result == resource.data
  {
    result := DowngradeOf(resource, version, version);
  }

  // ---------------------------------------------------------------------------
  // Lemmas behind the loops
  // ---------------------------------------------------------------------------

  /** Adding one name to the projection copies that property if, and only if, the document has it. */
  lemma ProjectInsert(data: JsonValue, names: set<string>, name: string)
    ensures Project(data, names).Null? || Project(data, names).Object?
    ensures Project(data, names + {name}) ==
      if HasField(data, name) then SetField(Project(data, names), name, data.fields[name])
      else Project(data, names)
  {
    if HasField(data, name) {
      var before := Project(data, names);
      var after := Project(data, names + {name});
      assert name in data.fields.Keys * (names + {name});
      assert Fields(after) == Fields(before)[name := data.fields[name]];
    } else if data.Object? {
      assert data.fields.Keys * (names + {name}) == data.fields.Keys * names;
    }
  }

  /** Extending the walked prefix by one entry adds that entry's properties. */
  lemma ListedSnoc(entries: seq<Entry>, i: nat)
    requires i < |entries|
    ensures Listed(entries[..i + 1]) == Listed(entries[..i]) + Elements(entries[i].properties)
  {
    var prefix := entries[..i + 1];
    forall p | p in Listed(entries[..i + 1])
      ensures p in Listed(entries[..i]) || p in entries[i].properties
    {
      var m :| 0 <= m < |prefix| && p in prefix[m].properties;
      if m < i {
        assert entries[..i][m] == prefix[m];
      }
    }
    forall p | p in Listed(entries[..i])
      ensures p in Listed(prefix)
    {
      var m :| 0 <= m < i && p in entries[..i][m].properties;
      assert prefix[m] == entries[..i][m];
    }
    forall p | p in entries[i].properties
      ensures p in Listed(prefix)
    {
      assert prefix[i] == entries[i];
    }
  }

  /** The entries before the upper bound list exactly the properties of entries at or below that version. */
  lemma ListedPrefixIsSelected(entries: seq<Entry>, version: ApiVersion, last: nat)
    requires StrictlySorted(entries)
    requires last == UpperBound(entries, version)
    ensures Listed(entries[..last]) == ListedUpTo(entries, version)
  {
    var prefix := entries[..last];
    forall p | p in Listed(prefix)
      ensures p in ListedUpTo(entries, version)
    {
      var m :| 0 <= m < |prefix| && p in prefix[m].properties;
      assert prefix[m] == entries[m];
    }
    forall p | p in ListedUpTo(entries, version)
      ensures p in Listed(prefix)
    {
      var m :| 0 <= m < |entries| && LessEq(entries[m].version, version) && p in entries[m].properties;
      assert m < last;
      assert prefix[m] == entries[m];
    }
  }

  /** Cutting a document down twice to the same names is the same as cutting it once. */
  lemma ProjectIdempotent(data: JsonValue, names: set<string>)
    ensures Project(Project(data, names), names) == Project(data, names)
  {
    var once := Project(data, names);
    if once.Object? {
      assert once.fields.Keys * names == once.fields.Keys;
    }
  }

  // ---------------------------------------------------------------------------
  // Properties of the downgraded document
  // ---------------------------------------------------------------------------

  /** A resource that may not be returned downgrades to null. */
  lemma NotPermittedDowngradesToNull(resourceVersion: ApiVersion, resourceType: ResourceType, data: JsonValue,
                                     version: ApiVersion, downgradeVersion: ApiVersion)
    requires !IsPermittedDowngrade(resourceVersion, resourceType, version, downgradeVersion)
    ensures Downgraded(resourceVersion, resourceType, data, version, downgradeVersion) == Null
  {
  }

  /** A permitted resource that is not newer than the requested version is returned as it is. */
  lemma NotNewerReturnedUnchanged(resourceVersion: ApiVersion, resourceType: ResourceType, data: JsonValue,
                                  version: ApiVersion, downgradeVersion: ApiVersion)
    requires IsPermittedDowngrade(resourceVersion, resourceType, version, downgradeVersion)
    requires LessEq(resourceVersion, version)
    ensures Downgraded(resourceVersion, resourceType, data, version, downgradeVersion) == data
  {
  }

  /** Asked for at its own version, a permitted resource is returned exactly as registered. */
  lemma OwnVersionReturnedUnchanged(resourceVersion: ApiVersion, resourceType: ResourceType, data: JsonValue,
                                    downgradeVersion: ApiVersion)
    requires IsPermittedDowngrade(resourceVersion, resourceType, resourceVersion, downgradeVersion)
    ensures Downgraded(resourceVersion, resourceType, data, resourceVersion, downgradeVersion) == data
  {
  }

  /**
   * A resource newer than the requested version keeps exactly those of its
   * properties that some table entry at or below the requested version
   * lists for its type, each with its value unchanged: no listed property
   * that is present is dropped and none is invented. The result is an object,
   * or null when no such property is present.
   */
  lemma DowngradedKeepsListedProperties(resourceVersion: ApiVersion, resourceType: ResourceType, data: JsonValue,
                                        version: ApiVersion, downgradeVersion: ApiVersion)
    requires IsPermittedDowngrade(resourceVersion, resourceType, version, downgradeVersion)
    requires Less(version, resourceVersion)
    ensures var r := Downgraded(resourceVersion, resourceType, data, version, downgradeVersion);
      && (r.Null? || r.Object?)
      && (forall name :: name in Fields(r) <==>
            name in Fields(data) &&
            exists i :: 0 <= i < |ResourcesVersions(resourceType)| &&
              LessEq(ResourcesVersions(resourceType)[i].version, version) &&
              name in ResourcesVersions(resourceType)[i].properties)
      && (forall name :: name in Fields(r) ==> Fields(r)[name] == Fields(data)[name])
  {
    var entries := ResourcesVersions(resourceType);
    var names := Selected(resourceType, version);
    var r := Downgraded(resourceVersion, resourceType, data, version, downgradeVersion);
    assert r == Project(data, names);
    assert Fields(r).Keys == Fields(data).Keys * names;
    forall name
      ensures name in names <==>
        exists i :: 0 <= i < |entries| && LessEq(entries[i].version, version) && name in entries[i].properties
    {
    }
  }

  /**
   * Exactly when the downgrade yields null: the resource may not be returned,
   * or it is returned unchanged and its document is null, or it is cut down
   * and its document has none of the properties of the requested version.
   */
  lemma DowngradedNullExactly(resourceVersion: ApiVersion, resourceType: ResourceType, data: JsonValue,
                              version: ApiVersion, downgradeVersion: ApiVersion)
    ensures Downgraded(resourceVersion, resourceType, data, version, downgradeVersion).Null? <==>
      || !IsPermittedDowngrade(resourceVersion, resourceType, version, downgradeVersion)
      || (LessEq(resourceVersion, version) && data.Null?)
      || (Less(version, resourceVersion) && Fields(data).Keys * Selected(resourceType, version) == {})
  {
    LessEqTotal(resourceVersion, version);
    if IsPermittedDowngrade(resourceVersion, resourceType, version, downgradeVersion)
       && Less(version, resourceVersion) && data.Object? && data.fields.Keys * Selected(resourceType, version) != {} {
      var k :| k in data.fields.Keys * Selected(resourceType, version);
      assert k in Fields(Downgraded(resourceVersion, resourceType, data, version, downgradeVersion));
    }
  }

  /**
   * The converse for real resources: a permitted resource whose document is
   * an object carrying an "id" never downgrades to null, since every type
   * has listed "id" since v1.0.
   */
  lemma IdentifiedResourceNeverNull(resourceVersion: ApiVersion, resourceType: ResourceType, data: JsonValue,
                                    version: ApiVersion, downgradeVersion: ApiVersion)
    requires IsPermittedDowngrade(resourceVersion, resourceType, version, downgradeVersion)
    requires HasField(data, "id")
    requires version.major >= 1
    ensures !Downgraded(resourceVersion, resourceType, data, version, downgradeVersion).Null?
  {
    if Less(version, resourceVersion) {
      var entries := ResourcesVersions(resourceType);
      assert LessEq(entries[0].version, version);
      assert "id" in Selected(resourceType, version);
      assert "id" in data.fields.Keys * Selected(resourceType, version);
    }
  }

  /** Downgrading an already downgraded document to the same version changes nothing more. */
  lemma DowngradeIdempotent(resourceVersion: ApiVersion, resourceType: ResourceType, data: JsonValue,
                            version: ApiVersion, downgradeVersion: ApiVersion)
    ensures var once := Downgraded(resourceVersion, resourceType, data, version, downgradeVersion);
      Downgraded(resourceVersion, resourceType, once, version, downgradeVersion) == once
  {
    if IsPermittedDowngrade(resourceVersion, resourceType, version, downgradeVersion)
       && !LessEq(resourceVersion, version) {
      ProjectIdempotent(data, Selected(resourceType, version));
    }
  }

  /** A later requested version selects every property an earlier one does. */
  lemma SelectedGrowsWithVersion(resourceType: ResourceType, earlier: ApiVersion, later: ApiVersion)
    requires LessEq(earlier, later)
    ensures Selected(resourceType, earlier) <= Selected(resourceType, later)
  {
    ListedUpToGrows(ResourcesVersions(resourceType), earlier, later);
  }

  /** Raising the version bound over any entry list only adds properties. */
  lemma ListedUpToGrows(entries: seq<Entry>, earlier: ApiVersion, later: ApiVersion)
    requires LessEq(earlier, later)
    ensures ListedUpTo(entries, earlier) <= ListedUpTo(entries, later)
  {
    forall p | p in ListedUpTo(entries, earlier)
      ensures p in ListedUpTo(entries, later)
    {
      var m :| 0 <= m < |entries| && LessEq(entries[m].version, earlier) && p in entries[m].properties;
      assert LessEq(entries[m].version, later);
    }
  }

  /** A v1.2 node asked for at v1.1 loses its "interfaces" and keeps its v1.0 and v1.1 properties. */
  lemma NodeAtV1_1DropsInterfaces(id: JsonValue, tags: JsonValue, interfaces: JsonValue)
    ensures Downgraded(V1_2, Node, Object(map["id" := id, "tags" := tags, "interfaces" := interfaces]), V1_1, V1_0)
      == Object(map["id" := id, "tags" := tags])
  {
    var data := Object(map["id" := id, "tags" := tags, "interfaces" := interfaces]);
    var entries := ResourcesVersions(Node);
    assert "id" in entries[0].properties && "tags" in entries[1].properties;
    assert LessEq(entries[0].version, V1_1) && LessEq(entries[1].version, V1_1);
    assert "id" in Selected(Node, V1_1) && "tags" in Selected(Node, V1_1);
    assert "interfaces" !in Selected(Node, V1_1);
    assert data.fields.Keys * Selected(Node, V1_1) == {"id", "tags"};
  }

  /** Senders gained nothing in v1.1, so at v1.1 a sender has exactly its v1.0 properties. */
  lemma SenderAtV1_1HasV1_0Properties()
    ensures Selected(Sender, V1_1) == Selected(Sender, V1_0) == Elements(ResourcesVersions(Sender)[0].properties)
  {
    var entries := ResourcesVersions(Sender);
    assert !LessEq(entries[1].version, V1_1);
  }
}
