# Downgrade queries of the NMOS registry

This project models the downgrade-query logic of nmos-cpp's IS-04 Query API
(`Development/nmos/api_downgrade.cpp`). It implements the "Downgrade Queries"
rules of AMWA IS-04 (NMOS Discovery and Registration) v1.2, in the document
"APIs - Query Parameters". A client asks for resources at an API version
(`version`) and may accept older representations down to a floor
(`downgrade_version`). The logic decides two things:

- whether a resource registered under some API version may be returned at all
  (`is_permitted_downgrade`);
- how its JSON document is cut down to the top-level properties that existed
  at the requested version (`downgrade`). This uses a fixed table that gives,
  for each of the seven resource types, the minor version that introduced
  each top-level property.

Files:

- `api_versions.dfy`: `ApiVersion` as a (major, minor) pair in lexicographic order.
- `resources.dfy`: the seven resource types and the resource record (version, type, document).
- `json.dfy`: a JSON value as a tagged union, with property lookup and assignment.
  Assigning a property to a null value first turns it into an object, as cpprest does.
- `api_downgrade.dfy`: the permission predicate, the property-introduction table,
  the ordered map's `upper_bound`, and the downgrade.

The main `downgrade` overload is the method `ApiDowngrade.Downgrade`. Its nested
loops are in `ApiDowngrade.CopyListed`, which builds the result property by
property, starting from null. Both are proved equal to the function
`ApiDowngrade.Downgraded`. The properties the standard promises are lemmas about
that function.

The result starts as null and only becomes an object when the first property is
copied. So a permitted resource whose document has none of the selected
properties also downgrades to null. "Null exactly when not permitted" therefore
holds only in one direction in general (`DowngradedNullExactly` states the exact
condition). It holds in both directions for any document that carries an "id"
(`IdentifiedResourceNeverNull`).

## Model

| member | source | states |
|---|---|---|
| `ApiDowngrade.IsPermittedDowngrade` | Development/nmos/api_downgrade.cpp:19-34 | a permitted resource shares the major version of the request and of the floor, and is never older than the floor (no upgrade) |
| `ApiDowngrade.IsPermittedDowngradeOf` | Development/nmos/api_downgrade.cpp:14-17 | the overload taking the resource record: permission implies the same major version and a resource version at or above the floor |
| `ApiDowngrade.IsPermittedDowngradeAt` | Development/nmos/api_downgrade.cpp:9-12 | the single-version overload permits exactly the resources of the requested major version registered at or after the requested minor version, and subscriptions only at exactly that version |
| `ApiDowngrade.CrossMajorNeverPermitted` | Development/nmos/api_downgrade.cpp:21-22 | a request whose version and floor differ in major version permits nothing |
| `ApiDowngrade.ResourceMajorMismatchNeverPermitted` | Development/nmos/api_downgrade.cpp:23 | a resource of another major version than the one requested is never permitted |
| `ApiDowngrade.NeverUpgrade` | Development/nmos/api_downgrade.cpp:25-27 | a resource whose minor version is below the floor's is never permitted |
| `ApiDowngrade.SubscriptionOnlyAtOwnVersion` | Development/nmos/api_downgrade.cpp:29-31 | a permitted subscription is always requested at exactly the version it was created under |
| `ApiDowngrade.PermittedWhenGuardsPass` | Development/nmos/api_downgrade.cpp:19-34 | the converse: same major versions, not older than the floor, and (for subscriptions only) the same version together guarantee permission, whatever the type |
| `ApiDowngrade.LowerFloorStillPermitted` | Development/nmos/api_downgrade.cpp:27 | lowering the floor within a major version never withdraws a permission |
| `ApiDowngrade.ResourcesVersions` | Development/nmos/api_downgrade.cpp:64-116 | the table's entries are keyed by strictly increasing versions, and every type starts at v1.0 with "id" |
| `ApiDowngrade.UpperBound` | Development/nmos/api_downgrade.cpp:119-121 | the upper bound splits the sorted entries into those at or below the requested version and those strictly above it |
| `ApiDowngrade.ListedPrefixIsSelected` | Development/nmos/api_downgrade.cpp:118-123 | the entries before the upper bound list exactly the properties selected for the requested version |
| `ApiDowngrade.ProjectInsert` | Development/nmos/api_downgrade.cpp:125-128 | copying one more listed property assigns it into the result exactly when the document has it; otherwise the result is unchanged |
| `ApiDowngrade.CopyListed` | Development/nmos/api_downgrade.cpp:53-130 | starting from a null result, the nested loops leave it equal to the document restricted to the walked entries' properties, or null if none of them is present |
| `ApiDowngrade.Downgrade` | Development/nmos/api_downgrade.cpp:46-133 | the five-argument downgrade returns exactly the specified downgraded document |
| `ApiDowngrade.DowngradeOf` | Development/nmos/api_downgrade.cpp:41-44 | the overload taking the resource record returns the specified downgrade of its version, type and document |
| `ApiDowngrade.DowngradeAt` | Development/nmos/api_downgrade.cpp:36-39 | the single-version overload is the downgrade with the floor equal to the requested version; null when not permitted, and the document as registered at its own version |
| `ApiDowngrade.NotPermittedDowngradesToNull` | Development/nmos/api_downgrade.cpp:48 | a resource that may not be returned downgrades to null |
| `ApiDowngrade.NotNewerReturnedUnchanged` | Development/nmos/api_downgrade.cpp:50-51 | a permitted resource not newer than the requested version is returned unchanged |
| `ApiDowngrade.OwnVersionReturnedUnchanged` | Development/nmos/api_downgrade.cpp:51 | a permitted resource asked for at its own version is returned exactly as registered |
| `ApiDowngrade.DowngradedKeepsListedProperties` | Development/nmos/api_downgrade.cpp:118-130 | a newer resource keeps exactly its properties that a table entry at or below the requested version lists, with unchanged values; nothing listed and present is dropped, nothing is invented, and the result is an object or null |
| `ApiDowngrade.DowngradedNullExactly` | Development/nmos/api_downgrade.cpp:46-133 | the downgrade is null exactly when the resource is not permitted, or is passed through with a null document, or is cut down and has none of the selected properties |
| `ApiDowngrade.IdentifiedResourceNeverNull` | Development/nmos/api_downgrade.cpp:64-116 | a permitted resource whose document is an object with "id" never downgrades to null, for any requested major version of 1 or more |
| `ApiDowngrade.DowngradeIdempotent` | Development/nmos/api_downgrade.cpp:118-130 | downgrading an already downgraded document with the same arguments changes nothing |
| `ApiDowngrade.SelectedGrowsWithVersion` | Development/nmos/api_downgrade.cpp:119-121 | a later requested version selects every property that an earlier one does |
| `ApiDowngrade.NodeAtV1_1DropsInterfaces` | Development/nmos/api_downgrade.cpp:66-72 | a v1.2 node asked for at v1.1 loses "interfaces" and keeps "id" and "tags" with their values |
| `ApiDowngrade.SenderAtV1_1HasV1_0Properties` | Development/nmos/api_downgrade.cpp:95-101 | senders gained nothing in v1.1, so at v1.1 a sender has exactly its v1.0 properties |

## Left out

- `Development/cpprest/api_router.h` (HTTP route dispatch) is not part of this model: it is transport plumbing with declarations only.
- `Development/nmos/thread_utils.h` (lock and thread helpers) is not part of this model: its purpose is concurrency and thread lifecycle.
- `nmos/resource.h`, `nmos/api_version.h` and `nmos/type.h` are not part of this model. The resource record is reduced to the three fields the downgrade reads. Versions use unbounded naturals instead of fixed-width integers; no arithmetic is done on them.
- The JSON library is reduced to a tagged union. Numbers are unbounded integers, and the order of an object's keys is not modelled. Serialisation is not modelled.
- The exception from `std::map::at` for a type missing from the table cannot occur. Resource types are a closed datatype and the table covers all of them.
- `std::map::upper_bound` is modelled by a linear walk over the sorted entries. Its logarithmic cost is not modelled.
- Properties added inside sub-objects between versions are not handled, because the source does not handle them either. An example is "active" in a receiver's "subscription" in v1.2. Only top-level properties are filtered.
