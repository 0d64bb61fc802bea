/**
 * The registered resources whose documents are downgraded: the seven IS-04
 * resource types and the registry's record of a resource.
 */
module Resources {
  import opened ApiVersions
  import opened Json

  datatype ResourceType = Node | Device | Source | Flow | Sender | Receiver | Subscription

  /**
   * A registered resource: the API version it was registered under, its type
   * and its JSON document. The registry's other bookkeeping (id, health,
   * sub-resources) plays no part in downgrading.
   */
  datatype Resource = Resource(version: ApiVersion, resourceType: ResourceType, data: JsonValue)
}
