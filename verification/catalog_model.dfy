/** The part of the catalog's entity model that the group provider emits. */
module CatalogModel {
  import opened Wrappers

  const GroupKind := "Group"
  const GroupApiVersion := "backstage.io/v1alpha1"
  const GroupSpecType := "group"
  const FullMutation := "full"

  type Annotations = map<string, string>

  datatype Metadata = Metadata(
    annotations: Annotations,
    name: string,
    title: string,
    description: Option<string>)

  /** `spec` of a Group entity; `groupType` is the field the catalog calls `type`. */
  datatype GroupSpec = GroupSpec(members: seq<string>, groupType: string, children: seq<string>)

  datatype GroupEntity = GroupEntity(kind: string, apiVersion: string, metadata: Metadata, spec: GroupSpec)

  /** An entity handed to the catalog together with the location key that owns it. */
  datatype DeferredEntity = DeferredEntity(entity: GroupEntity, locationKey: string)

  /** The argument of `applyMutation`. */
  datatype Mutation = Mutation(mutationType: string, entities: seq<DeferredEntity>)
}
