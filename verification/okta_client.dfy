/**
  The records the Okta client hands to the group provider, with the asynchronous
  paginated collections replaced by finite sequences in delivery order.
 */
module OktaClient {
  import opened Wrappers

  /**
    A paginated collection as `.each` drains it: the records delivered, in
    delivery order, and, when fetching a page broke off, the error that
    rejected the iteration after those records.
   */
  datatype Paged<T> = Paged(items: seq<T>, failure: Option<string>)

  datatype UserProfile = UserProfile(email: string)

  datatype UserRecord = UserRecord(id: string, profile: UserProfile)

  datatype GroupProfile = GroupProfile(name: string, description: Option<string>)

  /** A group together with what `group.listUsers()` delivers for it. */
  datatype GroupRecord = GroupRecord(id: string, profile: GroupProfile, users: Paged<UserRecord>)

  /** The query parameters of `client.listGroups`: `{}` or `{ q: name }`. */
  datatype QueryParameters = NoParameters | Search(q: string)

  /** The client's `listGroups`, as a pure function of the query it is given. */
  type Client = QueryParameters -> Paged<GroupRecord>

  /** Every record was delivered: the iteration ended without an error. */
  predicate Complete<T>(page: Paged<T>)
  {
    page.failure.None?
  }
}
