/**
 * What the use-case services share: the outcome of one `exec` (the result and
 * the entries of the store it may change) and the condition under which the
 * actor's role can be read without a panic.
 */
module Orchestration {
  import opened Wrappers
  import opened Errors
  import opened Entities
  import opened Repositories

  /** The result of one call, with the entries of the store the call may change afterwards. */
  datatype Outcome<T, K, V> = Outcome(result: Result<T, DomainError>, entries: map<K, V>)

  /**
   * The services read the actor's role with `role().unwrap()`, which panics for a
   * user without a role; callers must not let a role-less actor be found.
   */
  predicate ActorRolePresent(users: StoreState<Uuid, User>, userId: Uuid)
  {
    !users.findFails && userId in users.entries ==> users.entries[userId].role.Some?
  }
}
