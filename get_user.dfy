/**
 * `GetUserService::exec`: look a user up by id. Only a storage failure is an
 * error; an unknown id is an empty answer. No permission is checked.
 */
module GetUser {
  import opened Wrappers
  import opened Errors
  import opened Entities
  import opened Repositories

  datatype GetUserServiceParams = GetUserServiceParams(userId: Uuid)

  class GetUserService {
    const userRepository: Store<Uuid, User>

    constructor (userRepository: Store<Uuid, User>)
      ensures this.userRepository == userRepository
    {
      this.userRepository := userRepository;
    }

    method Exec(params: GetUserServiceParams) returns (r: Result<Option<User>, DomainError>)
      ensures r.Err? <==> userRepository.findFails
      ensures r.Err? ==> r.error == InternalError
      ensures r.Ok? ==> (r.value.Some? <==> params.userId in userRepository.entries)
      ensures r.Ok? && r.value.Some? ==> r.value.value == userRepository.entries[params.userId]
    {
      var user := userRepository.FindById(params.userId);
      if user.Err? {
        return Err(InternalError);
      }
      r := Ok(user.value);
    }
  }
}
