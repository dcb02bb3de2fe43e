/** The use case between the list screen's view model and the repository
    (domain/usecase/GetDogsUseCase.kt): one call to the repository, whose
    answer or failure is passed on unchanged. */
module UseCase {
  import opened Failures
  import opened DomainModel
  import opened LocalStore
  import opened RemoteSource
  import opened Repository

  class GetDogsUseCase {
    const repository: DogRepositoryImpl

    constructor (repository: DogRepositoryImpl)
      ensures this.repository == repository
    {
      this.repository := repository;
    }

    /** `invoke()`: exactly one run of the repository; its list, its failure
        and its effect on the table are this call's. */
    method Invoke(env: Env) returns (r: Result<seq<Dog>>, calls: seq<Call>)
      requires repository.dao.Valid()
      modifies repository.dao, repository.api
      ensures repository.dao.Valid()
      ensures Fetch(r, calls, repository.dao.Contents()) == GetDogsSpec(old(repository.dao.Contents()), env)
      ensures repository.dao.getAllDogsCalls == old(repository.dao.getAllDogsCalls) + 1
      ensures repository.dao.insertAllBatches == old(repository.dao.insertAllBatches) + Batches(calls)
      ensures repository.api.fetches == old(repository.api.fetches) + Fetches(calls)
    {
      r, calls := repository.GetDogs(env);
    }
  }
}
