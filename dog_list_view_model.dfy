/** The list screen's state holder (presentation/viewmodel/DogListViewModel.kt).
    Both events run the same load: show loading and clear the error, ask the
    use case, then install the dogs or the failure's message. The coroutine is
    split into its two writes of the state, Start and Complete. */
module ListViewModel {
  import opened Failures
  import opened DomainModel
  import opened LocalStore
  import opened RemoteSource
  import opened Repository
  import opened UseCase
  import opened ListState

  /** The text shown for a failure that carries no message. */
  const UnknownError: string := "Unknown error"

  /** The state before any event: loading, no dogs, no error. */
  const InitialState := DogListUiState(isLoading := true)

  /** `e.message ?: "Unknown error"`: the failure's own message when it has
      one, the fallback text otherwise. */
  function ErrorText(f: Failure): (text: string)
    ensures f.message.Some? ==> text == f.message.value
    ensures f.message.None? ==> text == UnknownError
  {
    match f.message
    case Some(m) => m
    case None => UnknownError
  }

  /** The first write of a load: loading on, error cleared, dogs kept. */
  function Started(s: DogListUiState): (started: DogListUiState)
    ensures started.isLoading && started.errorMessage == None && started.dogs == s.dogs
  {
    s.(isLoading := true, errorMessage := None)
  }

  /** The second write of a load, for the use case's outcome: loading off;
      the new dogs and no error, or the old dogs and the failure's text. */
  function Completed(s: DogListUiState, outcome: Result<seq<Dog>>): (done: DogListUiState)
    ensures !done.isLoading
    ensures outcome.Ok? ==> done.dogs == outcome.value && done.errorMessage == None
    ensures outcome.Err? ==> done.dogs == s.dogs && done.errorMessage == Some(ErrorText(outcome.failure))
  {
    match outcome
    case Ok(dogs) => s.(dogs := dogs, isLoading := false, errorMessage := None)
    case Err(f) => s.(isLoading := false, errorMessage := Some(ErrorText(f)))
  }

  /** `handleEvent`: either event starts the same load, which ends not
      loading, with exactly the new dogs on success, and with the old dogs
      and the failure's text on failure. */
  function Transition(s: DogListUiState, event: DogListUiEvent, outcome: Result<seq<Dog>>): (next: DogListUiState)
    ensures !next.isLoading
    ensures outcome.Ok? ==> next == DogListUiState(outcome.value, false, None)
    ensures outcome.Err? ==> next.dogs == s.dogs && next.errorMessage == Some(ErrorText(outcome.failure))
  {
    match event
    case LoadDogs => Completed(Started(s), outcome)
    case RetryLoadDogs => Completed(Started(s), outcome)
  }

  // ---------------------------------------------------------------------
  // Properties of the transitions

  lemma InitialStateIsLoading()
    ensures InitialState.isLoading && InitialState.dogs == [] && InitialState.errorMessage == None
  {
  }

  /** Loading and retrying are the same transition. */
  lemma LoadAndRetryAgree(s: DogListUiState, outcome: Result<seq<Dog>>)
    ensures Transition(s, LoadDogs, outcome) == Transition(s, RetryLoadDogs, outcome)
  {
  }

  /** While the use case runs the list shows loading, no error, and the dogs
      it had. */
  lemma StartShowsLoading(s: DogListUiState)
    ensures Started(s).isLoading && Started(s).errorMessage == None && Started(s).dogs == s.dogs
  {
  }

  /** A load ends with loading off, whatever the outcome; on success the
      list is the result and the error is cleared; on failure the error is
      the failure's message (or "Unknown error") and the dogs are kept. */
  lemma LoadEnds(s: DogListUiState, event: DogListUiEvent, outcome: Result<seq<Dog>>)
    ensures !Transition(s, event, outcome).isLoading
    ensures outcome.Ok? ==> Transition(s, event, outcome) == DogListUiState(outcome.value, false, None)
    ensures outcome.Err? ==> Transition(s, event, outcome).dogs == s.dogs
    ensures outcome.Err? && outcome.failure.message.Some? ==>
              Transition(s, event, outcome).errorMessage == outcome.failure.message
    ensures outcome.Err? && outcome.failure.message.None? ==>
              Transition(s, event, outcome).errorMessage == Some(UnknownError)
  {
  }

  /** A failed first load, then a retry that succeeds: the error is gone and
      the new list is installed. */
  lemma RetryClearsError(dogs: seq<Dog>, f: Failure)
    ensures var failed := Transition(InitialState, LoadDogs, Err(f));
            && failed.errorMessage == Some(ErrorText(f)) && failed.dogs == []
            && Transition(failed, RetryLoadDogs, Ok(dogs)) == DogListUiState(dogs, false, None)
  {
  }

  // ---------------------------------------------------------------------
  // The view model

  class DogListViewModel {
    var uiState: DogListUiState
    const getDogsUseCase: GetDogsUseCase

    /** The table the whole chain reads and fills. */
    function Store(): DogDao {
      getDogsUseCase.repository.dao
    }

    /** The remote source behind the chain. */
    function Api(): DogApi {
      getDogsUseCase.repository.api
    }

    constructor (getDogsUseCase: GetDogsUseCase)
      ensures uiState == InitialState && this.getDogsUseCase == getDogsUseCase
    {
      this.getDogsUseCase := getDogsUseCase;
      uiState := InitialState;
    }

    /** The launch of a load: loading on, error cleared, dogs kept. */
    method Start()
      modifies this`uiState
      ensures uiState == Started(old(uiState))
      ensures uiState.isLoading && uiState.errorMessage == None && uiState.dogs == old(uiState).dogs
    {
      uiState := uiState.(isLoading := true, errorMessage := None);
    }

    /** The end of a load with the use case's outcome. */
    method Complete(outcome: Result<seq<Dog>>)
      modifies this`uiState
      ensures uiState == Completed(old(uiState), outcome)
      ensures !uiState.isLoading
    {
      match outcome {
        case Ok(dogs) =>
          uiState := uiState.(dogs := dogs, isLoading := false, errorMessage := None);
        case Err(f) =>
          var errorMessage := if f.message.Some? then f.message.value else UnknownError;
          uiState := uiState.(isLoading := false, errorMessage := Some(errorMessage));
      }
    }

    /** `loadDogs()`, run to completion: one use case call between the two writes. */
    method LoadDogsToCompletion(env: Env) returns (calls: seq<Call>)
      requires Store().Valid()
      modifies this`uiState, Store(), Api()
      ensures Store().Valid()
      ensures Store().getAllDogsCalls == old(Store().getAllDogsCalls) + 1
      ensures Store().insertAllBatches == old(Store().insertAllBatches) + Batches(calls)
      ensures Api().fetches == old(Api().fetches) + Fetches(calls)
      ensures var run := GetDogsSpec(old(Store().Contents()), env);
              && uiState == Completed(Started(old(uiState)), run.result)
              && Store().Contents() == run.store && calls == run.calls
    {
      Start();
      var dogs;
      dogs, calls := getDogsUseCase.Invoke(env);
      Complete(dogs);
    }

    /** `handleEvent(event)`: both events run the same load; the use case is
        called exactly once, its calls and effect on the table are those of one
        repository run, and the state ends as `Transition` says. */
    method HandleEvent(event: DogListUiEvent, env: Env) returns (calls: seq<Call>)
      requires Store().Valid()
      modifies this`uiState, Store(), Api()
      ensures Store().Valid()
      ensures Store().getAllDogsCalls == old(Store().getAllDogsCalls) + 1
      ensures Store().insertAllBatches == old(Store().insertAllBatches) + Batches(calls)
      ensures Api().fetches == old(Api().fetches) + Fetches(calls)
      ensures var run := GetDogsSpec(old(Store().Contents()), env);
              && uiState == Transition(old(uiState), event, run.result)
              && Store().Contents() == run.store && calls == run.calls
    {
      match event {
        case LoadDogs => calls := LoadDogsToCompletion(env);
        case RetryLoadDogs => calls := LoadDogsToCompletion(env);
      }
    }
  }
}
