/** What the list screen shows and what it can ask for
    (presentation/state/DogListUiState.kt, presentation/event/DogListUiEvent.kt). */
module ListState {
  import opened Failures
  import opened DomainModel

  /** Three independent fields; only the view model's transitions keep them
      consistent with one another. */
  datatype DogListUiState = DogListUiState(
    dogs: seq<Dog> := [],
    isLoading: bool := false,
    errorMessage: Option<string> := None)

  datatype DogListUiEvent = LoadDogs | RetryLoadDogs
}
