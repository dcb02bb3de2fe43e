/** The decisions in the list screen (presentation/ui/DogListScreen.kt): which
    of its three contents it shows for a state, and when it asks for the
    first load. Layout and widgets are not modelled. */
module ListScreen {
  import opened Failures
  import opened DomainModel
  import opened ListState
  import opened ListViewModel

  /** Shimmer cards shown while loading. */
  const PlaceholderCount: nat := 5

  /** The content of the screen: placeholder cards, the error with its retry
      button (and the event the button sends), or one card per dog in order. */
  datatype Content =
    | Placeholders(count: nat)
    | ErrorWithRetry(message: string, onRetry: DogListUiEvent)
    | DogCards(cards: seq<Dog>)

  /** The `when` of `DogListContent`: loading beats error, error beats list. */
  function ContentFor(s: DogListUiState): (c: Content)
    ensures c.Placeholders? <==> s.isLoading
    ensures c.ErrorWithRetry? <==> !s.isLoading && s.errorMessage.Some?
    ensures c.DogCards? <==> !s.isLoading && s.errorMessage.None?
    ensures c.Placeholders? ==> c.count == PlaceholderCount
    ensures c.ErrorWithRetry? ==> c.message == s.errorMessage.value && c.onRetry == RetryLoadDogs
    ensures c.DogCards? ==> c.cards == s.dogs
  {
    if s.isLoading then Placeholders(PlaceholderCount)
    else if s.errorMessage.Some? then ErrorWithRetry(s.errorMessage.value, RetryLoadDogs)
    else DogCards(s.dogs)
  }

  /** `LaunchedEffect(uiState.dogs.isEmpty())`: the effect runs on the first
      composition (`previousKey == None`) and whenever its key changes, and
      then sends `LoadDogs` if there are no dogs. */
  function LaunchedLoad(previousKey: Option<bool>, s: DogListUiState): (e: Option<DogListUiEvent>)
    ensures e.Some? ==> e.value == LoadDogs
    ensures e.Some? <==> s.dogs == [] && previousKey != Some(true)
  {
    var key := |s.dogs| == 0;
    if previousKey != Some(key) && key then Some(LoadDogs) else None
  }

  // ---------------------------------------------------------------------
  // What the screen shows across a load

  /** On first composition the screen shows placeholders and asks for a load. */
  lemma FirstFrame()
    ensures ContentFor(InitialState) == Placeholders(PlaceholderCount)
    ensures LaunchedLoad(None, InitialState) == Some(LoadDogs)
  {
  }

  /** During a load the screen shows placeholders, whatever the error field held. */
  lemma LoadingShowsPlaceholders(s: DogListUiState)
    ensures ContentFor(Started(s)) == Placeholders(PlaceholderCount)
  {
  }

  /** After a load the screen shows the dogs, in order, or the failure's text
      with a retry button that sends `RetryLoadDogs`; never placeholders. */
  lemma AfterLoad(s: DogListUiState, event: DogListUiEvent, outcome: Result<seq<Dog>>)
    ensures outcome.Ok? ==> ContentFor(Transition(s, event, outcome)) == DogCards(outcome.value)
    ensures outcome.Err? ==>
              ContentFor(Transition(s, event, outcome)) == ErrorWithRetry(ErrorText(outcome.failure), RetryLoadDogs)
  {
  }

  /** An empty successful load shows an empty list, not an error; its key
      (`isEmpty`) has not changed, so the effect does not ask again. The same
      holds after a failed first load: only the retry button loads again. */
  lemma EmptyListIsNotReloaded(s: DogListUiState, event: DogListUiEvent, f: Failure)
    requires s.dogs == []
    ensures ContentFor(Transition(s, event, Ok([]))) == DogCards([])
    ensures LaunchedLoad(Some(true), Transition(s, event, Ok([]))) == None
    ensures LaunchedLoad(Some(true), Transition(s, event, Err(f))) == None
  {
  }
}
