/** The remote source (data/remote/DogsApi.kt): one GET that answers with the
    decoded array or fails. What the network answers is an input of the
    model; the object only records that it was asked. */
module RemoteSource {
  import opened Failures
  import opened RemoteModel

  class DogApi {
    /** How many times `getDogs` has been called. */
    ghost var fetches: nat

    constructor ()
      ensures fetches == 0
    {
      fetches := 0;
    }

    /** `getDogs()`: the network's answer, passed on as it came. */
    method GetDogs(answer: Result<seq<DogResponse>>) returns (r: Result<seq<DogResponse>>)
      modifies this`fetches
      ensures r == answer
      ensures fetches == old(fetches) + 1
    {
      fetches := fetches + 1;
      r := answer;
    }
  }
}
