/** The record decoded from the remote JSON array and its mapping to the
    domain (data/model/DogResponse.kt). */
module RemoteModel {
  import opened DomainModel

  /** One element of the remote array: `dogName`, `description`, `age`, `image`. */
  datatype DogResponse = DogResponse(name: string, description: string, age: int, imageUrl: string)
  {
    /** The remote source carries no id, so every mapped dog is unassigned (id 0). */
    function ToDomain(): (dog: Dog)
      ensures dog.id == 0
      ensures DogResponse(dog.name, dog.description, dog.age, dog.imageUrl) == this
    {
      Dog(id := 0, name := name, description := description, age := age, imageUrl := imageUrl)
    }
  }

  /** `responses.map { it.toDomain() }`: same length, same order, all ids 0. */
  function ResponsesToDomain(rs: seq<DogResponse>): (ds: seq<Dog>)
    ensures |ds| == |rs|
    ensures forall i :: 0 <= i < |rs| ==> ds[i] == rs[i].ToDomain()
    ensures forall i :: 0 <= i < |rs| ==> ds[i].id == 0
  {
    if rs == [] then [] else [rs[0].ToDomain()] + ResponsesToDomain(rs[1..])
  }

  /** Text fields are copied character for character, whatever they hold:
      empty strings, non-ASCII letters and punctuation alike. */
  lemma TextPassesThrough(name: string, description: string, age: int, imageUrl: string)
    ensures DogResponse(name, description, age, imageUrl).ToDomain()
         == Dog(id := 0, name := name, description := description, age := age, imageUrl := imageUrl)
  {
  }
}
