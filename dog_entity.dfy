/** The row type of the local "dogs" table and its mapping to and from the
    domain (data/local/DogEntity.kt). */
module LocalEntity {
  import opened DomainModel

  /** The id Room treats as "not set" for an auto-generated primary key. */
  const Unassigned: int := 0

  datatype DogEntity = DogEntity(id: int := Unassigned, name: string, description: string, age: int, imageUrl: string)
  {
    /** The row as a domain dog, id included: no field is lost. */
    function ToDomain(): (dog: Dog)
      ensures DogEntity(dog.id, dog.name, dog.description, dog.age, dog.imageUrl) == this
    {
      Dog(id, name, description, age, imageUrl)
    }
  }

  /** A domain dog as a row, id included; `ToDomain` gives the dog back. */
  function FromDomain(dog: Dog): (e: DogEntity)
    ensures e.ToDomain() == dog
  {
    DogEntity(id := dog.id, name := dog.name, description := dog.description, age := dog.age, imageUrl := dog.imageUrl)
  }

  /** `entities.map { it.toDomain() }`: same length, same order, element by element. */
  function EntitiesToDomain(es: seq<DogEntity>): (ds: seq<Dog>)
    ensures |ds| == |es|
    ensures forall i :: 0 <= i < |es| ==> ds[i] == es[i].ToDomain()
  {
    if es == [] then [] else [es[0].ToDomain()] + EntitiesToDomain(es[1..])
  }

  /** `dogs.map { DogEntity.fromDomain(it) }`: same length, same order, element by element. */
  function DogsFromDomain(ds: seq<Dog>): (es: seq<DogEntity>)
    ensures |es| == |ds|
    ensures forall i :: 0 <= i < |ds| ==> es[i] == FromDomain(ds[i])
  {
    if ds == [] then [] else [FromDomain(ds[0])] + DogsFromDomain(ds[1..])
  }

  /** A dog survives a trip through the table's row type, id included. */
  lemma RoundTrip(dog: Dog)
    ensures FromDomain(dog).ToDomain() == dog
  {
  }

  /** A row survives a trip through the domain type, id included. */
  lemma ReverseRoundTrip(e: DogEntity)
    ensures FromDomain(e.ToDomain()) == e
  {
  }

  /** The mappers never assign ids: an unassigned id stays unassigned both ways,
      and empty strings and age 0 pass through. */
  lemma MappersKeepUnassignedId(dog: Dog, e: DogEntity)
    ensures FromDomain(dog).id == Unassigned <==> dog.id == Unassigned
    ensures e.ToDomain().id == Unassigned <==> e.id == Unassigned
    ensures FromDomain(Dog(id := dog.id, name := "", description := "", age := 0, imageUrl := ""))
         == DogEntity(id := dog.id, name := "", description := "", age := 0, imageUrl := "")
  {
  }

  /** The list conversions used by the repository are inverse to each other. */
  lemma {:induction false} ListRoundTrip(ds: seq<Dog>, es: seq<DogEntity>)
    ensures EntitiesToDomain(DogsFromDomain(ds)) == ds
    ensures DogsFromDomain(EntitiesToDomain(es)) == es
  {
    var back := EntitiesToDomain(DogsFromDomain(ds));
    forall i | 0 <= i < |ds| ensures back[i] == ds[i] {
      RoundTrip(ds[i]);
    }
    var forth := DogsFromDomain(EntitiesToDomain(es));
    forall i | 0 <= i < |es| ensures forth[i] == es[i] {
      ReverseRoundTrip(es[i]);
    }
  }
}
