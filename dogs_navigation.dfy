/** The field copy of the navigation (presentation/navigation/DogsRoutes.kt,
    DogsNavigation.kt): a clicked dog becomes a detail route, and the detail
    destination rebuilds the dog from it. The image's shared-element key,
    `"dog_image_" + id`, is computed on the card and again on the detail
    screen (presentation/ui/components/DogCard.kt,
    presentation/ui/DogDetailScreen.kt). */
module Navigation {
  import opened DomainModel
  import opened LocalEntity
  import opened RemoteModel
  import opened LocalStore
  import opened Repository

  datatype DogDetailRoute = DogDetailRoute(dogId: int, dogName: string, dogDescription: string, dogAge: int, dogImageUrl: string)

  /** `onDogClick`: the route for a clicked dog, from which the detail
      destination rebuilds that very dog. */
  function RouteFor(dog: Dog): (route: DogDetailRoute)
    ensures DogFor(route) == dog
  {
    DogDetailRoute(dogId := dog.id, dogName := dog.name, dogDescription := dog.description,
                   dogAge := dog.age, dogImageUrl := dog.imageUrl)
  }

  /** The detail destination: the dog rebuilt from the route's fields, with
      none of them lost. */
  function DogFor(route: DogDetailRoute): (dog: Dog)
    ensures DogDetailRoute(dog.id, dog.name, dog.description, dog.age, dog.imageUrl) == route
  {
    Dog(id := route.dogId, name := route.dogName, description := route.dogDescription,
        age := route.dogAge, imageUrl := route.dogImageUrl)
  }

  /** The detail screen shows exactly the dog that was clicked. */
  lemma ClickedDogArrives(dog: Dog)
    ensures DogFor(RouteFor(dog)) == dog
  {
  }

  /** Every route is the route of the dog it describes. */
  lemma RouteRoundTrip(route: DogDetailRoute)
    ensures RouteFor(DogFor(route)) == route
  {
  }

  // ---------------------------------------------------------------------
  // Shared-element keys

  function DigitChar(d: int): char
    requires 0 <= d < 10
  {
    ('0' as int + d) as char
  }

  /** Decimal digits of a natural number, most significant first. */
  function Digits(n: nat): string
    decreases n
  {
    if n < 10 then [DigitChar(n)] else Digits(n / 10) + [DigitChar(n % 10)]
  }

  const ImageKeyPrefix: string := "dog_image_"

  /** Kotlin's `Int.toString()`. */
  function DecimalString(n: int): string {
    if n < 0 then "-" + Digits(-n) else Digits(n)
  }

  /** `"dog_image_${dog.id}"`: the fixed prefix, then at least one character
      of the id in decimal. */
  function SharedImageKey(dog: Dog): (key: string)
    ensures |key| > |ImageKeyPrefix| && key[..|ImageKeyPrefix|] == ImageKeyPrefix
    ensures key[|ImageKeyPrefix|..] == DecimalString(dog.id)
  {
    DigitsShape(if dog.id < 0 then -dog.id else dog.id);
    ImageKeyPrefix + DecimalString(dog.id)
  }

  lemma {:induction false} DigitsShape(n: nat)
    ensures |Digits(n)| >= 1 && '0' <= Digits(n)[0] <= '9'
    ensures n < 10 <==> |Digits(n)| == 1
    decreases n
  {
    if n >= 10 {
      DigitsShape(n / 10);
    }
  }

  /** Different numbers have different digits. */
  lemma {:induction false} DigitsInjective(a: nat, b: nat)
    ensures Digits(a) == Digits(b) ==> a == b
    decreases a
  {
    DigitsShape(a);
    DigitsShape(b);
    if a >= 10 && b >= 10 {
      DigitsInjective(a / 10, b / 10);
      if Digits(a) == Digits(b) {
        var da, db := Digits(a), Digits(b);
        assert Digits(a / 10) == da[..|da| - 1] && Digits(b / 10) == db[..|db| - 1];
        assert DigitChar(a % 10) == da[|da| - 1] && DigitChar(b % 10) == db[|db| - 1];
      }
    }
  }

  lemma DecimalStringInjective(a: int, b: int)
    ensures DecimalString(a) == DecimalString(b) ==> a == b
  {
    DigitsShape(if a < 0 then -a else a);
    DigitsShape(if b < 0 then -b else b);
    if a < 0 && b < 0 {
      DigitsInjective(-a, -b);
      if DecimalString(a) == DecimalString(b) {
        assert Digits(-a) == DecimalString(a)[1..] && Digits(-b) == DecimalString(b)[1..];
      }
    } else if a >= 0 && b >= 0 {
      DigitsInjective(a, b);
    } else {
      assert DecimalString(a)[0] != DecimalString(b)[0];
    }
  }

  /** Two dogs share an image key exactly when they share an id. */
  lemma {:induction false} KeysMatchIds(a: Dog, b: Dog)
    ensures SharedImageKey(a) == SharedImageKey(b) <==> a.id == b.id
  {
    DecimalStringInjective(a.id, b.id);
  }

  /** The id survives the route, so the card and the detail screen use the
      same key for the image's shared-element transition. */
  lemma SameKeyOnBothScreens(dog: Dog)
    ensures SharedImageKey(DogFor(RouteFor(dog))) == SharedImageKey(dog)
  {
  }

  /** Dogs served from the cache carry the table's distinct ids, so their
      cards have pairwise different image keys. */
  lemma CachedDogsHaveDistinctKeys(t: Table, env: Env)
    requires TableInv(t) && env.readFault.None? && t.rows != []
    ensures var served := GetDogsSpec(t, env).result.value;
            forall i, j :: 0 <= i < j < |served| ==> SharedImageKey(served[i]) != SharedImageKey(served[j])
  {
    var served := GetDogsSpec(t, env).result.value;
    forall i, j | 0 <= i < j < |served| ensures SharedImageKey(served[i]) != SharedImageKey(served[j]) {
      KeysMatchIds(served[i], served[j]);
    }
  }

  /** Dogs just fetched into an empty cache all carry id 0, so every card of
      that first list has the same image key, "dog_image_0". */
  lemma FetchedDogsShareOneKey(t: Table, env: Env)
    requires env.readFault.None? && t.rows == [] && env.remote.Ok? && env.writeFault.None?
    ensures var fetched := GetDogsSpec(t, env).result.value;
            forall i :: 0 <= i < |fetched| ==> SharedImageKey(fetched[i]) == "dog_image_0"
  {
  }
}
