/** The domain entity shown by every screen (domain/model/Dog.kt). */
module DomainModel {

  /** An id of 0 means "not yet persisted": the remote source never provides one. */
  datatype Dog = Dog(id: int := 0, name: string, description: string, age: int, imageUrl: string)
}
