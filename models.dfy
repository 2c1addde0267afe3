/**
 * The document types. `models.Book` and `dtos.CreateBookDto` are not part of
 * this model; a book is taken to be its identifier and three strings.
 */
module Models {
  import opened ObjectIds

  datatype Book = Book(id: ObjectId, title: string, author: string, year: string)

  /** The body accepted by `CreateBook`. */
  datatype CreateBookDto = CreateBookDto(title: string, author: string, year: string)

  /** The document `InsertOne` stores for a draft under the identifier it assigns. */
  function Inserted(id: ObjectId, dto: CreateBookDto): Book
  {
    Book(id, dto.title, dto.author, dto.year)
  }
}
