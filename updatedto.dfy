/**
 * `dtos.UpdateBookDto` and the partial update `UpdateBook` applies with it.
 * Every field is tagged `omitempty`, so the `$set` document the driver builds
 * from the DTO names only the fields whose value is not the empty string.
 */
module UpdateDto {
  import opened Models

  datatype UpdateBookDto = UpdateBookDto(title: string, author: string, year: string)

  const EmptyDto := UpdateBookDto("", "", "")

  /** The `$set` document: bson field name to new value. */
  function SetDocument(dto: UpdateBookDto): (doc: map<string, string>)
    ensures doc.Keys <= {"title", "author", "year"}
    ensures forall f :: f in doc ==> doc[f] != ""
    ensures ("title" in doc <==> dto.title != "") && ("title" in doc ==> doc["title"] == dto.title)
    ensures ("author" in doc <==> dto.author != "") && ("author" in doc ==> doc["author"] == dto.author)
    ensures ("year" in doc <==> dto.year != "") && ("year" in doc ==> doc["year"] == dto.year)
  {
    var withTitle: map<string, string> := if dto.title != "" then map["title" := dto.title] else map[];
    var withAuthor := if dto.author != "" then withTitle["author" := dto.author] else withTitle;
    if dto.year != "" then withAuthor["year" := dto.year] else withAuthor
  }

  /** MongoDB's `$set`: each named field takes the new value, every other field
      (and `_id`, which a DTO cannot name) keeps its own. */
  function ApplySet(b: Book, doc: map<string, string>): Book
  {
    Book(b.id,
         if "title" in doc then doc["title"] else b.title,
         if "author" in doc then doc["author"] else b.author,
         if "year" in doc then doc["year"] else b.year)
  }

  /** The stored document after `UpdateOne(_id, {$set: dto})` matched it. */
  function Merge(b: Book, dto: UpdateBookDto): (r: Book)
    ensures r.id == b.id
    ensures dto.title != "" ==> r.title == dto.title
    ensures dto.title == "" ==> r.title == b.title
    ensures dto.author != "" ==> r.author == dto.author
    ensures dto.author == "" ==> r.author == b.author
    ensures dto.year != "" ==> r.year == dto.year
    ensures dto.year == "" ==> r.year == b.year
  {
    ApplySet(b, SetDocument(dto))
  }

  /** No update can clear a field: a field that is empty afterwards was empty before. */
  lemma MergeNeverClears(b: Book, dto: UpdateBookDto)
    ensures Merge(b, dto).title == "" ==> b.title == ""
    ensures Merge(b, dto).author == "" ==> b.author == ""
    ensures Merge(b, dto).year == "" ==> b.year == ""
  {
  }

  /** A DTO with every field empty leaves the document as it was. */
  lemma MergeEmpty(b: Book)
    ensures SetDocument(EmptyDto) == map[]
    ensures Merge(b, EmptyDto) == b
  {
  }

  /** Applying the same DTO twice gives the same document as applying it once. */
  lemma MergeIdempotent(b: Book, dto: UpdateBookDto)
    ensures Merge(Merge(b, dto), dto) == Merge(b, dto)
  {
  }

  /** Updating a title leaves the unset author and year as they were. */
  lemma MergeTitleOnly(b: Book)
    requires b.title == "Old" && b.author == "X" && b.year == "2000"
    ensures Merge(b, UpdateBookDto("New", "", "")) == Book(b.id, "New", "X", "2000")
  {
  }
}
