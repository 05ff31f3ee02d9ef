/** The `/api/tours` routes: the tour table, with each tour's tags stored as
    JSON text and decoded again on every response. */
module ToursRoute {
  import opened Options
  import opened Http
  import Seqs
  import Tables
  import TagsJson

  /** A row of the tour table; `tags` holds the JSON text of the tag list. */
  datatype TourRow = TourRow(
    id: string, title: string, description: string, price: int, duration: string,
    image: string, category: string, rating: int, reviews: int, tags: string)

  /** A tour as the routes return it: the row with its tags decoded. */
  datatype Tour = Tour(
    id: string, title: string, description: string, price: int, duration: string,
    image: string, category: string, rating: int, reviews: int, tags: seq<string>)

  /** The fields a POST or PUT body supplies; `tags` may be missing. */
  datatype TourBody = TourBody(
    title: string, description: string, price: int, duration: string,
    image: string, category: string, tags: Option<seq<string>>)

  const FetchToursFailed := "Failed to fetch tours"
  const TourNotFound := "Tour not found"
  const FetchTourFailed := "Failed to fetch tour"
  const CreateFailed := "Failed to create tour"
  const UpdateFailed := "Failed to update tour"
  const DeleteFailed := "Failed to delete tour"
  const Deleted := "Tour deleted successfully"

  function RowId(t: TourRow): string { t.id }

  /** `JSON.stringify(tags || [])`: the text stored for the body's tags. */
  function StoredTags(tags: Option<seq<string>>): (r: string)
    ensures TagsJson.Decode(r) == Some(tags.GetOr([]))
  {
    TagsJson.DecodeEncode(tags.GetOr([]));
    TagsJson.Encode(tags.GetOr([]))
  }

  /** `{...tour, tags: JSON.parse(tour.tags)}`; `None` where the parse throws. */
  function Present(t: TourRow): (r: Option<Tour>)
    ensures r.Some? <==> TagsJson.Decode(t.tags).Some?
    ensures r.Some? ==> r.value.id == t.id && Some(r.value.tags) == TagsJson.Decode(t.tags)
  {
    match TagsJson.Decode(t.tags)
    case None => None
    case Some(tags) =>
      Some(Tour(t.id, t.title, t.description, t.price, t.duration, t.image, t.category,
                t.rating, t.reviews, tags))
  }

  /** `tours.map(...)`: every row presented, or `None` when any parse throws. */
  function PresentAll(rows: seq<TourRow>): (r: Option<seq<Tour>>)
    ensures r.Some? ==> |r.value| == |rows| && forall i :: 0 <= i < |rows| ==> Present(rows[i]) == Some(r.value[i])
    ensures r.None? <==> exists i :: 0 <= i < |rows| && Present(rows[i]).None?
  {
    if rows == [] then Some([])
    else
      match Present(rows[0])
      case None => None
      case Some(t) =>
        match PresentAll(rows[1..])
        case None =>
          var i :| 0 <= i < |rows[1..]| && Present(rows[1..][i]).None?;
          assert rows[i + 1] == rows[1..][i];
          None
        case Some(ts) =>
          assert forall i :: 1 <= i < |rows| ==> rows[i] == rows[1..][i - 1];
          Some([t] + ts)
  }

  /** The row a create writes: the body's fields, tags as JSON, and the
      schema's defaults for the fields the body does not set. */
  function NewRow(id: string, body: TourBody, rating: int, reviews: int): TourRow
  {
    TourRow(id, body.title, body.description, body.price, body.duration, body.image,
            body.category, rating, reviews, StoredTags(body.tags))
  }

  /** What an update writes: the seven body fields; id, rating and reviews kept. */
  function UpdatedRow(old_: TourRow, body: TourBody): TourRow
  {
    old_.(title := body.title, description := body.description, price := body.price,
          duration := body.duration, image := body.image, category := body.category,
          tags := StoredTags(body.tags))
  }

  /** Every stored row presents as the body it was written from: the tags of
      the response are the body's tags, or `[]` when the body had none. */
  lemma PresentNewRow(id: string, body: TourBody, rating: int, reviews: int)
    ensures Present(NewRow(id, body, rating, reviews))
         == Some(Tour(id, body.title, body.description, body.price, body.duration, body.image,
                      body.category, rating, reviews, body.tags.GetOr([])))
  {
  }

  /** An updated row presents with the body's fields and the old id, rating and reviews. */
  lemma PresentUpdatedRow(old_: TourRow, body: TourBody)
    ensures Present(UpdatedRow(old_, body))
         == Some(Tour(old_.id, body.title, body.description, body.price, body.duration, body.image,
                      body.category, old_.rating, old_.reviews, body.tags.GetOr([])))
  {
  }

  /** The tour table (the Prisma `tour` model). */
  class TourTable {
    var rows: seq<TourRow>

    ghost predicate Valid()
      reads this
    {
      Tables.UniqueKeys(rows, RowId)
    }

    constructor(initial: seq<TourRow>)
      requires Tables.UniqueKeys(initial, RowId)
      ensures Valid() && rows == initial
    {
      rows := initial;
    }

    /** GET `/`: every stored tour, in table order, with tags decoded. */
    function List(): (r: Response<seq<Tour>>)
      reads this
      ensures r.Ok? ==> |r.body| == |rows| && forall i :: 0 <= i < |rows| ==> Present(rows[i]) == Some(r.body[i])
      ensures r.Fail? ==> r == Fail(ServerError, FetchToursFailed)
      ensures r.Fail? <==> exists i :: 0 <= i < |rows| && TagsJson.Decode(rows[i].tags).None?
    {
      match PresentAll(rows)
      case Some(ts) => Ok(ts)
      case None => Fail(ServerError, FetchToursFailed)
    }

    /** GET `/:id`: 404 exactly when no tour has the id. */
    function Get(id: string): (r: Response<Tour>)
      reads this
      ensures r == Fail(NotFound, TourNotFound) <==> id !in Tables.Keys(rows, RowId)
      ensures r.Ok? ==> r.body.id == id && exists i :: 0 <= i < |rows| && Present(rows[i]) == Some(r.body)
      ensures r.Fail? && id in Tables.Keys(rows, RowId) ==> r == Fail(ServerError, FetchTourFailed)
      ensures Tables.UniqueKeys(rows, RowId) ==>
                (r.Ok? <==> exists i :: 0 <= i < |rows| && rows[i].id == id && Present(rows[i]).Some?)
      ensures Tables.UniqueKeys(rows, RowId) ==>
                forall i :: 0 <= i < |rows| && rows[i].id == id && Present(rows[i]).Some? ==>
                  r == Ok(Present(rows[i]).value)
    {
      match Tables.Find(rows, RowId, id)
      case None => Fail(NotFound, TourNotFound)
      case Some(i) =>
        match Present(rows[i])
        case Some(t) => Ok(t)
        case None => Fail(ServerError, FetchTourFailed)
    }

    /** POST `/`. The store chooses `newId` and fills `rating` and `reviews`
        with the schema's defaults; a key clash fails the insert. */
    method Create(body: TourBody, newId: string, rating: int, reviews: int) returns (r: Response<Tour>)
      requires Valid()
      modifies this
      ensures Valid()
      ensures newId in Tables.Keys(old(rows), RowId) ==>
                r == Fail(ServerError, CreateFailed) && rows == old(rows)
      ensures newId !in Tables.Keys(old(rows), RowId) ==>
                rows == old(rows) + [NewRow(newId, body, rating, reviews)] &&
                r == Ok(Tour(newId, body.title, body.description, body.price, body.duration,
                             body.image, body.category, rating, reviews, body.tags.GetOr([])))
    {
      if newId in Tables.Keys(rows, RowId) {
        return Fail(ServerError, CreateFailed);
      }
      var row := NewRow(newId, body, rating, reviews);
      Tables.KeysAppend(rows, RowId, row);
      rows := rows + [row];
      PresentNewRow(newId, body, rating, reviews);
      r := Ok(Present(row).value);
    }

    /** PUT `/:id`: rewrites the seven body fields of that tour only. */
    method Update(id: string, body: TourBody) returns (r: Response<Tour>)
      requires Valid()
      modifies this
      ensures Valid()
      ensures id !in Tables.Keys(old(rows), RowId) ==>
                r == Fail(ServerError, UpdateFailed) && rows == old(rows)
      ensures id in Tables.Keys(old(rows), RowId) ==>
                |rows| == |old(rows)| &&
                (forall i :: 0 <= i < |rows| ==>
                   rows[i] == if old(rows)[i].id == id then UpdatedRow(old(rows)[i], body) else old(rows)[i]) &&
                r.Ok? && r.body.id == id && r.body.tags == body.tags.GetOr([])
      ensures forall i :: 0 <= i < |old(rows)| && old(rows)[i].id == id ==>
                r == Ok(Tour(id, body.title, body.description, body.price, body.duration, body.image,
                             body.category, old(rows)[i].rating, old(rows)[i].reviews, body.tags.GetOr([])))
    {
      var found := Tables.Find(rows, RowId, id);
      if found.None? {
        return Fail(ServerError, UpdateFailed);
      }
      var i := found.value;
      var row := UpdatedRow(rows[i], body);
      PresentUpdatedRow(rows[i], body);
      rows := rows[i := row];
      r := Ok(Present(row).value);
    }

    /** DELETE `/:id`: removes the tour with that id and nothing else. */
    method Delete(id: string) returns (r: Response<string>)
      requires Valid()
      modifies this
      ensures Valid()
      ensures id !in Tables.Keys(old(rows), RowId) ==>
                r == Fail(ServerError, DeleteFailed) && rows == old(rows)
      ensures id in Tables.Keys(old(rows), RowId) ==>
                r == Ok(Deleted) &&
                rows == Seqs.Filter(old(rows), (t: TourRow) => t.id != id) &&
                Tables.Keys(rows, RowId) == Tables.Keys(old(rows), RowId) - {id}
    {
      var found := Tables.Find(rows, RowId, id);
      if found.None? {
        return Fail(ServerError, DeleteFailed);
      }
      var i := found.value;
      Tables.RemoveAtFilters(rows, RowId, i, (t: TourRow) => t.id != id);
      Tables.RemoveAtKeys(rows, RowId, i);
      rows := rows[..i] + rows[i + 1..];
      r := Ok(Deleted);
    }
  }

  /** What a create stores is what the list then returns for it. */
  lemma CreatedTourListed(rows: seq<TourRow>, id: string, body: TourBody, rating: int, reviews: int)
    requires PresentAll(rows).Some?
    ensures PresentAll(rows + [NewRow(id, body, rating, reviews)])
         == Some(PresentAll(rows).value +
                 [Tour(id, body.title, body.description, body.price, body.duration, body.image,
                       body.category, rating, reviews, body.tags.GetOr([]))])
  {
    var t := rows + [NewRow(id, body, rating, reviews)];
    PresentNewRow(id, body, rating, reviews);
    assert forall i :: 0 <= i < |rows| ==> t[i] == rows[i];
    var r := PresentAll(t);
    assert r.value == PresentAll(rows).value + [Present(t[|rows|]).value];
  }
}
