/** The `/api/destinations` routes: the destination table, looked up by id
    or by slug, with the tours linked to each destination. */
module DestinationsRoute {
  import opened Options
  import opened Http
  import Seqs
  import Tables
  import ToursRoute

  const FetchAllFailed := "Failed to fetch destinations"
  const NotFoundError := "Destination not found"
  const FetchOneFailed := "Failed to fetch destination"
  const CreateFailed := "Failed to create destination"
  const UpdateFailed := "Failed to update destination"
  const DeleteFailed := "Failed to delete destination"

  /** A row of the destination table; `slug` is unique like `id`. */
  datatype Destination = Destination(
    id: string, slug: string, name: string, description: string, image: string,
    headerImage: Option<string>, content: Option<string>)

  /** The fields of a create body. */
  datatype NewDestination = NewDestination(
    slug: string, name: string, description: string, image: string,
    headerImage: Option<string>, content: Option<string>)

  /** The fields an update body carries; a missing field is left as it is.
      `count` is the `_count` object a body may carry besides, which names
      no column of the table. */
  datatype DestinationPatch = DestinationPatch(
    slug: Option<string>, name: Option<string>, description: Option<string>, image: Option<string>,
    headerImage: Option<string>, content: Option<string>, count: Option<nat>)

  /** A tour row together with the destination it is linked to, if any. */
  datatype LinkedTour = LinkedTour(destinationId: Option<string>, tour: ToursRoute.TourRow)

  /** GET `/`: a destination with `_count.tours`. */
  datatype Summary = Summary(destination: Destination, tourCount: nat)

  /** GET `/:idOrSlug`: a destination with its tours. */
  datatype Detail = Detail(destination: Destination, tours: seq<ToursRoute.TourRow>)

  function Id(d: Destination): string { d.id }
  function Slug(d: Destination): string { d.slug }

  function TourOf(l: LinkedTour): ToursRoute.TourRow { l.tour }

  /** The tours linked to destination `id`: exactly the tours whose
      `destinationId` is `id`, in table order. */
  function ToursOf(id: string, links: seq<LinkedTour>): (r: seq<ToursRoute.TourRow>)
    ensures |r| <= |links|
    ensures forall t :: t in r <==> exists l :: l in links && l.destinationId == Some(id) && l.tour == t
    ensures Seqs.IsSubsequence(r, Seqs.Map(links, TourOf))
  {
    var linked := Seqs.Filter(links, (l: LinkedTour) => l.destinationId == Some(id));
    Seqs.FilterMembers(links, (l: LinkedTour) => l.destinationId == Some(id));
    Seqs.FilterIsSubsequence(links, (l: LinkedTour) => l.destinationId == Some(id));
    Seqs.MapKeepsSubsequence(linked, links, TourOf);
    var r := Seqs.Map(linked, TourOf);
    assert forall t :: t in r ==> exists l :: l in links && l.destinationId == Some(id) && l.tour == t by {
      forall t | t in r ensures exists l :: l in links && l.destinationId == Some(id) && l.tour == t {
        var i :| 0 <= i < |r| && r[i] == t;
        assert linked[i] in linked;
      }
    }
    assert forall l :: l in links && l.destinationId == Some(id) ==> l.tour in r by {
      forall l | l in links && l.destinationId == Some(id) ensures l.tour in r {
        var i :| 0 <= i < |linked| && linked[i] == l;
        assert r[i] == l.tour;
      }
    }
    r
  }

  /** `where: {OR: [{id: key}, {slug: key}]}`. */
  predicate Matches(d: Destination, key: string)
  {
    d.id == key || d.slug == key
  }

  /** `data: req.body` on update: the body's fields replace the stored ones. */
  function ApplyPatch(d: Destination, p: DestinationPatch): (r: Destination)
    ensures r.id == d.id
    ensures r.slug == p.slug.GetOr(d.slug) && r.name == p.name.GetOr(d.name)
    ensures r.description == p.description.GetOr(d.description) && r.image == p.image.GetOr(d.image)
    ensures r.headerImage == (if p.headerImage.Some? then p.headerImage else d.headerImage)
    ensures r.content == (if p.content.Some? then p.content else d.content)
  {
    Destination(d.id, p.slug.GetOr(d.slug), p.name.GetOr(d.name), p.description.GetOr(d.description),
                p.image.GetOr(d.image),
                if p.headerImage.Some? then p.headerImage else d.headerImage,
                if p.content.Some? then p.content else d.content)
  }

  /** An empty patch changes nothing. */
  lemma EmptyPatchIdentity(d: Destination)
    ensures ApplyPatch(d, DestinationPatch(None, None, None, None, None, None, None)) == d
  {
  }

  /** A patch that restates the stored fields changes nothing either. */
  lemma FullPatchOfSelf(d: Destination)
    ensures ApplyPatch(d, DestinationPatch(Some(d.slug), Some(d.name), Some(d.description), Some(d.image),
                                           d.headerImage, d.content, None)) == d
  {
  }

  /** No destination other than the one at `i` has `slug`. */
  predicate SlugFreeFor(rows: seq<Destination>, i: nat, slug: string)
  {
    forall j :: 0 <= j < |rows| && j != i ==> rows[j].slug != slug
  }

  /** The answer of PUT `/:id` with body `patch` on the table `rows`. The
      update fails when no destination has the id, when the body carries
      something that is not a column (`_count`), or when the patched slug
      is taken by another destination; otherwise it answers the patched
      destination. */
  function UpdateResponse(rows: seq<Destination>, id: string, patch: DestinationPatch): (r: Response<Destination>)
    ensures r.Fail? ==> r == Fail(ServerError, UpdateFailed)
    ensures id !in Tables.Keys(rows, Id) || patch.count.Some? ==> r.Fail?
    ensures Tables.UniqueKeys(rows, Id) ==>
      forall i :: 0 <= i < |rows| && rows[i].id == id ==>
        (r.Ok? <==> patch.count.None? && SlugFreeFor(rows, i, ApplyPatch(rows[i], patch).slug)) &&
        (r.Ok? ==> r.body == ApplyPatch(rows[i], patch))
  {
    match Tables.Find(rows, Id, id)
    case None => Fail(ServerError, UpdateFailed)
    case Some(i) =>
      var d := ApplyPatch(rows[i], patch);
      if patch.count.Some? || !SlugFreeFor(rows, i, d.slug) then Fail(ServerError, UpdateFailed)
      else Ok(d)
  }

  /** The destination table (the Prisma `destination` model). */
  class DestinationTable {
    var rows: seq<Destination>

    ghost predicate Valid()
      reads this
    {
      Tables.UniqueKeys(rows, Id) && Tables.UniqueKeys(rows, Slug)
    }

    constructor(initial: seq<Destination>)
      requires Tables.UniqueKeys(initial, Id) && Tables.UniqueKeys(initial, Slug)
      ensures Valid() && rows == initial
    {
      rows := initial;
    }

    /** GET `/`: every destination in table order with its number of tours. */
    function List(links: seq<LinkedTour>): (r: seq<Summary>)
      reads this
      ensures |r| == |rows|
      ensures forall i :: 0 <= i < |rows| ==>
        r[i].destination == rows[i] && r[i].tourCount == |ToursOf(rows[i].id, links)|
    {
      seq(|rows|, i requires 0 <= i < |rows| reads this => Summary(rows[i], |ToursOf(rows[i].id, links)|))
    }

    /** GET `/:idOrSlug`: the first destination whose id or slug is the key,
        with its tours; 404 exactly when there is none. */
    function Get(key: string, links: seq<LinkedTour>): (r: Response<Detail>)
      reads this
      ensures r.Fail? <==> forall i :: 0 <= i < |rows| ==> !Matches(rows[i], key)
      ensures r.Fail? ==> r == Fail(NotFound, NotFoundError)
      ensures r.Ok? ==> Matches(r.body.destination, key) && r.body.tours == ToursOf(r.body.destination.id, links)
      ensures r.Ok? ==> exists i :: 0 <= i < |rows| && rows[i] == r.body.destination &&
                         forall j :: 0 <= j < i ==> !Matches(rows[j], key)
    {
      match Tables.FindFirst(rows, (d: Destination) => Matches(d, key))
      case None => Fail(NotFound, NotFoundError)
      case Some(i) => Ok(Detail(rows[i], ToursOf(rows[i].id, links)))
    }

    /** POST `/`: a new row with id `newId` (chosen by the store); a clash on
        id or slug fails the insert. */
    method Create(body: NewDestination, newId: string) returns (r: Response<Destination>)
      requires Valid()
      modifies this
      ensures Valid()
      ensures r.Fail? <==> newId in Tables.Keys(old(rows), Id) || body.slug in Tables.Keys(old(rows), Slug)
      ensures r.Fail? ==> r == Fail(ServerError, CreateFailed) && rows == old(rows)
      ensures r.Ok? ==>
        r.body == Destination(newId, body.slug, body.name, body.description, body.image, body.headerImage, body.content) &&
        rows == old(rows) + [r.body]
    {
      if newId in Tables.Keys(rows, Id) || body.slug in Tables.Keys(rows, Slug) {
        return Fail(ServerError, CreateFailed);
      }
      var d := Destination(newId, body.slug, body.name, body.description, body.image, body.headerImage, body.content);
      Tables.KeysAppend(rows, Id, d);
      Tables.KeysAppend(rows, Slug, d);
      rows := rows + [d];
      r := Ok(d);
    }

    /** PUT `/:id`: the answer is `UpdateResponse`; on success the body's
        fields replace those of that destination only. */
    method Update(id: string, patch: DestinationPatch) returns (r: Response<Destination>)
      requires Valid()
      modifies this
      ensures Valid()
      ensures r == UpdateResponse(old(rows), id, patch)
      ensures r.Fail? ==> rows == old(rows)
      ensures r.Ok? ==>
        |rows| == |old(rows)| && r.body.id == id &&
        forall i :: 0 <= i < |rows| ==>
          rows[i] == if old(rows)[i].id == id then ApplyPatch(old(rows)[i], patch) else old(rows)[i]
    {
      var found := Tables.Find(rows, Id, id);
      if found.None? {
        return Fail(ServerError, UpdateFailed);
      }
      var i := found.value;
      var d := ApplyPatch(rows[i], patch);
      if patch.count.Some? || !SlugFreeFor(rows, i, d.slug) {
        return Fail(ServerError, UpdateFailed);
      }
      rows := rows[i := d];
      r := Ok(d);
    }

    /** DELETE `/:id`: removes that destination and no other. */
    method Delete(id: string) returns (r: Response<bool>)
      requires Valid()
      modifies this
      ensures Valid()
      ensures id !in Tables.Keys(old(rows), Id) ==> r == Fail(ServerError, DeleteFailed) && rows == old(rows)
      ensures id in Tables.Keys(old(rows), Id) ==>
        r == Ok(true) && rows == Seqs.Filter(old(rows), (d: Destination) => d.id != id) &&
        Tables.Keys(rows, Id) == Tables.Keys(old(rows), Id) - {id}
    {
      var found := Tables.Find(rows, Id, id);
      if found.None? {
        return Fail(ServerError, DeleteFailed);
      }
      var i := found.value;
      Tables.RemoveAtFilters(rows, Id, i, (d: Destination) => d.id != id);
      Tables.RemoveAtKeys(rows, Id, i);
      Tables.RemoveAtKeys(rows, Slug, i);
      rows := rows[..i] + rows[i + 1..];
      r := Ok(true);
    }
  }
}
