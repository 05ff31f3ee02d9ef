/** The admin destinations screen: a list, a form for a new or an existing
    destination, and a status message. */
module DestinationsEditor {
  import opened Options
  import Seqs
  import JsStrings
  import Tables
  import Http
  import DestinationsRoute

  /** A destination as the screen holds it: `id` is missing for a new one and
      `count` is `_count.tours` when the server sent it. */
  datatype EditedDestination = EditedDestination(
    id: Option<string>, slug: string, name: string, description: string, image: string,
    headerImage: Option<string>, content: Option<string>, count: Option<nat>)

  /** The inputs of the form. */
  datatype Field = Name | Slug | Image | HeaderImage | Description | Content

  /** A save: PUT `/destinations/<id>` with its body, or POST `/destinations`. */
  datatype SaveRequest = UpdateRequest(id: string, patch: DestinationsRoute.DestinationPatch) | CreateRequest(body: EditedDestination)

  const Deleted := "Destination deleted successfully."
  const DeleteFailed := "Failed to delete destination."
  const Updated := "Destination updated successfully!"
  const Created := "Destination created successfully!"
  const SaveFailed := "Failed to save destination."

  /** "+ Add New": every text field empty, no id, no count. */
  const Blank := EditedDestination(None, "", "", "", "", Some(""), Some(""), None)

  /** `{...editingDest, [field]: value}`. */
  function SetField(d: EditedDestination, f: Field, value: string): (r: EditedDestination)
    ensures r.id == d.id && r.count == d.count
    ensures r.name == (if f == Name then value else d.name)
    ensures r.slug == (if f == Slug then value else d.slug)
    ensures r.image == (if f == Image then value else d.image)
    ensures r.description == (if f == Description then value else d.description)
    ensures r.headerImage == (if f == HeaderImage then Some(value) else d.headerImage)
    ensures r.content == (if f == Content then Some(value) else d.content)
  {
    match f
    case Name => d.(name := value)
    case Slug => d.(slug := value)
    case Image => d.(image := value)
    case HeaderImage => d.(headerImage := Some(value))
    case Description => d.(description := value)
    case Content => d.(content := Some(value))
  }

  /** An id is truthy when present and not empty. */
  predicate HasId(d: EditedDestination) { d.id.Some? && d.id.value != "" }

  /** After an update: the entries with the returned id become the returned
      destination, each keeping its own count; nothing else changes. */
  function ReplaceById(list: seq<EditedDestination>, updated: EditedDestination): (r: seq<EditedDestination>)
    ensures |r| == |list|
    ensures forall i :: 0 <= i < |list| ==> r[i].count == list[i].count
    ensures forall i :: 0 <= i < |list| && list[i].id != updated.id ==> r[i] == list[i]
    ensures forall i :: 0 <= i < |list| && list[i].id == updated.id ==> r[i] == updated.(count := list[i].count)
  {
    Seqs.Map(list, (d: EditedDestination) => if d.id == updated.id then updated.(count := d.count) else d)
  }

  /** After a create: the created destination at the end, with no tours yet. */
  function AppendCreated(list: seq<EditedDestination>, created: EditedDestination): (r: seq<EditedDestination>)
    ensures |r| == |list| + 1 && r[..|list|] == list
    ensures r[|list|] == created.(count := Some(0))
  {
    list + [created.(count := Some(0))]
  }

  /** After a delete: every entry with that id removed, the rest in order. */
  function RemoveById(list: seq<EditedDestination>, id: string): (r: seq<EditedDestination>)
    ensures forall d :: d in r <==> d in list && d.id != Some(id)
    ensures Seqs.IsSubsequence(r, list)
  {
    Seqs.FilterMembers(list, (d: EditedDestination) => d.id != Some(id));
    Seqs.FilterIsSubsequence(list, (d: EditedDestination) => d.id != Some(id));
    Seqs.Filter(list, (d: EditedDestination) => d.id != Some(id))
  }

  /** Replacing by id twice with the same server result is the same as once. */
  lemma ReplaceByIdIdempotent(list: seq<EditedDestination>, updated: EditedDestination)
    ensures ReplaceById(ReplaceById(list, updated), updated) == ReplaceById(list, updated)
  {
    var once := ReplaceById(list, updated);
    var twice := ReplaceById(once, updated);
    forall i | 0 <= i < |list| ensures twice[i] == once[i] {
      if list[i].id == updated.id {
        assert once[i].id == updated.id;
      }
    }
  }

  /** The inputs for name, slug, card image and short description carry
      `required`: the browser submits the form only when none is empty. */
  predicate FormComplete(d: EditedDestination)
  {
    d.name != "" && d.slug != "" && d.image != "" && d.description != ""
  }

  /** A row of the `GET /destinations` answer as the screen holds it: the
      destination with its `_count`. */
  function Listed(s: DestinationsRoute.Summary): (r: EditedDestination)
    ensures r.id == Some(s.destination.id) && r.slug == s.destination.slug
    ensures r.count == Some(s.tourCount)
  {
    var d := s.destination;
    EditedDestination(Some(d.id), d.slug, d.name, d.description, d.image, d.headerImage, d.content,
                      Some(s.tourCount))
  }

  /** The PUT body as the screen sends it: `editingDest` itself, so the
      `_count` of a listed destination goes along. */
  function SentBody(d: EditedDestination): (r: DestinationsRoute.DestinationPatch)
    ensures r.count == d.count
    ensures r.slug == Some(d.slug) && r.name == Some(d.name)
  {
    DestinationsRoute.DestinationPatch(Some(d.slug), Some(d.name), Some(d.description), Some(d.image),
                                       d.headerImage, d.content, d.count)
  }

  /** The PUT body with only the columns of the destination: what the
      update is meant to send. */
  function CorrectedBody(d: EditedDestination): (r: DestinationsRoute.DestinationPatch)
    ensures r.count.None?
    ensures r == SentBody(d).(count := None)
  {
    DestinationsRoute.DestinationPatch(Some(d.slug), Some(d.name), Some(d.description), Some(d.image),
                                       d.headerImage, d.content, None)
  }

  /** As written, editing any listed destination and saving it is refused
      by the server: the body carries `_count`. */
  lemma ListedEditRejected(rows: seq<DestinationsRoute.Destination>, s: DestinationsRoute.Summary,
                           edits: seq<(Field, string)>)
    ensures var d := SetFields(Listed(s), edits);
      d.id == Some(s.destination.id) &&
      DestinationsRoute.UpdateResponse(rows, s.destination.id, SentBody(d))
        == Http.Fail(Http.ServerError, DestinationsRoute.UpdateFailed)
  {
    SetFieldsKeepsIdAndCount(Listed(s), edits);
  }

  /** A sequence of change events on the form. */
  function SetFields(d: EditedDestination, edits: seq<(Field, string)>): EditedDestination
    decreases |edits|
  {
    if edits == [] then d else SetFields(SetField(d, edits[0].0, edits[0].1), edits[1..])
  }

  lemma {:induction false} SetFieldsKeepsIdAndCount(d: EditedDestination, edits: seq<(Field, string)>)
    ensures SetFields(d, edits).id == d.id && SetFields(d, edits).count == d.count
    decreases |edits|
  {
    if edits != [] {
      SetFieldsKeepsIdAndCount(SetField(d, edits[0].0, edits[0].1), edits[1..]);
    }
  }

  /** With the corrected body, saving an edited destination whose slug no
      other destination has stores exactly what the form shows, under the
      same id. */
  lemma CorrectedEditStored(rows: seq<DestinationsRoute.Destination>, i: nat, d: EditedDestination)
    requires Tables.UniqueKeys(rows, DestinationsRoute.Id)
    requires i < |rows| && DestinationsRoute.SlugFreeFor(rows, i, d.slug)
    ensures DestinationsRoute.UpdateResponse(rows, rows[i].id, CorrectedBody(d))
         == Http.Ok(DestinationsRoute.Destination(
              rows[i].id, d.slug, d.name, d.description, d.image,
              if d.headerImage.Some? then d.headerImage else rows[i].headerImage,
              if d.content.Some? then d.content else rows[i].content))
  {
  }

  /** The message is styled as a success when it contains "success". */
  predicate MessageIsSuccess(message: string)
  {
    JsStrings.Contains(message, "success")
  }

  /** The three success messages are styled as successes. */
  lemma SuccessMessagesStyled()
    ensures MessageIsSuccess(Deleted) && MessageIsSuccess(Updated) && MessageIsSuccess(Created)
  {
    assert "success" <= Deleted[20..];
    assert "success" <= Updated[20..];
    assert "success" <= Created[20..];
  }

  /** A message without the letter "u" is not styled as a success. */
  lemma NoUMeansFailure(message: string)
    requires 'u' !in message
    ensures !MessageIsSuccess(message)
  {
    JsStrings.MissingCharNotContained(message, "success", 1);
  }

  /** The failure message of a delete is not styled as a success (it has no "u"). */
  lemma DeleteFailureStyled()
    ensures !MessageIsSuccess(DeleteFailed)
  {
    var m := DeleteFailed;
    assert forall i | 0 <= i < |m| :: m[i] != 'u';
    NoUMeansFailure(m);
  }

  /** The failure message of a save is not styled as a success (it has no "u"). */
  lemma SaveFailureStyled()
    ensures !MessageIsSuccess(SaveFailed)
  {
    var m := SaveFailed;
    assert forall i | 0 <= i < |m| :: m[i] != 'u';
    NoUMeansFailure(m);
  }

  class DestinationsEditorState {
    var destinations: seq<EditedDestination>
    var loading: bool
    var editingDest: Option<EditedDestination>
    var isFormOpen: bool
    var message: string

    constructor()
      ensures destinations == [] && loading && editingDest.None? && !isFormOpen && message == ""
    {
      destinations := [];
      loading := true;
      editingDest := None;
      isFormOpen := false;
      message := "";
    }

    /** `fetchDestinations` once the GET settles. */
    method FetchSettled(fetched: Option<seq<EditedDestination>>)
      modifies this
      ensures !loading && editingDest == old(editingDest) && isFormOpen == old(isFormOpen)
      ensures destinations == if fetched.Some? then fetched.value else old(destinations)
    {
      if fetched.Some? {
        destinations := fetched.value;
      }
      loading := false;
    }

    /** "Edit" on a row. */
    method HandleEdit(d: EditedDestination)
      modifies this
      ensures editingDest == Some(d) && isFormOpen && destinations == old(destinations)
    {
      editingDest := Some(d);
      isFormOpen := true;
    }

    /** "+ Add New": the form on a blank destination with no id. */
    method HandleAddNew()
      modifies this
      ensures editingDest == Some(Blank) && !HasId(editingDest.value) && isFormOpen
      ensures destinations == old(destinations)
    {
      editingDest := Some(Blank);
      isFormOpen := true;
    }

    /** "Cancel": the form closes and forgets the destination. */
    method HandleCloseForm()
      modifies this
      ensures editingDest.None? && !isFormOpen && destinations == old(destinations)
    {
      isFormOpen := false;
      editingDest := None;
    }

    /** A change event on one input of the open form. */
    method HandleChange(f: Field, value: string)
      requires editingDest.Some?
      modifies this
      ensures editingDest == Some(SetField(old(editingDest.value), f, value))
      ensures destinations == old(destinations) && isFormOpen == old(isFormOpen)
    {
      editingDest := Some(SetField(editingDest.value, f, value));
    }

    /** "Delete" on a row: the id to delete, unless the row has no id or the
        dialog was declined. */
    method HandleDelete(id: Option<string>, confirmed: bool) returns (request: Option<string>)
      ensures request.Some? <==> id.Some? && id.value != "" && confirmed
      ensures request.Some? ==> request == id
    {
      if id.None? || id.value == "" {
        return None;
      }
      if !confirmed {
        return None;
      }
      request := id;
    }

    /** The delete once it settles. */
    method DeleteSettled(id: string, succeeded: bool)
      modifies this
      ensures succeeded ==> destinations == RemoveById(old(destinations), id) && message == Deleted
      ensures !succeeded ==> destinations == old(destinations) && message == DeleteFailed
      ensures editingDest == old(editingDest) && isFormOpen == old(isFormOpen)
    {
      if succeeded {
        destinations := RemoveById(destinations, id);
        message := Deleted;
      } else {
        message := DeleteFailed;
      }
    }

    /** The save submit up to the request: nothing without a destination or
        while a required input is empty (the browser holds the form back);
        an update of the destination's columns when it has an id, a create
        otherwise. The update carries `CorrectedBody`, without the `_count`
        of a listed entry; the screen as written sends `SentBody`. */
    method BeginSave() returns (request: Option<SaveRequest>)
      ensures request.None? <==> editingDest.None? || !FormComplete(editingDest.value)
      ensures request.Some? && HasId(editingDest.value) ==>
        request.value == UpdateRequest(editingDest.value.id.value, CorrectedBody(editingDest.value))
      ensures request.Some? && !HasId(editingDest.value) ==> request.value == CreateRequest(editingDest.value)
      ensures request.Some? ==> FormComplete(editingDest.value)
    {
      if editingDest.None? || !FormComplete(editingDest.value) {
        return None;
      }
      var d := editingDest.value;
      if HasId(d) {
        request := Some(UpdateRequest(d.id.value, CorrectedBody(d)));
      } else {
        request := Some(CreateRequest(d));
      }
    }

    /** The save once the request settles with the server's destination (or
        fails): on success the list is updated and the form closes; on
        failure only the message changes. */
    method SaveSettled(request: SaveRequest, result: Option<EditedDestination>)
      modifies this
      ensures result.None? ==>
        destinations == old(destinations) && message == SaveFailed &&
        editingDest == old(editingDest) && isFormOpen == old(isFormOpen)
      ensures result.Some? ==> editingDest.None? && !isFormOpen
      ensures result.Some? && request.UpdateRequest? ==>
        destinations == ReplaceById(old(destinations), result.value) && message == Updated
      ensures result.Some? && request.CreateRequest? ==>
        destinations == AppendCreated(old(destinations), result.value) && message == Created
    {
      if result.None? {
        message := SaveFailed;
        return;
      }
      if request.UpdateRequest? {
        destinations := ReplaceById(destinations, result.value);
        message := Updated;
      } else {
        destinations := AppendCreated(destinations, result.value);
        message := Created;
      }
      isFormOpen := false;
      editingDest := None;
    }
  }
}
