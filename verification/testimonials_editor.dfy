/** The admin "Testimonials Editor": a list of testimonials kept as JSON text
    under the `testimonials` setting, with add, edit-by-id and delete-by-id. */
module TestimonialsEditor {
  import opened Options
  import Seqs
  import JsStrings

  datatype Testimonial = Testimonial(id: int, name: string, country: string, quote: string, rating: int)

  /** An element of the parsed JSON array before normalisation; `None` is a
      missing field. */
  datatype StoredTestimonial = StoredTestimonial(id: Option<int>, name: string, country: string, quote: string, rating: Option<int>)

  /** The form: a testimonial without its id. */
  datatype Draft = Draft(name: string, country: string, quote: string, rating: int)

  const DefaultRating := 5
  const Blank := Draft("", "", "", DefaultRating)

  const Saved := "Testimonials saved successfully!"
  const SaveFailed := "Failed to save testimonials."

  /** A number is falsy when it is 0; a missing field is falsy too. */
  predicate Falsy(n: Option<int>)
  {
    n.None? || n.value == 0
  }

  /** `t.id || index + 1` and `t.rating || 5`. */
  function NormaliseOne(t: StoredTestimonial, index: nat): (r: Testimonial)
    ensures r.id == (if Falsy(t.id) then index + 1 else t.id.value)
    ensures r.rating == (if Falsy(t.rating) then DefaultRating else t.rating.value)
    ensures r.name == t.name && r.country == t.country && r.quote == t.quote
  {
    Testimonial(if Falsy(t.id) then index + 1 else t.id.value, t.name, t.country, t.quote,
                if Falsy(t.rating) then DefaultRating else t.rating.value)
  }

  /** The list the editor shows for the stored JSON: each element normalised
      at its position, or `[]` when the text does not parse as an array. */
  function Normalise(parsed: Option<seq<StoredTestimonial>>): (r: seq<Testimonial>)
    ensures parsed.None? ==> r == []
    ensures parsed.Some? ==> |r| == |parsed.value|
    ensures parsed.Some? ==> forall i :: 0 <= i < |r| ==> r[i] == NormaliseOne(parsed.value[i], i)
    ensures forall i :: 0 <= i < |r| ==> r[i].id != 0 && r[i].rating != 0
  {
    match parsed
    case None => []
    case Some(list) => seq(|list|, i requires 0 <= i < |list| => NormaliseOne(list[i], i))
  }

  predicate UniqueIds(list: seq<Testimonial>)
  {
    forall i, j :: 0 <= i < j < |list| ==> list[i].id != list[j].id
  }

  /** The loaded list need not have distinct ids: an entry without an id
      takes its position plus one, which another entry may already hold. */
  lemma NormaliseCanRepeatIds()
    ensures !UniqueIds(Normalise(Some([StoredTestimonial(Some(2), "", "", "", None),
                                       StoredTestimonial(None, "", "", "", None)])))
  {
    var r := Normalise(Some([StoredTestimonial(Some(2), "", "", "", None),
                             StoredTestimonial(None, "", "", "", None)]));
    assert r[0].id == 2 && r[1].id == 2;
  }

  /** `Math.max(0, ...ids)`. */
  function MaxId(list: seq<Testimonial>): (r: int)
    ensures r >= 0
    ensures forall i :: 0 <= i < |list| ==> list[i].id <= r
    ensures r == 0 || exists i :: 0 <= i < |list| && list[i].id == r
  {
    if list == [] then 0
    else
      var rest := MaxId(list[1..]);
      assert forall i :: 1 <= i < |list| ==> list[i] == list[1..][i - 1];
      if list[0].id > rest then list[0].id else rest
  }

  /** The id a new testimonial gets: greater than every id in the list. */
  function NextId(list: seq<Testimonial>): (r: int)
    ensures r >= 1
    ensures forall i :: 0 <= i < |list| ==> list[i].id < r
  {
    MaxId(list) + 1
  }

  function WithId(d: Draft, id: int): Testimonial
  {
    Testimonial(id, d.name, d.country, d.quote, d.rating)
  }

  /** The list after adding `d`: appended at the end with a fresh id. */
  function Added(list: seq<Testimonial>, d: Draft): (r: seq<Testimonial>)
    ensures |r| == |list| + 1 && r[..|list|] == list
    ensures r[|list|] == WithId(d, NextId(list))
    ensures UniqueIds(list) ==> UniqueIds(r)
  {
    list + [WithId(d, NextId(list))]
  }

  /** The list after editing `id`: each entry with that id replaced by the
      draft, keeping the id; all other entries as they were. */
  function Edited(list: seq<Testimonial>, id: int, d: Draft): (r: seq<Testimonial>)
    ensures |r| == |list|
    ensures forall i :: 0 <= i < |r| ==> r[i].id == list[i].id
    ensures forall i :: 0 <= i < |r| ==> r[i] == (if list[i].id == id then WithId(d, id) else list[i])
    ensures UniqueIds(list) ==> UniqueIds(r)
  {
    Seqs.Map(list, (t: Testimonial) => if t.id == id then WithId(d, id) else t)
  }

  /** The list after deleting `id`: the entries with another id, in order. */
  function Deleted(list: seq<Testimonial>, id: int): (r: seq<Testimonial>)
    ensures forall t :: t in r <==> t in list && t.id != id
  {
    Seqs.FilterMembers(list, (t: Testimonial) => t.id != id);
    Seqs.Filter(list, (t: Testimonial) => t.id != id)
  }

  /** A delete keeps the order of the remaining entries and keeps ids unique. */
  lemma {:induction false} DeletedKeepsOrder(list: seq<Testimonial>, id: int)
    ensures Seqs.IsSubsequence(Deleted(list, id), list)
    ensures UniqueIds(list) ==> UniqueIds(Deleted(list, id))
  {
    Seqs.FilterIsSubsequence(list, (t: Testimonial) => t.id != id);
    if UniqueIds(list) {
      FilterKeepsUniqueIds(list, (t: Testimonial) => t.id != id);
    }
  }

  lemma {:induction false} FilterKeepsUniqueIds(list: seq<Testimonial>, p: Testimonial -> bool)
    requires UniqueIds(list)
    ensures UniqueIds(Seqs.Filter(list, p))
  {
    if list != [] {
      var rest := list[1..];
      assert UniqueIds(rest) by {
        forall i, j | 0 <= i < j < |rest| ensures rest[i].id != rest[j].id {
          assert rest[i] == list[i + 1] && rest[j] == list[j + 1];
        }
      }
      FilterKeepsUniqueIds(rest, p);
      if p(list[0]) {
        var f := Seqs.Filter(rest, p);
        Seqs.FilterMembers(rest, p);
        forall j | 0 <= j < |f| ensures list[0].id != f[j].id {
          assert f[j] in rest;
          var k :| 0 <= k < |rest| && rest[k] == f[j];
          assert rest[k] == list[k + 1];
        }
        var r := [list[0]] + f;
        forall i, j | 0 <= i < j < |r| ensures r[i].id != r[j].id {
          if i == 0 {
            assert r[j] == f[j - 1];
          } else {
            assert r[i] == f[i - 1] && r[j] == f[j - 1];
          }
        }
      }
    }
  }

  /** The star line `'★'.repeat(rating) + '☆'.repeat(5 - rating)`: `rating`
      filled stars then empty ones up to five; None where `repeat` throws a
      RangeError (a negative count). */
  function StarLine(rating: int): (r: Option<string>)
    ensures r.Some? <==> 0 <= rating <= 5
    ensures r.Some? ==> |r.value| == 5
    ensures r.Some? ==> forall i :: 0 <= i < 5 ==> r.value[i] == (if i < rating then '★' else '☆')
  {
    if 0 <= rating <= 5 then Some(JsStrings.Repeat('★', rating) + JsStrings.Repeat('☆', 5 - rating))
    else None
  }

  /** The name, country and quote inputs carry `required`: the browser
      submits the form only when none of them is empty. */
  predicate DraftComplete(d: Draft)
  {
    d.name != "" && d.country != "" && d.quote != ""
  }

  class TestimonialsEditorState {
    var testimonials: seq<Testimonial>
    var editingId: Option<int>
    var formData: Draft
    var saving: bool
    var message: string

    constructor()
      ensures testimonials == [] && editingId.None? && formData == Blank
      ensures !saving && message == ""
    {
      testimonials := [];
      editingId := None;
      formData := Blank;
      saving := false;
      message := "";
    }

    /** The effect on the `testimonials` setting: nothing when the text is
        empty or absent, otherwise the normalised parse. */
    method StoredTextChanged(text: string, parsed: Option<seq<StoredTestimonial>>)
      modifies this
      ensures text == "" ==> testimonials == old(testimonials)
      ensures text != "" ==> testimonials == Normalise(parsed)
      ensures editingId == old(editingId) && formData == old(formData)
      ensures saving == old(saving) && message == old(message)
    {
      if text != "" {
        testimonials := Normalise(parsed);
      }
    }

    method SetName(s: string)
      modifies this
      ensures formData == old(formData).(name := s)
      ensures testimonials == old(testimonials) && editingId == old(editingId)
      ensures saving == old(saving) && message == old(message)
    {
      formData := formData.(name := s);
    }

    method SetCountry(s: string)
      modifies this
      ensures formData == old(formData).(country := s)
      ensures testimonials == old(testimonials) && editingId == old(editingId)
      ensures saving == old(saving) && message == old(message)
    {
      formData := formData.(country := s);
    }

    method SetQuote(s: string)
      modifies this
      ensures formData == old(formData).(quote := s)
      ensures testimonials == old(testimonials) && editingId == old(editingId)
      ensures saving == old(saving) && message == old(message)
    {
      formData := formData.(quote := s);
    }

    /** A star button: the only ratings the form offers are 1 to 5. */
    method SetRating(star: int)
      requires 1 <= star <= 5
      modifies this
      ensures formData == old(formData).(rating := star)
      ensures testimonials == old(testimonials) && editingId == old(editingId)
      ensures saving == old(saving) && message == old(message)
    {
      formData := formData.(rating := star);
    }

    /** `handleSubmit` up to the request. The submit button is disabled while
        a save runs and the browser holds the form back while a required
        input is empty; then nothing happens. Otherwise the new list
        replaces the shown one, the form resets, and the list is what is
        saved. Unique ids stay unique. */
    method HandleSubmit() returns (saved: Option<seq<Testimonial>>)
      modifies this
      ensures saved.Some? <==> !old(saving) && DraftComplete(old(formData))
      ensures saved.None? ==>
        testimonials == old(testimonials) && editingId == old(editingId) && formData == old(formData) &&
        saving == old(saving)
      ensures saved.Some? && old(editingId).Some? ==>
        saved.value == Edited(old(testimonials), old(editingId).value, old(formData))
      ensures saved.Some? && old(editingId).None? ==> saved.value == Added(old(testimonials), old(formData))
      ensures saved.Some? ==> testimonials == saved.value && editingId.None? && formData == Blank && saving
      ensures message == old(message)
      ensures UniqueIds(old(testimonials)) ==> UniqueIds(testimonials)
    {
      if saving || !DraftComplete(formData) {
        return None;
      }
      var list: seq<Testimonial>;
      if editingId.Some? {
        list := Edited(testimonials, editingId.value, formData);
        editingId := None;
      } else {
        list := Added(testimonials, formData);
      }
      testimonials := list;
      formData := Blank;
      saving := true;
      saved := Some(list);
    }

    /** The pencil button on an entry of the list. */
    method HandleEdit(t: Testimonial)
      requires t in testimonials
      modifies this
      ensures formData == Draft(t.name, t.country, t.quote, t.rating) && editingId == Some(t.id)
      ensures testimonials == old(testimonials) && saving == old(saving) && message == old(message)
    {
      formData := Draft(t.name, t.country, t.quote, t.rating);
      editingId := Some(t.id);
    }

    /** `handleDelete`: after confirmation every entry with that id is
        removed and the new list is saved. */
    method HandleDelete(id: int, confirmed: bool) returns (saved: Option<seq<Testimonial>>)
      modifies this
      ensures !confirmed ==> saved.None? && testimonials == old(testimonials) && saving == old(saving)
      ensures confirmed ==> saved == Some(Deleted(old(testimonials), id)) && testimonials == saved.value && saving
      ensures editingId == old(editingId) && formData == old(formData) && message == old(message)
      ensures UniqueIds(old(testimonials)) ==> UniqueIds(testimonials)
    {
      if !confirmed {
        return None;
      }
      DeletedKeepsOrder(testimonials, id);
      testimonials := Deleted(testimonials, id);
      saving := true;
      saved := Some(testimonials);
    }

    /** The end of `handleSaveList`. */
    method SaveSettled(succeeded: bool)
      modifies this
      ensures !saving
      ensures message == (if succeeded then Saved else SaveFailed)
      ensures testimonials == old(testimonials) && editingId == old(editingId) && formData == old(formData)
    {
      saving := false;
      message := if succeeded then Saved else SaveFailed;
    }

    method HandleCancel()
      modifies this
      ensures editingId.None? && formData == Blank
      ensures testimonials == old(testimonials) && saving == old(saving) && message == old(message)
    {
      editingId := None;
      formData := Blank;
    }
  }
}
