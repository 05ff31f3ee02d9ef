/** The admin tour form: field defaults taken from the tour being edited, the
    comma-separated tag text, and the choice between create and update. */
module TourEditor {
  import opened Options
  import Seqs
  import JsStrings
  import ToursRoute

  // ---- tag text ----

  /** The filter callback `t => t`: a tag is kept when it is not empty. */
  predicate IsTag(t: string) { t != "" }

  /** `.map(t => t.trim()).filter(t => t)` on the pieces of the split. */
  function CleanPieces(pieces: seq<string>): seq<string>
  {
    Seqs.Filter(Seqs.Map(pieces, JsStrings.Trim), IsTag)
  }

  /** `text.split(',').map(t => t.trim()).filter(t => t)`: whatever the
      text, every tag it gives is well formed. */
  function ParseTags(text: string): (r: seq<string>)
    ensures WellFormedTags(r)
  {
    var pieces := JsStrings.Split(text, ',');
    var r := CleanPieces(pieces);
    assert WellFormedTags(r) by {
      forall i | 0 <= i < |r| ensures WellFormedTag(r[i]) {
        CleanPiecesFrom(pieces, r[i]);
        var j :| 0 <= j < |pieces| && r[i] == JsStrings.Trim(pieces[j]);
        assert ',' !in pieces[j];
      }
    }
    r
  }

  /** `tags.join(', ')`: the text the form starts with. */
  function FormatTags(tags: seq<string>): string
  {
    JsStrings.Join(tags, ", ")
  }

  /** A tag that survives parsing unchanged: non-empty, no comma, no
      surrounding whitespace. */
  predicate WellFormedTag(t: string)
  {
    t != "" && ',' !in t && JsStrings.IsTrimmed(t)
  }

  predicate WellFormedTags(tags: seq<string>)
  {
    forall i :: 0 <= i < |tags| ==> WellFormedTag(tags[i])
  }

  /** A kept tag is the trim of one of the pieces. */
  lemma CleanPiecesFrom(pieces: seq<string>, t: string)
    requires t in CleanPieces(pieces)
    ensures t != "" && exists j :: 0 <= j < |pieces| && t == JsStrings.Trim(pieces[j])
  {
    Seqs.FilterMembers(Seqs.Map(pieces, JsStrings.Trim), IsTag);
  }

  /** Cleaning the pieces one at a time. */
  lemma CleanPiecesCons(a: string, rest: seq<string>)
    ensures CleanPieces([a] + rest)
         == (if JsStrings.Trim(a) != "" then [JsStrings.Trim(a)] else []) + CleanPieces(rest)
  {
    Seqs.MapAppend([a], rest, JsStrings.Trim);
    assert Seqs.Map([a], JsStrings.Trim) == [JsStrings.Trim(a)];
    Seqs.FilterAppend([JsStrings.Trim(a)], Seqs.Map(rest, JsStrings.Trim), IsTag);
  }

  lemma WhitespaceHasNoComma(w: string)
    requires JsStrings.AllWhitespace(w)
    ensures ',' !in w
  {
  }

  /** A single piece: whitespace then one tag, or whitespace alone. */
  lemma ParseOnePiece(w: string, t: string)
    requires JsStrings.AllWhitespace(w) && (t == "" || WellFormedTag(t))
    ensures ParseTags(w + t) == if t == "" then [] else [t]
  {
    WhitespaceHasNoComma(w);
    var a := w + t;
    assert ',' !in a;
    JsStrings.SplitNoSeparator(a, ',');
    if t == "" {
      assert a == w;
      JsStrings.TrimEmptyIffWhitespace(w);
    } else {
      JsStrings.TrimAround(w, t);
    }
    CleanPiecesCons(a, []);
  }

  /** A first piece holding one tag, then a comma and the rest of the text. */
  lemma ParseFirstPiece(w: string, t: string, rest: string)
    requires JsStrings.AllWhitespace(w) && WellFormedTag(t)
    ensures ParseTags(w + t + "," + rest) == [t] + ParseTags(rest)
  {
    WhitespaceHasNoComma(w);
    var a := w + t;
    assert ',' !in a;
    assert w + t + "," + rest == a + [','] + rest;
    JsStrings.SplitAtFirst(a, ',', rest);
    JsStrings.TrimAround(w, t);
    CleanPiecesCons(a, JsStrings.Split(rest, ','));
  }

  /** The parse of whitespace followed by formatted well-formed tags. */
  lemma {:induction false} ParseFormatAfterWhitespace(w: string, tags: seq<string>)
    requires JsStrings.AllWhitespace(w) && WellFormedTags(tags)
    ensures ParseTags(w + FormatTags(tags)) == tags
    decreases |tags|
  {
    if tags == [] {
      ParseOnePiece(w, "");
      assert w + "" == w + FormatTags(tags);
    } else if |tags| == 1 {
      ParseOnePiece(w, tags[0]);
      assert FormatTags(tags) == tags[0];
    } else {
      var rest := " " + FormatTags(tags[1..]);
      assert FormatTags(tags) == tags[0] + ", " + FormatTags(tags[1..]);
      assert ", " + FormatTags(tags[1..]) == "," + rest;
      assert w + FormatTags(tags) == w + tags[0] + "," + rest;
      ParseFirstPiece(w, tags[0], rest);
      assert JsStrings.AllWhitespace(" ") by {
        assert JsStrings.IsWhitespace(' ');
      }
      ParseFormatAfterWhitespace(" ", tags[1..]);
      assert [tags[0]] + tags[1..] == tags;
    }
  }

  /** Formatting well-formed tags and parsing the text gives the same tags back. */
  lemma FormatParse(tags: seq<string>)
    requires WellFormedTags(tags)
    ensures ParseTags(FormatTags(tags)) == tags
  {
    ParseFormatAfterWhitespace("", tags);
    assert "" + FormatTags(tags) == FormatTags(tags);
  }

  /** Parsing is stable: reformatting a parse and parsing again changes nothing. */
  lemma ParseStable(text: string)
    ensures ParseTags(FormatTags(ParseTags(text))) == ParseTags(text)
  {
    FormatParse(ParseTags(text));
  }

  predicate OnlySeparators(text: string)
  {
    forall i :: 0 <= i < |text| ==> text[i] == ',' || JsStrings.IsWhitespace(text[i])
  }

  lemma SeparatorsGiveNoTags(text: string)
    requires OnlySeparators(text)
    ensures ParseTags(text) == []
  {
    var pieces := JsStrings.Split(text, ',');
    JsStrings.JoinChars(pieces, [',']);
    if ParseTags(text) != [] {
      var t := ParseTags(text)[0];
      CleanPiecesFrom(pieces, t);
      var j :| 0 <= j < |pieces| && t == JsStrings.Trim(pieces[j]);
      forall k | 0 <= k < |pieces[j]| ensures JsStrings.IsWhitespace(pieces[j][k]) {
        assert pieces[j][k] in text;
      }
      JsStrings.TrimEmptyIffWhitespace(pieces[j]);
    }
  }

  lemma TagTextGivesTags(text: string, i: nat)
    requires i < |text| && text[i] != ',' && !JsStrings.IsWhitespace(text[i])
    ensures ParseTags(text) != []
  {
    var pieces := JsStrings.Split(text, ',');
    JsStrings.JoinChars(pieces, [',']);
    assert text[i] in JsStrings.Join(pieces, [',']);
    var j :| 0 <= j < |pieces| && text[i] in pieces[j];
    JsStrings.TrimEmptyIffWhitespace(pieces[j]);
    var t := JsStrings.Trim(pieces[j]);
    assert t != "";
    Seqs.FilterMembers(Seqs.Map(pieces, JsStrings.Trim), IsTag);
    assert t in Seqs.Map(pieces, JsStrings.Trim);
  }

  /** Exactly the texts made only of commas and whitespace parse to no tags. */
  lemma NoTagsIffSeparators(text: string)
    ensures ParseTags(text) == [] <==> OnlySeparators(text)
  {
    if OnlySeparators(text) {
      SeparatorsGiveNoTags(text);
    } else {
      var i :| 0 <= i < |text| && text[i] != ',' && !JsStrings.IsWhitespace(text[i]);
      TagTextGivesTags(text, i);
    }
  }

  // ---- the form ----

  /** The form state; every field holds text. */
  datatype TourForm = TourForm(
    title: string, description: string, price: string, duration: string,
    image: string, category: string, tags: string)

  /** The input names a change event can carry. */
  datatype Field = Title | Description | Price | Duration | Image | Category | Tags

  function Get(form: TourForm, f: Field): string
  {
    match f
    case Title => form.title
    case Description => form.description
    case Price => form.price
    case Duration => form.duration
    case Image => form.image
    case Category => form.category
    case Tags => form.tags
  }

  /** `setFormData(prev => ({...prev, [name]: value}))`. */
  function SetField(form: TourForm, f: Field, value: string): (r: TourForm)
    ensures Get(r, f) == value
    ensures forall g :: g != f ==> Get(r, g) == Get(form, g)
  {
    match f
    case Title => form.(title := value)
    case Description => form.(description := value)
    case Price => form.(price := value)
    case Duration => form.(duration := value)
    case Image => form.(image := value)
    case Category => form.(category := value)
    case Tags => form.(tags := value)
  }

  /** `initialData?.price || ''`: the price as text, or '' for the falsy 0. */
  function PriceText(price: int): (r: string)
    ensures r == "" <==> price == 0
    ensures price != 0 ==> JsStrings.ParseInt(r) == Some(price)
  {
    if price == 0 then ""
    else
      JsStrings.ParseIntIntString(price);
      JsStrings.IntString(price)
  }

  /** The form's first state: the edited tour's fields, or '' for a new tour. */
  function InitialForm(initialData: Option<ToursRoute.Tour>): (r: TourForm)
    ensures initialData.None? ==> forall f :: Get(r, f) == ""
    ensures initialData.Some? ==>
      var t := initialData.value;
      r.title == t.title && r.description == t.description && r.duration == t.duration &&
      r.image == t.image && r.category == t.category && r.price == PriceText(t.price) &&
      r.tags == FormatTags(t.tags)
  {
    match initialData
    case None => TourForm("", "", "", "", "", "", "")
    case Some(t) =>
      TourForm(t.title, t.description, PriceText(t.price), t.duration, t.image, t.category,
               FormatTags(t.tags))
  }

  /** The request body: the form with `tags` replaced by the parsed list. */
  datatype Payload = Payload(
    title: string, description: string, price: string, duration: string,
    image: string, category: string, tags: seq<string>)

  function MakePayload(form: TourForm): (r: Payload)
    ensures WellFormedTags(r.tags)
    ensures r.title == form.title && r.description == form.description && r.price == form.price
    ensures r.duration == form.duration && r.image == form.image && r.category == form.category
    ensures r.tags == ParseTags(form.tags)
  {
    Payload(form.title, form.description, form.price, form.duration, form.image, form.category,
            ParseTags(form.tags))
  }

  /** Saving an unedited form for a tour with well-formed tags sends its tags
      back unchanged. */
  lemma UneditedTagsKept(t: ToursRoute.Tour)
    requires WellFormedTags(t.tags)
    ensures MakePayload(InitialForm(Some(t))).tags == t.tags
  {
    FormatParse(t.tags);
  }

  datatype SaveRequest = Put(path: string, body: Payload) | Post(path: string, body: Payload)

  /** PUT `/tours/<id>` when the edited tour has an id, POST `/tours` otherwise. */
  function Request(initialData: Option<ToursRoute.Tour>, form: TourForm): (r: SaveRequest)
    ensures r.Put? <==> initialData.Some? && initialData.value.id != ""
    ensures r.Put? ==> r.path == "/tours/" + initialData.value.id
    ensures r.Post? ==> r.path == "/tours"
    ensures r.body == MakePayload(form)
  {
    if initialData.Some? && initialData.value.id != "" then
      Put("/tours/" + initialData.value.id, MakePayload(form))
    else Post("/tours", MakePayload(form))
  }

  /** The values of the category `<select>` other than its `""` placeholder. */
  const CategoryOptions: set<string> := {"Cultural", "Adventure", "Cruise", "Family"}

  /** The form passes the browser's validation: every `required` input is
      filled, and the category is one the select offers (a value it does not
      offer leaves the placeholder selected). */
  predicate FormComplete(form: TourForm)
  {
    && form.title != "" && form.category in CategoryOptions && form.price != ""
    && form.duration != "" && form.image != "" && form.description != ""
  }

  /** An unedited form can be submitted exactly for a tour with a non-zero
      price, one of the four categories of the select, and non-empty title,
      duration, image and description. */
  lemma UneditedFormComplete(t: ToursRoute.Tour)
    ensures FormComplete(InitialForm(Some(t))) <==>
      && t.category in CategoryOptions && t.price != 0 && t.title != ""
      && t.duration != "" && t.image != "" && t.description != ""
  {
  }

  /** The editor component's state. */
  class TourEditorState {
    const initialData: Option<ToursRoute.Tour>
    var formData: TourForm
    var loading: bool

    constructor(initialData: Option<ToursRoute.Tour>)
      ensures this.initialData == initialData
      ensures formData == InitialForm(initialData) && !loading
    {
      this.initialData := initialData;
      formData := InitialForm(initialData);
      loading := false;
    }

    /** A change event on one input. */
    method HandleChange(f: Field, value: string)
      modifies this
      ensures formData == SetField(old(formData), f, value)
      ensures loading == old(loading)
    {
      formData := SetField(formData, f, value);
    }

    /** The submit handler up to the request. The form submits only when
        the save button is enabled (`disabled={loading}`) and the form is
        complete; then `loading` is set and the request built. Otherwise
        nothing happens. */
    method BeginSubmit() returns (req: Option<SaveRequest>)
      modifies this
      ensures req.Some? <==> !old(loading) && FormComplete(old(formData))
      ensures req.Some? ==> loading && req.value == Request(initialData, formData)
      ensures req.None? ==> loading == old(loading)
      ensures formData == old(formData)
    {
      if loading || !FormComplete(formData) {
        return None;
      }
      loading := true;
      req := Some(Request(initialData, formData));
    }

    /** The rest of the submit handler once the request settles: `onSave` is
        called only after success, and `loading` is cleared either way. */
    method SubmitSettled(succeeded: bool) returns (saved: bool)
      modifies this
      ensures !loading && formData == old(formData)
      ensures saved == succeeded
    {
      saved := succeeded;
      loading := false;
    }
  }
}
