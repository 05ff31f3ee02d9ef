/** The admin "Page Content Editor": one of four page keys is selected, its
    stored content is edited, and saving merges that one key into the
    settings object. */
module PagesEditor {
  import opened Options
  import opened SettingsForms
  import Tables
  import SettingsRoute

  datatype Page = Page(id: string, caption: string)

  const AboutKey := "page_about"
  const FaqKey := "page_faq"
  const PrivacyKey := "page_privacy"
  const TermsKey := "page_terms"

  const Pages: seq<Page> := [
    Page(AboutKey, "About Us"),
    Page(FaqKey, "FAQ"),
    Page(PrivacyKey, "Privacy Policy"),
    Page(TermsKey, "Terms & Conditions")
  ]

  /** The ids of `Pages`, the only keys this editor selects. */
  function PageKeys(): (r: set<string>)
    ensures r == {AboutKey, FaqKey, PrivacyKey, TermsKey}
  {
    var r := set i | 0 <= i < |Pages| :: Pages[i].id;
    assert Pages[0].id in r && Pages[1].id in r && Pages[2].id in r && Pages[3].id in r;
    r
  }

  const Saved := "Page content saved successfully!"
  const SaveFailed := "Failed to save page content."

  /** The body `{ ...settings, [selectedPage]: content }` of a save. */
  function SaveBody(settings: map<string, string>, key: string, content: string): (r: map<string, string>)
    ensures r.Keys == settings.Keys + {key}
    ensures Lookup(r, key) == content
    ensures forall k :: k != key && k in settings ==> r[k] == settings[k]
  {
    Assign(settings, key, content)
  }

  /** The save round trip. When the editor's settings are what the server
      holds and the posted entries spell `SaveBody`, the object the server
      answers after its upserts is that body: the reloaded page shows the
      saved content, and every other key keeps the value it had. */
  lemma SavedContentReloads(rows: seq<SettingsRoute.Setting>, entries: seq<(string, SettingsRoute.BodyValue)>,
                            key: string, content: string)
    requires Tables.UniqueKeys(rows, SettingsRoute.Key)
    requires SettingsRoute.BodyMap(entries) == SaveBody(SettingsRoute.AsMap(rows), key, content)
    ensures SettingsRoute.AsMap(SettingsRoute.UpsertAll(rows, entries)) == SaveBody(SettingsRoute.AsMap(rows), key, content)
    ensures Lookup(SettingsRoute.AsMap(SettingsRoute.UpsertAll(rows, entries)), key) == content
    ensures forall k :: k != key ==>
      Lookup(SettingsRoute.AsMap(SettingsRoute.UpsertAll(rows, entries)), k) == Lookup(SettingsRoute.AsMap(rows), k)
  {
    SettingsRoute.UpsertAllAsMap(rows, entries);
    var m := SettingsRoute.AsMap(rows);
    var b := SaveBody(m, key, content);
    assert m + b == b;
  }

  class PagesEditorState {
    var settings: map<string, string>
    var selectedPage: string
    var content: string
    var saving: bool
    var message: string

    ghost predicate Valid()
      reads this
    {
      selectedPage in PageKeys()
    }

    constructor(current: map<string, string>)
      ensures Valid()
      ensures settings == current && selectedPage == AboutKey
      ensures content == Lookup(current, AboutKey)
      ensures !saving && message == ""
    {
      settings := current;
      selectedPage := Pages[0].id;
      content := Lookup(current, Pages[0].id);
      saving := false;
      message := "";
    }

    /** A page button: select that page. The content reloads from the
        settings only when the selection changes; pressing the button of
        the page already selected keeps the unsaved text. */
    method Select(id: string)
      requires id in PageKeys()
      modifies this
      ensures Valid()
      ensures selectedPage == id
      ensures content == if id == old(selectedPage) then old(content) else Lookup(settings, id)
      ensures settings == old(settings) && saving == old(saving) && message == old(message)
    {
      if id != selectedPage {
        selectedPage := id;
        content := Lookup(settings, id);
      }
    }

    /** The effect on `settings`: the content reloads from the new object. */
    method SettingsChanged(current: map<string, string>)
      requires Valid()
      modifies this
      ensures Valid()
      ensures settings == current && content == Lookup(current, selectedPage)
      ensures selectedPage == old(selectedPage) && saving == old(saving) && message == old(message)
    {
      settings := current;
      content := Lookup(current, selectedPage);
    }

    method EditContent(text: string)
      modifies this
      ensures content == text
      ensures settings == old(settings) && selectedPage == old(selectedPage)
      ensures saving == old(saving) && message == old(message)
    {
      content := text;
    }

    /** `handleSave` up to the request. The save button is disabled while a
        save runs, so nothing happens then; otherwise saving is set and the
        settings with the page's content are posted. */
    method BeginSave() returns (body: Option<map<string, string>>)
      modifies this
      ensures body.Some? <==> !old(saving)
      ensures body.Some? ==> saving && body.value == SaveBody(settings, selectedPage, content)
      ensures body.None? ==> saving == old(saving)
      ensures settings == old(settings) && selectedPage == old(selectedPage)
      ensures content == old(content) && message == old(message)
    {
      if saving {
        return None;
      }
      saving := true;
      body := Some(SaveBody(settings, selectedPage, content));
    }

    /** The end of `handleSave`: `response` is the server's settings object,
        or None when the post failed. */
    method SaveSettled(response: Option<map<string, string>>)
      requires Valid()
      modifies this
      ensures Valid() && !saving && selectedPage == old(selectedPage)
      ensures response.Some? ==> message == Saved && settings == response.value
      ensures response.Some? ==> content == Lookup(response.value, selectedPage)
      ensures response.None? ==> message == SaveFailed && settings == old(settings) && content == old(content)
    {
      saving := false;
      match response
      case Some(m) =>
        SettingsChanged(m);
        message := Saved;
      case None =>
        message := SaveFailed;
    }
  }
}
