/** The client's view of the settings object, and the form-map editors of
    the admin "Site Settings" and "Home Page Content" screens, which share
    one behaviour: a form map reset from the settings, single-key edits, and
    a submit that posts the whole map. */
module SettingsForms {
  import opened Options

  /** `settings[key] || ''`: the stored text, or the empty string. */
  function Lookup(settings: map<string, string>, key: string): (r: string)
    ensures key in settings ==> r == settings[key]
    ensures key !in settings ==> r == ""
  {
    if key in settings then settings[key] else ""
  }

  /** `{ ...m, [key]: value }`: `key` set to `value`, every other key as in `m`. */
  function Assign(m: map<string, string>, key: string, value: string): (r: map<string, string>)
    ensures r.Keys == m.Keys + {key}
    ensures Lookup(r, key) == value
    ensures forall k :: k != key ==> (k in r <==> k in m) && Lookup(r, k) == Lookup(m, k)
  {
    m[key := value]
  }

  const SettingsSaved := "Settings saved successfully!"
  const SettingsSaveFailed := "Failed to save settings."
  const HomeSaved := "Home content saved successfully!"
  const HomeSaveFailed := "Failed to save content."

  const HeroImage := "heroImage"

  /** The hero preview image is shown iff `heroImage` is non-empty. */
  function ShowsHeroPreview(form: map<string, string>): (r: bool)
    ensures r <==> HeroImage in form && form[HeroImage] != ""
  {
    Lookup(form, HeroImage) != ""
  }

  /** A form-map editor: `SettingsEditor` with the settings messages, or
      `HomeEditor` with the home-content messages. `settings` is the object
      the settings provider currently holds. */
  class FormMapEditor {
    var settings: map<string, string>
    var formData: map<string, string>
    var saving: bool
    var message: string
    const savedText: string
    const failedText: string

    constructor(current: map<string, string>, saved: string, failed: string)
      ensures settings == current && formData == current
      ensures !saving && message == ""
      ensures savedText == saved && failedText == failed
    {
      settings := current;
      formData := current;
      saving := false;
      message := "";
      savedText := saved;
      failedText := failed;
    }

    /** The effect on `settings`: the form map becomes the new settings. */
    method SettingsChanged(current: map<string, string>)
      modifies this
      ensures settings == current && formData == current
      ensures saving == old(saving) && message == old(message)
    {
      settings := current;
      formData := current;
    }

    /** `handleChange`: only the key named by the input changes. */
    method HandleChange(name: string, value: string)
      modifies this
      ensures formData == Assign(old(formData), name, value)
      ensures settings == old(settings) && saving == old(saving) && message == old(message)
    {
      formData := Assign(formData, name, value);
    }

    /** `handleSubmit` up to the request. The save button is disabled while
        a save runs, so nothing happens then; otherwise saving is set and the
        whole form map is what is posted. */
    method BeginSubmit() returns (body: Option<map<string, string>>)
      modifies this
      ensures body.Some? <==> !old(saving)
      ensures body.Some? ==> saving && body.value == formData
      ensures body.None? ==> saving == old(saving)
      ensures formData == old(formData) && settings == old(settings) && message == old(message)
    {
      if saving {
        return None;
      }
      saving := true;
      body := Some(formData);
    }

    /** The end of `handleSubmit`. `response` is the settings object the
        server returned, or None when the post failed; on success the
        provider takes it as its settings, which resets the form map. */
    method SubmitSettled(response: Option<map<string, string>>)
      modifies this
      ensures !saving
      ensures response.Some? ==> message == savedText && settings == response.value && formData == response.value
      ensures response.None? ==> message == failedText && settings == old(settings) && formData == old(formData)
    {
      saving := false;
      match response
      case Some(m) =>
        SettingsChanged(m);
        message := savedText;
      case None =>
        message := failedText;
    }
  }
}
