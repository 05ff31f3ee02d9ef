/** The public FAQ, privacy and terms pages: each reads its own settings key
    and shows custom content when it is set. */
module InfoPage {
  import opened SettingsForms
  import PagesEditor

  datatype PageType = Faq | Privacy | Terms

  function TypeName(t: PageType): string
  {
    match t
    case Faq => "faq"
    case Privacy => "privacy"
    case Terms => "terms"
  }

  /** `page_${type}`. */
  function SettingKey(t: PageType): (r: string)
    ensures r == "page_" + TypeName(t)
    ensures r in PagesEditor.PageKeys() && r != PagesEditor.AboutKey
  {
    match t
    case Faq => assert "page_" + "faq" == PagesEditor.FaqKey; "page_" + "faq"
    case Privacy => assert "page_" + "privacy" == PagesEditor.PrivacyKey; "page_" + "privacy"
    case Terms => assert "page_" + "terms" == PagesEditor.TermsKey; "page_" + "terms"
  }

  /** Different pages read different keys. */
  lemma {:induction false} SettingKeyInjective(s: PageType, t: PageType)
    requires s != t
    ensures SettingKey(s) != SettingKey(t)
  {
    var a, b := SettingKey(s), SettingKey(t);
    assert a[5] != b[5];
  }

  /** What the page body shows. */
  datatype Shown = Custom(html: string) | QuestionList | BodyText(t: PageType)

  function Render(t: PageType, settings: map<string, string>): (r: Shown)
    ensures r.Custom? <==> SettingKey(t) in settings && settings[SettingKey(t)] != ""
    ensures r.Custom? ==> r.html == settings[SettingKey(t)]
    ensures r == QuestionList ==> t == Faq
    ensures !r.Custom? ==> (r == QuestionList <==> t == Faq) && (r.BodyText? ==> r.t == t)
  {
    var custom := Lookup(settings, SettingKey(t));
    if custom != "" then Custom(custom)
    else if t == Faq then QuestionList
    else BodyText(t)
  }

  /** What the page editor saves under a page's key is what that page shows,
      unless it is empty. */
  lemma EditorContentShown(settings: map<string, string>, t: PageType, content: string)
    ensures content != "" ==> Render(t, PagesEditor.SaveBody(settings, SettingKey(t), content)) == Custom(content)
    ensures content == "" ==> !Render(t, PagesEditor.SaveBody(settings, SettingKey(t), content)).Custom?
  {
  }
}
