/** The display-language preference every page keeps: French by default,
    replaced by the persisted value when one is present, flipped by the
    language button and persisted again. */
module Languages {
  import opened Options

  /** The persisted value is an unchecked string, so a value other than
      `fr`/`en` can reach the page; `Other` keeps it. */
  datatype Language = Fr | En | Other(code: string)

  function Code(l: Language): string {
    match l
    case Fr => "fr"
    case En => "en"
    case Other(c) => c
  }

  /** The language a page starts in, from what persistence returned: an
      absent or empty value keeps French. */
  function Initial(saved: Option<string>): (l: Language)
    ensures saved.Some? && saved.value != "" ==> Code(l) == saved.value
    ensures saved.None? || saved.value == "" ==> l == Fr
    ensures l.Other? ==> l.code != "fr" && l.code != "en"
  {
    if saved.None? || saved.value == "" then Fr
    else if saved.value == "fr" then Fr
    else if saved.value == "en" then En
    else Other(saved.value)
  }

  /** `language === 'fr' ? 'en' : 'fr'`, a comparison of the code. */
  function Toggle(l: Language): (r: Language)
    ensures r != l
    ensures r == Fr || r == En
    ensures r == En <==> Code(l) == "fr"
  {
    if Code(l) == "fr" then En else Fr
  }

  /** Toggling twice restores the language exactly when it was one of the
      two the button knows. */
  lemma ToggleTwice(l: Language)
    ensures Toggle(Toggle(l)) == l <==> !l.Other?
  {
  }

  /** What a toggle persists is read back as the same language by the next
      page that starts. */
  lemma TogglePersists(l: Language)
    ensures Initial(Some(Code(Toggle(l)))) == Toggle(l)
  {
  }
}
