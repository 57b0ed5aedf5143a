/** The display language of the chat page and the label selector `t`. */
module Locale {

  datatype Lang = Ja | En

  /** The language switch button: `ja` becomes `en` and `en` becomes `ja`. */
  function Toggle(lang: Lang): (r: Lang)
    ensures r != lang
  {
    if lang == Ja then En else Ja
  }

  lemma ToggleTwice(lang: Lang)
    ensures Toggle(Toggle(lang)) == lang
  {
  }

  /** `t(jp, en)`: the Japanese label when the page is in Japanese, the English one
      otherwise. */
  function T(lang: Lang, jp: string, en: string): (r: string)
    ensures r == jp || r == en
    ensures jp != en ==> (r == jp <==> lang == Ja)
  {
    if lang == Ja then jp else en
  }
}
