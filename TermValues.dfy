/**
 * The value objects the term collections hold, and TermList.
 *
 * Term, AliasGroup and TermList are collaborators of AliasGroupList and
 * Fingerprint whose sources are not part of this model; they are given
 * here with only the interface those two classes call.
 */
module TermValues {
  import opened Wrappers

  type LanguageCode = string

  /** One text in one language. */
  datatype Term = Term(languageCode: LanguageCode, text: string)

  /** The aliases of one language, in order. */
  datatype AliasGroup = AliasGroup(languageCode: LanguageCode, aliases: seq<string>) {
    predicate IsEmpty() { |aliases| == 0 }
  }

  /**
   * A list of terms keyed by language code, held as a map from language
   * code to text: setting a term overwrites, lookups of absent codes fail.
   */
  class TermList {
    var texts: map<LanguageCode, string>

    constructor ()
      ensures texts == map[]
    {
      texts := map[];
    }

    function Count(): nat
      reads this
    {
      |texts|
    }

    function GetByLanguage(languageCode: LanguageCode): (r: Result<Term>)
      reads this
      ensures r.Ok? <==> languageCode in texts
      ensures r.Ok? ==> r.value == Term(languageCode, texts[languageCode])
      ensures r.Err? ==> r.error == OutOfBounds
    {
      if languageCode in texts then Ok(Term(languageCode, texts[languageCode])) else Err(OutOfBounds)
    }

    method SetTerm(term: Term)
      modifies this
      ensures texts == old(texts)[term.languageCode := term.text]
    {
      texts := texts[term.languageCode := term.text];
    }

    method RemoveByLanguage(languageCode: LanguageCode)
      modifies this
      ensures texts == old(texts) - {languageCode}
    {
      texts := texts - {languageCode};
    }

    function Equals(target: TermList): bool
      reads this, target
    {
      texts == target.texts
    }
  }
}
