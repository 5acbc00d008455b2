/**
 * Fingerprint: the labels, descriptions and alias groups of an entity.
 *
 * The three collections are objects held by reference, as in the source:
 * `setLabels` stores the list it is given, and a label and a description
 * list may be one and the same object. Contracts that say "descriptions
 * are unchanged" after a label operation therefore say it for the case
 * where the two lists are different objects.
 */
module Fingerprints {
  import opened Wrappers
  import opened TermValues
  import opened AliasGroups

  class Fingerprint {
    var labels: TermList
    var descriptions: TermList
    var aliasGroups: AliasGroupList

    ghost predicate Valid()
      reads this, aliasGroups
    {
      aliasGroups.Valid()
    }

    constructor (labels: TermList, descriptions: TermList, aliasGroups: AliasGroupList)
      requires aliasGroups.Valid()
      ensures Valid()
      ensures this.labels == labels && this.descriptions == descriptions && this.aliasGroups == aliasGroups
    {
      this.labels := labels;
      this.descriptions := descriptions;
      this.aliasGroups := aliasGroups;
    }

    /** A fingerprint over three new, empty collections. */
    static method NewEmpty() returns (fingerprint: Fingerprint)
      ensures fresh(fingerprint) && fresh(fingerprint.labels) && fresh(fingerprint.descriptions)
      ensures fresh(fingerprint.aliasGroups)
      ensures fingerprint.Valid() && fingerprint.IsEmpty()
    {
      var labels := new TermList();
      var descriptions := new TermList();
      var aliasGroups := new AliasGroupList([]);
      fingerprint := new Fingerprint(labels, descriptions, aliasGroups);
    }

    function GetLabel(languageCode: LanguageCode): (r: Result<Term>)
      reads this, labels
      ensures r.Ok? <==> languageCode in labels.texts
      ensures r.Ok? ==> r.value.languageCode == languageCode && r.value.text == labels.texts[languageCode]
      ensures r.Err? ==> r.error == OutOfBounds
    {
      labels.GetByLanguage(languageCode)
    }

    method SetLabel(languageCode: LanguageCode, text: string)
      modifies labels
      ensures labels.texts == old(labels.texts)[languageCode := text]
      ensures GetLabel(languageCode) == Ok(Term(languageCode, text))
      ensures !IsEmpty()
      ensures descriptions != labels ==> descriptions.texts == old(descriptions.texts)
      ensures aliasGroups.groups == old(aliasGroups.groups)
    {
      labels.SetTerm(Term(languageCode, text));
    }

    method RemoveLabel(languageCode: LanguageCode)
      modifies labels
      ensures labels.texts == old(labels.texts) - {languageCode}
      ensures GetLabel(languageCode) == Err(OutOfBounds)
      ensures descriptions != labels ==> descriptions.texts == old(descriptions.texts)
      ensures aliasGroups.groups == old(aliasGroups.groups)
    {
      labels.RemoveByLanguage(languageCode);
    }

    function GetDescription(languageCode: LanguageCode): (r: Result<Term>)
      reads this, descriptions
      ensures r.Ok? <==> languageCode in descriptions.texts
      ensures r.Ok? ==> r.value.languageCode == languageCode && r.value.text == descriptions.texts[languageCode]
      ensures r.Err? ==> r.error == OutOfBounds
    {
      descriptions.GetByLanguage(languageCode)
    }

    method SetDescription(languageCode: LanguageCode, text: string)
      modifies descriptions
      ensures descriptions.texts == old(descriptions.texts)[languageCode := text]
      ensures GetDescription(languageCode) == Ok(Term(languageCode, text))
      ensures !IsEmpty()
      ensures labels != descriptions ==> labels.texts == old(labels.texts)
      ensures aliasGroups.groups == old(aliasGroups.groups)
    {
      descriptions.SetTerm(Term(languageCode, text));
    }

    method RemoveDescription(languageCode: LanguageCode)
      modifies descriptions
      ensures descriptions.texts == old(descriptions.texts) - {languageCode}
      ensures GetDescription(languageCode) == Err(OutOfBounds)
      ensures labels != descriptions ==> labels.texts == old(labels.texts)
      ensures aliasGroups.groups == old(aliasGroups.groups)
    {
      descriptions.RemoveByLanguage(languageCode);
    }

    function GetAliasGroup(languageCode: LanguageCode): (r: Result<AliasGroup>)
      requires Valid()
      reads this, aliasGroups
      ensures r.Ok? <==> languageCode in aliasGroups.groups
      ensures r.Ok? ==> r.value == aliasGroups.groups[languageCode]
      ensures r.Ok? ==> r.value.languageCode == languageCode && !r.value.IsEmpty()
      ensures r.Err? ==> r.error == OutOfBounds
    {
      aliasGroups.GetByLanguage(languageCode)
    }

    /** Stores the aliases for a language; an empty list removes that language's group. */
    method SetAliasGroup(languageCode: LanguageCode, aliases: seq<string>)
      requires Valid()
      modifies aliasGroups
      ensures Valid()
      ensures aliasGroups.groups == WithGroup(old(aliasGroups.groups), AliasGroup(languageCode, aliases))
      ensures |aliases| == 0 ==> GetAliasGroup(languageCode) == Err(OutOfBounds)
      ensures |aliases| > 0 ==> GetAliasGroup(languageCode) == Ok(AliasGroup(languageCode, aliases))
      ensures labels.texts == old(labels.texts) && descriptions.texts == old(descriptions.texts)
    {
      aliasGroups.SetGroup(AliasGroup(languageCode, aliases));
    }

    method RemoveAliasGroup(languageCode: LanguageCode)
      requires Valid()
      modifies aliasGroups
      ensures Valid()
      ensures aliasGroups.groups == old(aliasGroups.groups) - {languageCode}
      ensures GetAliasGroup(languageCode) == Err(OutOfBounds)
      ensures labels.texts == old(labels.texts) && descriptions.texts == old(descriptions.texts)
    {
      aliasGroups.RemoveByLanguage(languageCode);
    }

    /** Descriptions, labels and alias groups are each equal. */
    method Equals(target: Fingerprint) returns (equal: bool)
      requires Valid()
      ensures equal <==> SameContent(target)
      ensures target == this ==> equal
    {
      equal := descriptions.Equals(target.descriptions) && labels.Equals(target.labels);
      if equal {
        equal := aliasGroups.Equals(target.aliasGroups);
      }
    }

    /** The content both fingerprints must share to be equal. */
    ghost predicate SameContent(target: Fingerprint)
      reads this, labels, descriptions, aliasGroups, target, target.labels, target.descriptions, target.aliasGroups
    {
      && labels.texts == target.labels.texts
      && descriptions.texts == target.descriptions.texts
      && aliasGroups.groups == target.aliasGroups.groups
    }

    /** True exactly when all three collections have no entry. */
    function IsEmpty(): (b: bool)
      reads this, labels, descriptions, aliasGroups
      ensures b <==> labels.texts == map[] && descriptions.texts == map[] && aliasGroups.groups == map[]
    {
      labels.Count() == 0 && descriptions.Count() == 0 && aliasGroups.Count() == 0
    }

    method SetLabels(labels: TermList)
      requires Valid()
      modifies this
      ensures Valid()
      ensures this.labels == labels
      ensures descriptions == old(descriptions) && aliasGroups == old(aliasGroups)
    {
      this.labels := labels;
    }

    method SetDescriptions(descriptions: TermList)
      requires Valid()
      modifies this
      ensures Valid()
      ensures this.descriptions == descriptions
      ensures labels == old(labels) && aliasGroups == old(aliasGroups)
    {
      this.descriptions := descriptions;
    }

    method SetAliasGroups(groups: AliasGroupList)
      requires groups.Valid()
      modifies this
      ensures Valid()
      ensures aliasGroups == groups
      ensures labels == old(labels) && descriptions == old(descriptions)
    {
      aliasGroups := groups;
    }
  }
}
