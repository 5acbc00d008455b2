/**
 * AliasGroupList: at most one AliasGroup per language code, the last one
 * stored for a code wins, and an empty group is never kept.
 */
module AliasGroups {
  import opened Wrappers
  import opened TermValues

  type GroupMap = map<LanguageCode, AliasGroup>

  /** The class invariant: every entry is keyed by its own language code and no stored group is empty. */
  ghost predicate WellFormed(groups: GroupMap) {
    forall code :: code in groups ==> groups[code].languageCode == code && !groups[code].IsEmpty()
  }

  /** The map `setGroup` leaves behind: an empty group deletes its language's entry, any other group replaces it. */
  function WithGroup(groups: GroupMap, group: AliasGroup): (r: GroupMap)
    ensures group.languageCode in r <==> !group.IsEmpty()
    ensures !group.IsEmpty() ==> r[group.languageCode] == group
    ensures forall code :: code != group.languageCode ==> (code in r <==> code in groups)
    ensures forall code :: code != group.languageCode && code in r ==> r[code] == groups[code]
    ensures WellFormed(groups) ==> WellFormed(r)
  {
    if group.IsEmpty() then groups - {group.languageCode} else groups[group.languageCode := group]
  }

  /** The map the constructor builds: `setGroup` applied to each group in order. */
  function FromGroups(aliasGroups: seq<AliasGroup>): (r: GroupMap)
    ensures WellFormed(r)
  {
    if aliasGroups == [] then map[]
    else WithGroup(FromGroups(aliasGroups[..|aliasGroups| - 1]), aliasGroups[|aliasGroups| - 1])
  }

  /** `hasAliasGroup`: an equal group is stored under the group's own language code. */
  predicate Holds(groups: GroupMap, group: AliasGroup) {
    group.languageCode in groups && groups[group.languageCode] == group
  }

  /** `equals` as the source states it: same count, and the target holds every group of this list. */
  ghost predicate SameGroups(groups: GroupMap, target: GroupMap) {
    |groups| == |target| && forall code :: code in groups ==> Holds(target, groups[code])
  }

  class AliasGroupList {
    var groups: GroupMap

    ghost predicate Valid()
      reads this
    {
      WellFormed(groups)
    }

    /** Stores every given group in turn, so that the last group per language wins. */
    constructor (aliasGroups: seq<AliasGroup>)
      ensures Valid()
      ensures groups == FromGroups(aliasGroups)
    {
      groups := map[];
      new;
      for i := 0 to |aliasGroups|
        invariant Valid()
        invariant groups == FromGroups(aliasGroups[..i])
      {
        assert aliasGroups[..i + 1][..i] == aliasGroups[..i];
        SetGroup(aliasGroups[i]);
      }
      assert aliasGroups[..|aliasGroups|] == aliasGroups;
    }

    /** The number of languages with an entry; zero exactly when the list is empty. */
    function Count(): (n: nat)
      reads this
      ensures n == |groups.Keys|
      ensures n == 0 <==> groups == map[]
    {
      |groups|
    }

    /** The group for a language code, or OutOfBounds when the code has no entry. */
    function GetByLanguage(languageCode: LanguageCode): (r: Result<AliasGroup>)
      requires Valid()
      reads this
      ensures r.Err? <==> languageCode !in groups
      ensures r.Err? ==> r.error == OutOfBounds
      ensures r.Ok? ==> r.value == groups[languageCode]
      ensures r.Ok? ==> r.value.languageCode == languageCode && !r.value.IsEmpty()
    {
      if languageCode in groups then Ok(groups[languageCode]) else Err(OutOfBounds)
    }

    /** Deletes the entry for a language code; no effect when there is none. */
    method RemoveByLanguage(languageCode: LanguageCode)
      requires Valid()
      modifies this
      ensures Valid()
      ensures languageCode !in groups
      ensures groups == old(groups) - {languageCode}
    {
      groups := groups - {languageCode};
    }

    /** Stores a non-empty group under its language code; an empty group removes that code's entry. */
    method SetGroup(group: AliasGroup)
      requires Valid()
      modifies this
      ensures Valid()
      ensures groups == WithGroup(old(groups), group)
      ensures !group.IsEmpty() ==> HasGroupForLanguage(group.languageCode) && GetByLanguage(group.languageCode) == Ok(group)
      ensures group.IsEmpty() ==> GetByLanguage(group.languageCode) == Err(OutOfBounds)
    {
      if group.IsEmpty() {
        groups := groups - {group.languageCode};
      } else {
        groups := groups[group.languageCode := group];
      }
    }

    /** Same count, then every stored group must be held by the target; stops at the first one that is not. */
    method Equals(target: AliasGroupList) returns (equal: bool)
      requires Valid()
      ensures equal == SameGroups(groups, target.groups)
      ensures equal <==> groups == target.groups
    {
      if Count() != target.Count() {
        SameGroupsIsEquality(groups, target.groups);
        return false;
      }
      var pending := groups.Keys;
      while pending != {}
        invariant pending <= groups.Keys
        invariant forall code :: code in groups && code !in pending ==> Holds(target.groups, groups[code])
        decreases pending
      {
        var code :| code in pending;
        if !target.HasAliasGroup(groups[code]) {
          SameGroupsIsEquality(groups, target.groups);
          return false;
        }
        pending := pending - {code};
      }
      SameGroupsIsEquality(groups, target.groups);
      return true;
    }

    function HasAliasGroup(group: AliasGroup): (b: bool)
      reads this
      ensures b <==> Holds(groups, group)
      ensures Valid() ==> (b <==> GetByLanguage(group.languageCode) == Ok(group))
      ensures Valid() && b ==> !group.IsEmpty()
    {
      group.languageCode in groups && groups[group.languageCode] == group
    }

    function HasGroupForLanguage(languageCode: LanguageCode): (b: bool)
      requires Valid()
      reads this
      ensures b <==> GetByLanguage(languageCode).Ok?
    {
      languageCode in groups
    }

    /** Same effect as storing AliasGroup(languageCode, aliases) with SetGroup. */
    method SetAliasesForLanguage(languageCode: LanguageCode, aliases: seq<string>)
      requires Valid()
      modifies this
      ensures Valid()
      ensures groups == WithGroup(old(groups), AliasGroup(languageCode, aliases))
    {
      SetGroup(AliasGroup(languageCode, aliases));
    }
  }

  lemma SubsetOfEqualSize<T>(a: set<T>, b: set<T>)
    requires a <= b && |a| == |b|
    ensures a == b
  {
    assert b == a + (b - a);
    assert |b| == |a| + |b - a|;
    assert b - a == {};
    assert b <= a;
  }

  /** On well-formed lists the source's `equals` is exactly map equality. */
  lemma SameGroupsIsEquality(groups: GroupMap, target: GroupMap)
    requires WellFormed(groups)
    ensures SameGroups(groups, target) <==> groups == target
  {
    if SameGroups(groups, target) {
      assert groups.Keys <= target.Keys by {
        forall code | code in groups ensures code in target {
          assert Holds(target, groups[code]);
        }
      }
      SubsetOfEqualSize(groups.Keys, target.Keys);
      forall code | code in groups ensures groups[code] == target[code] {
        assert Holds(target, groups[code]);
      }
    }
    if groups == target {
      forall code | code in groups ensures Holds(target, groups[code]) {
      }
    }
  }

  lemma EqualsReflexive(groups: GroupMap)
    requires WellFormed(groups)
    ensures SameGroups(groups, groups)
  {
    SameGroupsIsEquality(groups, groups);
  }

  lemma EqualsSymmetric(groups: GroupMap, target: GroupMap)
    requires WellFormed(groups) && WellFormed(target)
    ensures SameGroups(groups, target) ==> SameGroups(target, groups)
  {
    SameGroupsIsEquality(groups, target);
    SameGroupsIsEquality(target, groups);
  }

  /** How `setGroup` changes the count. */
  lemma WithGroupCount(groups: GroupMap, group: AliasGroup)
    ensures var n := |WithGroup(groups, group)|;
      if group.IsEmpty() then
        n == (if group.languageCode in groups then |groups| - 1 else |groups|)
      else
        n == (if group.languageCode in groups then |groups| else |groups| + 1)
  {
    var r := WithGroup(groups, group);
    var code := group.languageCode;
    if group.IsEmpty() {
      assert r.Keys == groups.Keys - {code};
    } else {
      assert r.Keys == groups.Keys + {code};
    }
  }

  /** Removing a language twice is the same as removing it once. */
  lemma RemoveIdempotent(groups: GroupMap, languageCode: LanguageCode)
    ensures (groups - {languageCode}) - {languageCode} == groups - {languageCode}
    ensures languageCode in groups ==> |groups - {languageCode}| == |groups| - 1
    ensures languageCode !in groups ==> groups - {languageCode} == groups
  {
    assert (groups - {languageCode}).Keys == groups.Keys - {languageCode};
  }

  /** The last group given for a language decides that language's entry. */
  lemma {:induction false} FromGroupsLastWins(aliasGroups: seq<AliasGroup>, i: nat)
    requires i < |aliasGroups|
    requires forall j :: i < j < |aliasGroups| ==> aliasGroups[j].languageCode != aliasGroups[i].languageCode
    ensures aliasGroups[i].languageCode in FromGroups(aliasGroups) <==> !aliasGroups[i].IsEmpty()
    ensures !aliasGroups[i].IsEmpty() ==> FromGroups(aliasGroups)[aliasGroups[i].languageCode] == aliasGroups[i]
  {
    var last := |aliasGroups| - 1;
    if i < last {
      var prefix := aliasGroups[..last];
      FromGroupsLastWins(prefix, i);
    }
  }

  /** A language no given group names has no entry. */
  lemma {:induction false} FromGroupsAbsent(aliasGroups: seq<AliasGroup>, languageCode: LanguageCode)
    requires forall j :: 0 <= j < |aliasGroups| ==> aliasGroups[j].languageCode != languageCode
    ensures languageCode !in FromGroups(aliasGroups)
  {
    if aliasGroups != [] {
      FromGroupsAbsent(aliasGroups[..|aliasGroups| - 1], languageCode);
    }
  }
}
