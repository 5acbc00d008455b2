# Wikibase data model: term collections, fingerprints, statements and item id sets

A Dafny model of four value classes of the Wikibase data model:

- `AliasGroupList` (module `AliasGroups`): a table from language code to alias group. The last group stored for a language wins. Storing an empty group deletes that language's entry, so no empty group is ever kept. The class invariant `Valid()` says every entry sits under its own language code and is not empty. Every mutator keeps it.
- `Fingerprint` (module `Fingerprints`): the labels, descriptions and alias groups of an entity. Its setters and removers delegate to one of the three collections. It is empty exactly when all three are.
- `Statement` (module `Statements`): a claim with a rank and an ordered reference list. It has a guarded rank setter, a hash over three parts, the list of every snak it holds, and an equality.
- `ItemIdSet` (module `ItemIdSets`): an immutable set of item ids, built once from a sequence and keyed by numeric id. Its table is a `const` field, so no operation after construction can change `count` or `has`.

Supporting modules:

- `Wrappers`: the `OutOfBounds` and `InvalidArgument` exceptions as `Result`/`Outcome` values, and `Option` for arguments PHP lets callers pass as `null`.
- `TermValues`: `Term`, `AliasGroup` and `TermList`. Their sources are not part of this model, so they carry only the interface the core calls. `TermList` is a map from language code to text: `setTerm` overwrites, `getByLanguage` fails with `OutOfBounds` when the code is absent, `removeByLanguage` deletes, and `equals` is map equality.

PHP objects are references. The model keeps that: `Fingerprint` holds its three collections as objects, and `setLabels` stores the list it is given. One `TermList` object may therefore serve as both the label list and the description list. For that reason, a label operation promises "descriptions unchanged" only when the two lists are distinct objects.

Snak, Reference, ReferenceList and Claim are datatypes here. The claim's hash, the reference list's value hash, the SHA-1 digest and the two equalities (`claimFieldsEqual`, `ReferenceList::equals`) are not part of this model. They are passed in as a `Collaborators` value of functions, and nothing is assumed about them beyond what each lemma states in its `requires`.

The claim rank constants are DEPRECATED = 0, NORMAL = 1, PREFERRED = 2 and TRUTH = 3. The claim class that defines them is not part of this model, and the proofs rely only on the four values being distinct. The claim's own `getAllSnaks` is taken to return the main snak followed by the qualifiers.

## Model

| member | source | states |
|---|---|---|
| `AliasGroups.WithGroup` | src/Term/AliasGroupList.php:100-107 | An empty group leaves no entry for its language; a non-empty one is stored under its language; every other language keeps its entry; the invariant is preserved |
| `AliasGroups.AliasGroupList.SetGroup` | src/Term/AliasGroupList.php:94-107 | Keeps the invariant (no stored group is empty) and leaves the table that `WithGroup` describes: a non-empty group is then found by `getByLanguage`, an empty one leaves its language failing with OutOfBounds |
| `AliasGroups.WithGroupCount` | src/Term/AliasGroupList.php:100-107 | Storing an empty group lowers the count by one if the language had an entry and leaves it alone otherwise; a non-empty group raises it by one only for a new language |
| `AliasGroups.AliasGroupList.constructor` | src/Term/AliasGroupList.php:34-42 | Builds the table that applying `setGroup` to each given group in order builds, and establishes the invariant |
| `AliasGroups.FromGroups` | src/Term/AliasGroupList.php:34-42 | The table built from any sequence of groups keeps no empty group and keys each group by its language |
| `AliasGroups.FromGroupsLastWins` | src/Term/AliasGroupList.php:11-14 | The last group given for a language decides it: its language has an entry exactly when that group is non-empty, and the entry is that group |
| `AliasGroups.FromGroupsAbsent` | src/Term/AliasGroupList.php:34-42 | A language no given group names has no entry |
| `AliasGroups.AliasGroupList.Count` | src/Term/AliasGroupList.php:48-50 | The number of languages with an entry; zero exactly when the list holds nothing |
| `AliasGroups.AliasGroupList.GetByLanguage` | src/Term/AliasGroupList.php:67-77 | Fails with OutOfBounds exactly when the language has no entry; otherwise returns the stored group, which has that language and is not empty |
| `AliasGroups.AliasGroupList.RemoveByLanguage` | src/Term/AliasGroupList.php:83-86 | Afterwards the language has no entry, every other entry is unchanged, and the invariant holds |
| `AliasGroups.RemoveIdempotent` | src/Term/AliasGroupList.php:83-86 | Removing twice is removing once; removing a present language lowers the count by one; removing an absent one changes nothing |
| `AliasGroups.AliasGroupList.Equals` | src/Term/AliasGroupList.php:118-134 | The loop with its early exits returns the source's count-and-containment test, and that test holds exactly when both tables are equal |
| `AliasGroups.SameGroupsIsEquality` | src/Term/AliasGroupList.php:118-146 | On a valid list, "same count and the target holds every group" is exactly map equality |
| `AliasGroups.EqualsReflexive` | src/Term/AliasGroupList.php:118-146 | Every valid list equals itself |
| `AliasGroups.EqualsSymmetric` | src/Term/AliasGroupList.php:118-146 | Between valid lists, equality is symmetric |
| `AliasGroups.AliasGroupList.HasAliasGroup` | src/Term/AliasGroupList.php:143-146 | True exactly when looking up the group's language returns an equal group; so on a valid list an empty group is never held |
| `AliasGroups.AliasGroupList.HasGroupForLanguage` | src/Term/AliasGroupList.php:155-158 | True exactly when `getByLanguage` for that language succeeds |
| `AliasGroups.AliasGroupList.SetAliasesForLanguage` | src/Term/AliasGroupList.php:166-168 | Same effect as storing `AliasGroup(languageCode, aliases)` with `setGroup` |
| `Fingerprints.Fingerprint.NewEmpty` | src/Term/Fingerprint.php:20-26 | Returns a fingerprint over three fresh collections that is empty |
| `Fingerprints.Fingerprint.constructor` | src/Term/Fingerprint.php:32-36 | Holds exactly the three collections it is given |
| `Fingerprints.Fingerprint.GetLabel` | src/Term/Fingerprint.php:55-57 | Fails with OutOfBounds exactly when the language has no label; otherwise returns the term of that language with the stored text |
| `Fingerprints.Fingerprint.SetLabel` | src/Term/Fingerprint.php:67-69 | Afterwards `getLabel` returns the new text and the fingerprint is not empty; other labels, the alias groups and (when a distinct object) the descriptions are unchanged |
| `Fingerprints.Fingerprint.RemoveLabel` | src/Term/Fingerprint.php:76-78 | Afterwards `getLabel` fails; other labels, the alias groups and (when a distinct object) the descriptions are unchanged |
| `Fingerprints.Fingerprint.GetDescription` | src/Term/Fingerprint.php:97-99 | Fails with OutOfBounds exactly when the language has no description; otherwise returns the stored text |
| `Fingerprints.Fingerprint.SetDescription` | src/Term/Fingerprint.php:109-111 | Afterwards `getDescription` returns the new text and the fingerprint is not empty; the alias groups and (when a distinct object) the labels are unchanged |
| `Fingerprints.Fingerprint.RemoveDescription` | src/Term/Fingerprint.php:118-120 | Afterwards `getDescription` fails; the alias groups and (when a distinct object) the labels are unchanged |
| `Fingerprints.Fingerprint.GetAliasGroup` | src/Term/Fingerprint.php:139-141 | Fails with OutOfBounds exactly when the language has no group; otherwise returns the group stored in the alias group list for that language, which is non-empty |
| `Fingerprints.Fingerprint.SetAliasGroup` | src/Term/Fingerprint.php:151-153 | An empty alias list removes the language's group, a non-empty one stores it; labels and descriptions are unchanged |
| `Fingerprints.Fingerprint.RemoveAliasGroup` | src/Term/Fingerprint.php:160-162 | Afterwards `getAliasGroup` fails; labels and descriptions are unchanged |
| `Fingerprints.Fingerprint.Equals` | src/Term/Fingerprint.php:173-181 | True exactly when descriptions, labels and alias groups are each equal; a fingerprint equals itself |
| `Fingerprints.Fingerprint.IsEmpty` | src/Term/Fingerprint.php:188-192 | True exactly when labels, descriptions and alias groups all have no entry |
| `Fingerprints.Fingerprint.SetLabels` | src/Term/Fingerprint.php:199-201 | Replaces the label list only |
| `Fingerprints.Fingerprint.SetDescriptions` | src/Term/Fingerprint.php:208-210 | Replaces the description list only |
| `Fingerprints.Fingerprint.SetAliasGroups` | src/Term/Fingerprint.php:217-219 | Replaces the alias group list only |
| `Statements.Statement.constructor` | src/Claim/Statement.php:35-47 | A new statement has rank NORMAL; missing references become an empty reference list |
| `Statements.Statement.SetReferences` | src/Claim/Statement.php:67-69 | Afterwards `getReferences` returns the given list; rank, main snak and qualifiers are unchanged |
| `Statements.Statement.SetRank` | src/Claim/Statement.php:80-88 | Succeeds exactly for DEPRECATED, NORMAL or PREFERRED, after which `getRank` returns it; any other value, TRUTH included, fails with InvalidArgument and leaves the rank as it was |
| `Statements.Statement.GetRank` | src/Claim/Statement.php:97-99 | Returns the stored rank, which is always one of the three statement ranks, never TRUTH |
| `Statements.Statement.GetReferences` | src/Claim/Statement.php:56-58 | Returns the stored reference list |
| `Statements.Statement.GetHash` | src/Claim/Statement.php:108-117 | The digest of, in this order, the claim's hash, the rank and the value hash of the references |
| `Statements.Statement.Equals` | src/Claim/Statement.php:147-154 | True exactly when the claim fields are equal and the reference lists are equal, as those classes compare them |
| `Statements.HashDeterminedByParts` | src/Claim/Statement.php:108-117 | Two statements with the same claim hash, rank and reference value hash have the same hash |
| `Statements.EqualStatementsHashAlike` | src/Claim/Statement.php:108-154 | Equal statements have equal hashes when the claim hash and the reference value hash respect their equalities |
| `Statements.Statement.GetAllSnaks` | src/Claim/Statement.php:127-136 | The loop returns the claim's snaks followed by each reference's snaks in reference order; its length is one plus the qualifier count plus the snak count of all references |
| `Statements.ReferenceSnaksAppend` | src/Claim/Statement.php:127-136 | Collecting the snaks of two reference lists in a row gives the two collections one after the other |
| `Statements.ReferenceSnaksLength` | src/Claim/Statement.php:127-136 | The collected snaks number the sum of the references' sizes |
| `Statements.ReferenceSnaksContains` | src/Claim/Statement.php:127-136 | Every snak of every reference is among the collected snaks |
| `Statements.EqualsReflexive` | src/Claim/Statement.php:147-154 | A statement equals itself when the claim-field and reference equalities are reflexive |
| `ItemIdSets.ItemIdSet.constructor` | src/Entity/ItemIdSet.php:31-39 | Stores each given id under its numeric id, so later duplicates overwrite earlier ones |
| `ItemIdSets.KeyedById` | src/Entity/ItemIdSet.php:31-39 | Each entry of the table is the id whose numeric id is its key |
| `ItemIdSets.KeyedByIdKeys` | src/Entity/ItemIdSet.php:31-39 | The table's keys are exactly the numeric ids of the input |
| `ItemIdSets.ItemIdSet.Count` | src/Entity/ItemIdSet.php:45-47 | The number of distinct numeric ids in the input, at most the input's length |
| `ItemIdSets.NumericIdsBound` | src/Entity/ItemIdSet.php:45-47 | A sequence has no more distinct numeric ids than elements |
| `ItemIdSets.ItemIdSet.Has` | src/Entity/ItemIdSet.php:62-64 | True exactly when some input id has the same numeric id |
| `ItemIdSets.ItemIdSet.Equals` | src/Entity/ItemIdSet.php:75-81 | True exactly when both sets were built from the same numeric ids, whatever the order and the repetitions |
| `ItemIdSets.EqualsReflexiveSymmetric` | src/Entity/ItemIdSet.php:75-81 | `equals` is reflexive and symmetric |
| `ItemIdSets.DuplicatesCollapse` | src/Entity/ItemIdSet.php:31-64 | The set built from [Q1, Q1, Q2] has `count()` 2, `has(Q1)` true and `has(Q3)` false |

## Left out

- `src/Entity/ItemDiff.php`: it is a thin wrapper over `EntityDiff` (its `fixSubstructureDiff` and `isEmpty`) and the `Diff` class of the external diff library, and `getType` uses `Item::ENTITY_TYPE`. None of these is part of this model.
- `getIterator` of `AliasGroupList` and `ItemIdSet`: iteration order of PHP arrays is not modelled.
- `getLabels`, `getDescriptions` and `getAliasGroups` return the stored object; the fields `labels`, `descriptions` and `aliasGroups` stand for them.
- The `instanceof` checks in the constructors and `equals` methods, and the `is_string` check on language codes: Dafny's static types rule out the inputs they reject.
- PHP's coercion of numeric-string array keys to integers: language codes stay strings.
- `Statements.Statement.GetHash`: SHA-1 and the `implode('|', …)` string building are not modelled. The digest is a function of the three parts passed in. Nothing is claimed about collisions, so the model does not say that changing content changes the hash.
- `Statements.Statement.Equals`: the claim-field equality and the reference list equality belong to classes that are not part of this model. They are passed in, so the model does not decide whether reference order matters.
- `Statements.Statement.GetAllSnaks`: `array_merge` renumbers integer keys but lets a later string key overwrite an earlier one. The model treats each merge as plain concatenation, so it assumes every snak list it merges is integer-keyed, as it does for the claim's own `getAllSnaks`.
- The claim's GUID and the claim setters for the main snak and the qualifiers are not part of this model.
- `AliasGroup` stores its aliases as given. Any normalisation its own constructor performs is not part of this model.
- `ItemId` is modelled by its numeric id alone; its serialization string is not part of this model.
- Exception message texts.
