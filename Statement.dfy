/**
 * Statement: a claim (main snak and qualifiers) with a rank and an ordered
 * list of references.
 *
 * Claim, Snak, Reference and ReferenceList are collaborators whose sources
 * are not part of this model. Their hashes, the digest and their equality
 * relations are passed in as a `Collaborators` value, so that nothing is
 * assumed about them beyond what is stated where they are used.
 */
module Statements {
  import opened Wrappers

  /** The rank constants of the claim; TRUTH is not a rank a statement may take. */
  const RANK_DEPRECATED: int := 0
  const RANK_NORMAL: int := 1
  const RANK_PREFERRED: int := 2
  const RANK_TRUTH: int := 3

  /** The ranks `setRank` accepts. */
  predicate IsStatementRank(rank: int) {
    rank == RANK_DEPRECATED || rank == RANK_NORMAL || rank == RANK_PREFERRED
  }

  /** An atomic assertion about a property. */
  datatype Snak =
    | PropertyValueSnak(propertyId: nat, value: string)
    | PropertySomeValueSnak(propertyId: nat)
    | PropertyNoValueSnak(propertyId: nat)

  /** A group of snaks backing a statement, in order. */
  datatype Reference = Reference(snaks: seq<Snak>)

  /** The references of a statement, in order. */
  datatype ReferenceList = ReferenceList(references: seq<Reference>)

  /** What the claim compares and hashes: its main snak, its qualifiers and its rank. */
  datatype ClaimFields = ClaimFields(mainSnak: Snak, qualifiers: seq<Snak>, rank: int)

  /** The operations of classes outside this model that the statement calls. */
  datatype Collaborators = Collaborators(
    claimHash: ClaimFields -> string,                 // the claim's own getHash
    referencesHash: ReferenceList -> string,          // the reference list's getValueHash
    digest: (string, int, string) -> string,          // the one-way digest over the joined parts
    claimFieldsEqual: (ClaimFields, ClaimFields) -> bool,
    referencesEqual: (ReferenceList, ReferenceList) -> bool)

  /** Every snak of the references, reference by reference, each in its own order. */
  function ReferenceSnaks(references: seq<Reference>): seq<Snak>
  {
    if references == [] then []
    else ReferenceSnaks(references[..|references| - 1]) + references[|references| - 1].snaks
  }

  /** The total number of snaks over the references. */
  function SnakCount(references: seq<Reference>): nat
  {
    if references == [] then 0 else |references[0].snaks| + SnakCount(references[1..])
  }

  class Statement {
    var mainSnak: Snak
    var qualifiers: seq<Snak>
    var rank: int
    var references: ReferenceList

    ghost predicate Valid()
      reads this
    {
      IsStatementRank(rank)
    }

    /** A statement of normal rank; missing qualifiers or references become empty lists. */
    constructor (mainSnak: Snak, qualifiers: Option<seq<Snak>>, references: Option<ReferenceList>)
      ensures Valid()
      ensures rank == RANK_NORMAL
      ensures this.mainSnak == mainSnak
      ensures this.qualifiers == (if qualifiers.Some? then qualifiers.value else [])
      ensures this.references == (if references.Some? then references.value else ReferenceList([]))
    {
      this.mainSnak := mainSnak;
      this.qualifiers := if qualifiers.Some? then qualifiers.value else [];
      this.rank := RANK_NORMAL;
      this.references := if references.Some? then references.value else ReferenceList([]);
    }

    function Fields(): ClaimFields
      reads this
    {
      ClaimFields(mainSnak, qualifiers, rank)
    }

    function GetReferences(): (r: ReferenceList)
      reads this
      ensures r == references
    {
      references
    }

    method SetReferences(references: ReferenceList)
      modifies this
      ensures GetReferences() == references
      ensures rank == old(rank) && mainSnak == old(mainSnak) && qualifiers == old(qualifiers)
    {
      this.references := references;
    }

    /** Accepts DEPRECATED, NORMAL or PREFERRED; any other value fails and changes nothing. */
    method SetRank(rank: int) returns (outcome: Outcome)
      requires Valid()
      modifies this
      ensures Valid()
      ensures outcome.Pass? <==> IsStatementRank(rank)
      ensures outcome.Fail? ==> outcome.error == InvalidArgument
      ensures GetRank() == if outcome.Pass? then rank else old(GetRank())
      ensures references == old(references) && mainSnak == old(mainSnak) && qualifiers == old(qualifiers)
    {
      if !(rank == RANK_DEPRECATED || rank == RANK_NORMAL || rank == RANK_PREFERRED) {
        return Fail(InvalidArgument);
      }
      this.rank := rank;
      return Pass;
    }

    function GetRank(): (r: int)
      requires Valid()
      reads this
      ensures r == rank
      ensures IsStatementRank(r) && r != RANK_TRUTH
    {
      rank
    }

    /** The digest of the claim's hash, the rank and the references' value hash, in that order. */
    function GetHash(c: Collaborators): (h: string)
      reads this
      ensures h == c.digest(c.claimHash(ClaimFields(mainSnak, qualifiers, rank)), rank, c.referencesHash(GetReferences()))
    {
      c.digest(c.claimHash(Fields()), rank, c.referencesHash(references))
    }

    /** The snaks of the claim, followed by those of each reference in order. */
    function AllSnaks(): seq<Snak>
      reads this
    {
      [mainSnak] + qualifiers + ReferenceSnaks(references.references)
    }

    /** Collects the claim's snaks, then appends each reference's snaks in turn. */
    method GetAllSnaks() returns (snaks: seq<Snak>)
      ensures snaks == AllSnaks()
      ensures |snaks| == 1 + |qualifiers| + SnakCount(references.references)
    {
      snaks := [mainSnak] + qualifiers;
      var refs := references.references;
      for i := 0 to |refs|
        invariant snaks == [mainSnak] + qualifiers + ReferenceSnaks(refs[..i])
      {
        assert refs[..i + 1][..i] == refs[..i];
        snaks := snaks + refs[i].snaks;
      }
      assert refs[..|refs|] == refs;
      ReferenceSnaksLength(refs);
    }

    /** Claim fields equal and references equal, as the collaborators compare them. */
    function Equals(target: Statement, c: Collaborators): (b: bool)
      reads this, target
      ensures b <==> c.claimFieldsEqual(Fields(), target.Fields()) && c.referencesEqual(GetReferences(), target.GetReferences())
    {
      c.claimFieldsEqual(Fields(), target.Fields()) && c.referencesEqual(references, target.references)
    }
  }

  /** The snaks of a concatenation of reference lists are the concatenation of their snaks. */
  lemma {:induction false} ReferenceSnaksAppend(a: seq<Reference>, b: seq<Reference>)
    ensures ReferenceSnaks(a + b) == ReferenceSnaks(a) + ReferenceSnaks(b)
  {
    if b != [] {
      var ab := a + b;
      assert ab[..|ab| - 1] == a + b[..|b| - 1];
      ReferenceSnaksAppend(a, b[..|b| - 1]);
    } else {
      assert a + b == a;
    }
  }

  /** The number of collected snaks is the sum of the references' sizes. */
  lemma {:induction false} ReferenceSnaksLength(references: seq<Reference>)
    ensures |ReferenceSnaks(references)| == SnakCount(references)
  {
    if references != [] {
      ReferenceSnaksLength(references[1..]);
      assert references == [references[0]] + references[1..];
      ReferenceSnaksAppend([references[0]], references[1..]);
      assert [references[0]][..0] == [];
    }
  }

  /** Every snak of every reference is among the collected snaks. */
  lemma {:induction false} ReferenceSnaksContains(references: seq<Reference>, i: nat, snak: Snak)
    requires i < |references| && snak in references[i].snaks
    ensures snak in ReferenceSnaks(references)
  {
    if i < |references| - 1 {
      ReferenceSnaksContains(references[..|references| - 1], i, snak);
    }
  }

  /** The hash depends on nothing but the claim hash, the rank and the references' value hash. */
  lemma HashDeterminedByParts(s: Statement, t: Statement, c: Collaborators)
    requires c.claimHash(s.Fields()) == c.claimHash(t.Fields())
    requires s.rank == t.rank
    requires c.referencesHash(s.references) == c.referencesHash(t.references)
    ensures s.GetHash(c) == t.GetHash(c)
  {
  }

  /** Equal statements hash alike when the claim and reference hashes respect their equalities. */
  lemma EqualStatementsHashAlike(s: Statement, t: Statement, c: Collaborators)
    requires forall x, y :: c.claimFieldsEqual(x, y) ==> c.claimHash(x) == c.claimHash(y) && x.rank == y.rank
    requires forall x, y :: c.referencesEqual(x, y) ==> c.referencesHash(x) == c.referencesHash(y)
    requires s.Equals(t, c)
    ensures s.GetHash(c) == t.GetHash(c)
  {
  }

  /** Equality of statements is reflexive when the equalities it is built from are. */
  lemma EqualsReflexive(s: Statement, c: Collaborators)
    requires forall x :: c.claimFieldsEqual(x, x)
    requires forall x :: c.referencesEqual(x, x)
    ensures s.Equals(s, c)
  {
  }
}
