/** Gathering the route files of a chain, hop by hop. */
module ChainAssembly {
  import opened Wrappers

  const MAX_CHAIN_ROUTES: nat := 16

  datatype AssemblyError = NoStartRoute | StartNotInCampaignTable | DuplicateOrdinal

  /** A route file under either naming convention. */
  datatype RouteFile = Legacy(hop: nat) | Neutral(hop: nat)

  /** Which files there are for the chain's start map. */
  datatype Directory = Directory(startInTable: bool, legacy: nat -> bool, neutral: nat -> bool)

  predicate Has(d: Directory, hop: nat) {
    d.legacy(hop) || d.neutral(hop)
  }

  predicate Clashes(d: Directory, hop: nat) {
    d.legacy(hop) && d.neutral(hop)
  }

  function FileOf(d: Directory, hop: nat): RouteFile {
    if d.legacy(hop) then Legacy(hop) else Neutral(hop)
  }

  /** The first `n` hops all have exactly one file. */
  predicate Unbroken(d: Directory, n: nat) {
    forall hop: nat | hop < n :: Has(d, hop) && !Clashes(d, hop)
  }

  /** The chain ends before `n`: there is a gap, or it is as long as allowed. */
  predicate EndsAt(d: Directory, n: nat) {
    n <= MAX_CHAIN_ROUTES && Unbroken(d, n) && (n == MAX_CHAIN_ROUTES || !Has(d, n))
  }

  method AssembleChain(d: Directory) returns (r: Result<seq<RouteFile>, AssemblyError>)
    ensures r == Err(StartNotInCampaignTable) <==> !d.startInTable
    ensures r == Err(DuplicateOrdinal) <==>
              d.startInTable && exists n: nat :: n < MAX_CHAIN_ROUTES && Unbroken(d, n) && Clashes(d, n)
    ensures r == Err(NoStartRoute) <==> d.startInTable && !Has(d, 0)
    ensures r.Ok? ==>
              EndsAt(d, |r.value|) && r.value != [] && forall i | 0 <= i < |r.value| :: r.value[i] == FileOf(d, i)
  {
    if !d.startInTable {
      return Err(StartNotInCampaignTable);
    }
    var routes: seq<RouteFile> := [];
    var hop: nat := 0;
    while hop < MAX_CHAIN_ROUTES && Has(d, hop)
      invariant hop <= MAX_CHAIN_ROUTES && hop == |routes| && Unbroken(d, hop)
      invariant forall i | 0 <= i < hop :: routes[i] == FileOf(d, i)
    {
      if Clashes(d, hop) {
        assert Unbroken(d, hop);
        return Err(DuplicateOrdinal);
      }
      routes := routes + [FileOf(d, hop)];
      hop := hop + 1;
    }
    forall n: nat | n < MAX_CHAIN_ROUTES && Unbroken(d, n) ensures !Clashes(d, n) {
      assert n > hop ==> Has(d, hop);
    }
    if routes == [] {
      return Err(NoStartRoute);
    }
    r := Ok(routes);
  }

  /** A chain is cut in one way only: where a gap or the bound ends it. */
  lemma ChainLengthIsUnique(d: Directory, m: nat, n: nat)
    requires EndsAt(d, m) && EndsAt(d, n)
    ensures m == n
  {
    assert m < n ==> Has(d, m);
    assert n < m ==> Has(d, n);
  }
}
