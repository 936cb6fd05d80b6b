/** The split of the movement rows by the site code CE07. */
module Partitioner {
  import opened Seqs
  import opened Records

  /** The distinguished site. */
  const CE07: string := "CE07"

  /** The mask `centro == site`. */
  function SiteIs(site: string): (p: Bucketed -> bool) {
    (b: Bucketed) => b.movement.centro == site
  }

  /** The mask `centro != site`. */
  function SiteIsNot(site: string): (p: Bucketed -> bool) {
    (b: Bucketed) => b.movement.centro != site
  }

  /** `zmb51[zmb51["centro"] == site]`. */
  function AtSite(rows: seq<Bucketed>, site: string): (part: seq<Bucketed>)
    ensures forall i :: 0 <= i < |part| ==> part[i].movement.centro == site
  {
    Filter(rows, SiteIs(site))
  }

  /** `zmb51[zmb51["centro"] != site]`. */
  function AwayFromSite(rows: seq<Bucketed>, site: string): (part: seq<Bucketed>)
    ensures forall i :: 0 <= i < |part| ==> part[i].movement.centro != site
  {
    Filter(rows, SiteIsNot(site))
  }

  /** Every row lands in exactly one part: the part its site selects. */
  lemma PartitionMembership(rows: seq<Bucketed>, site: string, i: nat)
    requires i < |rows|
    ensures rows[i] in AtSite(rows, site) <==> rows[i].movement.centro == site
    ensures rows[i] in AwayFromSite(rows, site) <==> rows[i].movement.centro != site
  {
  }

  /** The two parts are disjoint, together they are exactly the input (as a
      multiset), and each keeps the input order: the input is an
      interleaving of the two. */
  lemma Partition(rows: seq<Bucketed>, site: string)
    ensures multiset(AtSite(rows, site)) * multiset(AwayFromSite(rows, site)) == multiset{}
    ensures multiset(AtSite(rows, site)) + multiset(AwayFromSite(rows, site)) == multiset(rows)
    ensures Interleaves(rows, AtSite(rows, site), AwayFromSite(rows, site))
  {
    FilterSplitMultiset(rows, SiteIs(site), SiteIsNot(site));
    FilterInterleaves(rows, SiteIs(site), SiteIsNot(site));
  }
}
