/** The partner rows the lookups read are those the partner service writes. */
module Directory {
  import opened Wrappers
  import P = ProductionApproval
  import A = ApprovalTheorems
  import B = ApprovalProtocol
  import L = Lookups
  import T = LookupTheorems

  /** What the lookups see of the partners; whether and under what name a partner is listed is kept elsewhere. */
  predicate Shows(rows: seq<L.PartnerRow>, partners: seq<P.Partner>) {
    && |rows| == |partners|
    && forall i :: 0 <= i < |rows| ==>
         rows[i].slug == partners[i].slug && (rows[i].active <==> partners[i].status == P.ACTIVE)
  }

  /** In every interleaving of calls of the partner service, slugs are unique and in the form the lookups rely on. */
  lemma SlugsAreOk(apart: bool, moves: seq<B.Move>, rows: seq<L.PartnerRow>)
    requires Shows(rows, B.Play(apart, B.START, moves).t.partners)
    ensures T.SlugsOk(rows)
  {
    B.SlugsAlwaysKept(apart, moves);
    var partners := B.Play(apart, B.START, moves).t.partners;
    assert A.SlugsKept(partners);
    forall i | 0 <= i < |rows| ensures rows[i].slug == partners[i].slug {
    }
  }
}
