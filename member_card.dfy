/** The dashboard's member card: the member's feedback, matched by the
    member's uid, broken down by type and open improvements, and the role
    label. */
module MemberCard {
  import opened Js
  import opened Seqs
  import opened Roles
  import opened Tallies

  /** `f.memberUid === member.uid`; two missing fields are equal. */
  predicate AboutMember(f: Doc, member: Doc)
  {
    Get(f, "memberUid") == Get(member, "uid")
  }

  /** The card's lists. */
  function Counts(member: Doc, feedbacks: seq<Doc>): (b: Breakdown)
    ensures forall f :: f in b.all <==> f in feedbacks && Get(f, "memberUid") == Get(member, "uid")
    ensures forall f :: multiset(b.all)[f] == if Get(f, "memberUid") == Get(member, "uid") then multiset(feedbacks)[f] else 0
    ensures IsSubseq(b.all, feedbacks)
    ensures b.positive == Filter(b.all, IsPositive) && b.improvement == Filter(b.all, IsImprovement)
    ensures b.openImprovement == Filter(b.all, IsOpenImprovement)
    ensures |b.positive| + |b.improvement| <= |b.all|
    ensures forall f :: f in b.openImprovement ==> f in b.all && IsImprovement(f) && IsOpen(f)
  {
    FilterIsSubseq(feedbacks, f => AboutMember(f, member));
    FilterMultiset(feedbacks, f => AboutMember(f, member));
    BreakdownOf(Filter(feedbacks, f => AboutMember(f, member)))
  }

  /** `getRoleLabel(member.role)` */
  function RoleLabelOf(member: Doc): (r: string)
    ensures r == "Unknown" <==> !(Is(Get(member, "role"), "admin") || Is(Get(member, "role"), "reviewer") ||
                                  Is(Get(member, "role"), "team_member"))
  {
    RoleLabelSpec(Get(member, "role"), Get(member, "role"));
    RoleLabel(RoleOfDoc(member))
  }
}
