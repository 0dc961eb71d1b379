/** The feedback counters shown by the dashboard, the member cards and the
    report summary: lengths of filters by `type` and by `status`. */
module Tallies {
  import opened Js
  import opened Seqs

  /** `f.type === 'positive'` */
  predicate IsPositive(f: Doc)
  {
    Is(Get(f, "type"), "positive")
  }

  /** `f.type === 'improvement'` */
  predicate IsImprovement(f: Doc)
  {
    Is(Get(f, "type"), "improvement")
  }

  /** `f.status === 'open'` */
  predicate IsOpen(f: Doc)
  {
    Is(Get(f, "status"), "open")
  }

  /** `f.status === 'closed'` */
  predicate IsClosed(f: Doc)
  {
    Is(Get(f, "status"), "closed")
  }

  /** `f.type === 'improvement' && f.status === 'open'` */
  predicate IsOpenImprovement(f: Doc)
  {
    IsImprovement(f) && IsOpen(f)
  }

  /** `m.role !== 'admin'` */
  predicate NotAdmin(m: Doc)
  {
    !Is(Get(m, "role"), "admin")
  }

  /** `teamMembers.filter(m => m.role !== 'admin')`: every member except
      the admins, in order. */
  function NonAdmins(teamMembers: seq<Doc>): (r: seq<Doc>)
    ensures forall m :: m in r <==> m in teamMembers && !Is(Get(m, "role"), "admin")
    ensures forall m :: multiset(r)[m] == if Is(Get(m, "role"), "admin") then 0 else multiset(teamMembers)[m]
    ensures IsSubseq(r, teamMembers)
  {
    FilterIsSubseq(teamMembers, NotAdmin);
    FilterMultiset(teamMembers, NotAdmin);
    Filter(teamMembers, NotAdmin)
  }

  /** Total, positive, improvement and open counts of a list of feedback. */
  datatype Tally = Tally(total: nat, positive: nat, improvement: nat, open: nat)

  /** The four counts of `fs`. A feedback item has one type, so positive and
      improvement items together are at most all of them. */
  function TallyOf(fs: seq<Doc>): (t: Tally)
    ensures t.total == |fs|
    ensures t.positive == |Filter(fs, IsPositive)| && t.improvement == |Filter(fs, IsImprovement)|
    ensures t.open == |Filter(fs, IsOpen)|
    ensures t.positive + t.improvement <= t.total
    ensures t.open <= t.total
  {
    DisjointCounts(fs, IsPositive, IsImprovement);
    Tally(|fs|, Count(fs, IsPositive), Count(fs, IsImprovement), Count(fs, IsOpen))
  }

  /** Open and closed items together are at most all items. */
  lemma OpenClosedBound(fs: seq<Doc>)
    ensures Count(fs, IsOpen) + Count(fs, IsClosed) <= |fs|
  {
    DisjointCounts(fs, IsOpen, IsClosed);
  }

  /** A member card's lists: the member's feedback, its positive items, its
      improvement items and the open ones among the improvements. */
  datatype Breakdown = Breakdown(all: seq<Doc>, positive: seq<Doc>, improvement: seq<Doc>, openImprovement: seq<Doc>)

  /** The breakdown of a member's feedback `mine`. Open improvements are
      improvements, so an open positive item is never counted as open. */
  function BreakdownOf(mine: seq<Doc>): (b: Breakdown)
    ensures b.all == mine
    ensures b.positive == Filter(mine, IsPositive) && b.improvement == Filter(mine, IsImprovement)
    ensures |b.positive| + |b.improvement| <= |b.all|
    ensures |b.openImprovement| <= |b.improvement|
    ensures forall f :: f in b.openImprovement <==> f in mine && IsImprovement(f) && IsOpen(f)
    ensures b.openImprovement == Filter(mine, IsOpenImprovement)
    ensures forall f :: f in b.positive ==> f !in b.openImprovement
  {
    DisjointCounts(mine, IsPositive, IsImprovement);
    var improvement := Filter(mine, IsImprovement);
    FilterFilter(mine, IsImprovement, IsOpen, IsOpenImprovement);
    Breakdown(mine, Filter(mine, IsPositive), improvement, Filter(improvement, IsOpen))
  }
}
