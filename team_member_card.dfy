/** The team tab's member card. It matches feedback to the member by
    `memberId`, a field the application removes before it stores feedback;
    `CountsAsWritten` keeps that, and `NeverCountsSavedFeedback` shows its
    effect. Matching by uid, as the dashboard card does, is
    `MemberCard.Counts`. */
module TeamMemberCard {
  import opened Wrappers
  import opened Js
  import opened Seqs
  import opened Roles
  import opened Tallies
  import opened FirebaseService
  import App
  import MemberCard

  /** `f.memberId === member.id` */
  predicate ByMemberId(f: Doc, member: Doc)
  {
    Get(f, "memberId") == Get(member, "id")
  }

  /** The card's lists as written: the feedback whose `memberId` is the
      member's document id. */
  function CountsAsWritten(member: Doc, feedbacks: seq<Doc>): (b: Breakdown)
    ensures forall f :: f in b.all <==> f in feedbacks && Get(f, "memberId") == Get(member, "id")
    ensures forall f :: multiset(b.all)[f] == if Get(f, "memberId") == Get(member, "id") then multiset(feedbacks)[f] else 0
    ensures IsSubseq(b.all, feedbacks)
    ensures b.positive == Filter(b.all, IsPositive) && b.improvement == Filter(b.all, IsImprovement)
    ensures b.openImprovement == Filter(b.all, IsOpenImprovement)
    ensures |b.positive| + |b.improvement| <= |b.all|
    ensures forall f :: f in b.openImprovement ==> f in b.all && IsImprovement(f) && IsOpen(f)
  {
    FilterIsSubseq(feedbacks, f => ByMemberId(f, member));
    FilterMultiset(feedbacks, f => ByMemberId(f, member));
    BreakdownOf(Filter(feedbacks, f => ByMemberId(f, member)))
  }

  /** The listed form of a feedback submitted through the application. */
  function SavedFeedback(feedbackData: Doc, selected: Doc, companyId: Option<Value>, now: int, id: string): Doc
  {
    Listed(Entry(id, FeedbackRecord(App.FeedbackToSave(feedbackData, selected), companyId, now)))
  }

  /** A feedback submitted through the application about the card's member
      is never counted on this card, while matching by uid counts it. */
  lemma NeverCountsSavedFeedback(feedbackData: Doc, selected: Doc, companyId: Option<Value>, now: int, id: string,
                                 member: Doc)
    requires "id" in member && Get(member, "uid") == Get(selected, "uid")
    ensures var f := SavedFeedback(feedbackData, selected, companyId, now, id);
            CountsAsWritten(member, [f]).all == [] && MemberCard.Counts(member, [f]).all == [f]
  {
    var toSave := App.FeedbackToSave(feedbackData, selected);
    var rec := FeedbackRecord(toSave, companyId, now);
    var f := SavedFeedback(feedbackData, selected, companyId, now, id);
    assert Get(rec, "memberId") == None;
    assert Get(f, "memberId") == None;
    assert Get(f, "memberUid") == Get(selected, "uid");
  }

  /** Saving and listing a feedback keeps the submitted fields other than
      the member and bookkeeping fields, such as its type. */
  lemma SavedFeedbackKeeps(feedbackData: Doc, selected: Doc, companyId: Option<Value>, now: int, id: string, k: string)
    requires k !in {"id", "memberId", "memberUid", "memberName", "companyId", "createdAt", "updatedAt"}
    ensures Get(SavedFeedback(feedbackData, selected, companyId, now, id), k) == Get(feedbackData, k)
  {
    var toSave := App.FeedbackToSave(feedbackData, selected);
    var rec := FeedbackRecord(toSave, companyId, now);
    assert Get(toSave, k) == Get(feedbackData, k);
    assert Get(rec, k) == Get(toSave, k);
    assert Get(Listed(Entry(id, rec)), k) == Get(rec, k);
  }

  /** One concrete case: a member listed with id "m1" and uid "u1", and the
      feedback submitted for them with `memberId: "m1"`. */
  lemma SavedFeedbackExample()
    ensures var member := map["id" := Str("m1"), "uid" := Str("u1"), "role" := Str("team_member")];
            var data := map["memberId" := Str("m1"), "type" := Str("improvement"), "status" := Str("open")];
            var f := SavedFeedback(data, member, Some(Str("c1")), 100, "f1");
            |CountsAsWritten(member, [f]).improvement| == 0 &&
            |MemberCard.Counts(member, [f]).improvement| == 1
  {
    var member := map["id" := Str("m1"), "uid" := Str("u1"), "role" := Str("team_member")];
    var data := map["memberId" := Str("m1"), "type" := Str("improvement"), "status" := Str("open")];
    var f := SavedFeedback(data, member, Some(Str("c1")), 100, "f1");
    NeverCountsSavedFeedback(data, member, Some(Str("c1")), 100, "f1", member);
    SavedFeedbackKeeps(data, member, Some(Str("c1")), 100, "f1", "type");
    assert Get(data, "type") == Some(Str("improvement"));
    assert Filter([f], IsImprovement) == [f];
  }
}
