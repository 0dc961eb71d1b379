/** The application shell: the signed-in user's record, the lists loaded
    from the store and the handlers the tabs call. The shell is only shown
    behind the route guard, so the user record is always present. Success
    and error notifications, console logging and the confirmation dialog
    are not modelled; the dialog's answer is the `confirmed` parameter. */
module App {
  import opened Wrappers
  import opened Js
  import opened Seqs
  import opened Roles
  import opened FirebaseService
  import Sorting
  import TeamMembers

  /** `feedbackData.memberId`, `editingMember.id`: a document path segment,
      which must be a string. */
  function DocId(v: Option<Value>): Option<string>
  {
    if v.Some? && v.value.Str? then Some(v.value.s) else None
  }

  /** `newStatus` of `handleToggleStatus`. */
  function NewStatus(currentStatus: Option<Value>): (r: Value)
    ensures r == Str("closed") <==> Is(currentStatus, "open")
    ensures r == Str("open") <==> !Is(currentStatus, "open")
  {
    if Is(currentStatus, "open") then Str("closed") else Str("open")
  }

  /** Toggling twice from an open or a closed item restores its status. */
  lemma ToggleTwice(status: string)
    requires status == "open" || status == "closed"
    ensures NewStatus(Some(NewStatus(Some(Str(status))))) == Str(status)
  {
  }

  /** `feedbackToSave`: the submitted fields with the selected member's uid
      and name copied in, and `memberId` removed. */
  function FeedbackToSave(feedbackData: Doc, member: Doc): (r: Doc)
    ensures Get(r, "memberUid") == Get(member, "uid")
    ensures Get(r, "memberName") == Get(member, "name")
    ensures "memberId" !in r
    ensures forall k :: k !in {"memberUid", "memberName", "memberId"} ==> Get(r, k) == Get(feedbackData, k)
  {
    Without(Assign(Assign(feedbackData, "memberUid", Get(member, "uid")), "memberName", Get(member, "name")), "memberId")
  }

  /** `teamMembers.find(m => m.id === feedbackData.memberId)` */
  function SelectedMember(teamMembers: seq<Doc>, feedbackData: Doc): (r: Option<Doc>)
    ensures r.None? <==> forall m :: m in teamMembers ==> Get(m, "id") != Get(feedbackData, "memberId")
    ensures r.Some? ==> r.value in teamMembers && Get(r.value, "id") == Get(feedbackData, "memberId")
    ensures r.Some? ==> exists i :: 0 <= i < |teamMembers| && teamMembers[i] == r.value &&
                              forall j :: 0 <= j < i ==> Get(teamMembers[j], "id") != Get(feedbackData, "memberId")
  {
    FindFirst(teamMembers, m => Get(m, "id") == Get(feedbackData, "memberId"));
    Find(teamMembers, m => Get(m, "id") == Get(feedbackData, "memberId"))
  }

  class AppContent {
    const store: Store
    const userData: Doc
    var teamMembers: seq<Doc>
    var feedbacks: seq<Doc>
    var companyInfo: Option<Doc>
    var loading: bool

    ghost predicate Valid()
      reads this, store
    {
      store.Valid()
    }

    /** The lists show the store as the user's role sees it, newest first. */
    ghost predicate Shows(reachable: bool)
      reads this, store
    {
      var companyId := Get(userData, "companyId");
      var uid := Get(userData, "uid");
      var role := RoleOfDoc(userData);
      multiset(teamMembers) == multiset(MemberListing(store.users, companyId, uid, role, reachable)) &&
      Sorting.NewestFirst(teamMembers, StoreKey) &&
      multiset(feedbacks) == multiset(FeedbackListing(store.feedbacks, companyId, uid, role, reachable)) &&
      Sorting.NewestFirst(feedbacks, StoreKey) &&
      companyInfo == store.CompanyInfo(companyId)
    }

    constructor (store: Store, userData: Doc)
      ensures this.store == store && this.userData == userData
      ensures teamMembers == [] && feedbacks == [] && companyInfo == None && loading
    {
      this.store := store;
      this.userData := userData;
      teamMembers, feedbacks, companyInfo := [], [], None;
      loading := true;
    }

    /** `loadData`: nothing happens without a company id; otherwise the
        members, the feedback and the company are read, scoped by the user's
        company id, uid and role. The listings catch their own failures, so
        the load itself always completes. */
    method LoadData(reachable: bool)
      modifies this
      ensures !Truthy(Get(userData, "companyId")) ==>
                teamMembers == old(teamMembers) && feedbacks == old(feedbacks) &&
                companyInfo == old(companyInfo) && loading == old(loading)
      ensures Truthy(Get(userData, "companyId")) ==> Shows(reachable) && !loading
    {
      var companyId := Get(userData, "companyId");
      if !Truthy(companyId) {
        return;
      }
      loading := true;
      var uid := Get(userData, "uid");
      var role := RoleOfDoc(userData);
      teamMembers := store.GetTeamMembers(companyId, uid, role, reachable);
      feedbacks := store.GetFeedbacks(companyId, uid, role, reachable);
      companyInfo := store.CompanyInfo(companyId);
      loading := false;
    }

    /** `handleSaveMember(memberData, editingMember)`: updates the member
        being edited and returns nothing, or creates a member in the user's
        company and returns its credentials; the lists are reloaded after
        either. A failure is passed on to the caller. */
    method HandleSaveMember(memberData: Doc, editingMember: Option<Doc>, identity: Identity, now: int, reachable: bool)
      returns (r: Result<Option<Created>, string>)
      requires Valid()
      modifies this, store
      ensures Valid()
      ensures store.companies == old(store.companies) && store.feedbacks == old(store.feedbacks)
      ensures r.Err? ==> store.users == old(store.users)
      ensures editingMember.Some? && r.Ok? ==>
                r.value.None? &&
                DocId(Get(editingMember.value, "id")).Some? &&
                store.users == PatchEntries(old(store.users), DocId(Get(editingMember.value, "id")).value, memberData, now)
      ensures editingMember.Some? ==>
                (r.Ok? <==> DocId(Get(editingMember.value, "id")).Some? &&
                            DocId(Get(editingMember.value, "id")).value in Ids(old(store.users)))
      ensures editingMember.None? && r.Ok? ==>
                r.value.Some? &&
                r.value.value.id !in Ids(old(store.users)) &&
                store.users == old(store.users) +
                  [Entry(r.value.value.id, MemberRecord(memberData, r.value.value.uid, Get(userData, "companyId"), now))]
      ensures editingMember.None? && r.Ok? ==>
                r.value.Some? &&
                identity(Get(memberData, "email"), r.value.value.password) == Ok(r.value.value.uid) &&
                r.value.value.name == Get(memberData, "name") && r.value.value.email == Get(memberData, "email") &&
                (r.value.value.isGenerated <==> !Truthy(Get(memberData, "password"))) &&
                TeamMembers.ShowsCredentials(r.value, editingMember)
      ensures r.Ok? && Truthy(Get(userData, "companyId")) ==> Shows(reachable)
    {
      if editingMember.Some? {
        var id := DocId(Get(editingMember.value, "id"));
        if id.None? {
          return Err("invalid document reference");
        }
        var updated := store.UpdateTeamMember(id.value, memberData, now);
        if updated.Err? {
          return Err(updated.error);
        }
        LoadData(reachable);
        r := Ok(None);
      } else {
        var created := store.CreateTeamMember(memberData, Get(userData, "companyId"), identity, now);
        if created.Err? {
          return Err(created.error);
        }
        LoadData(reachable);
        r := Ok(Some(created.value));
      }
    }

    /** `handleDeleteMember(id)`: when confirmed, deletes the member and its
        feedback in the user's company, then reloads the lists; a failure is
        reported and not passed on. */
    method HandleDeleteMember(id: string, confirmed: bool, queryOk: bool, batchOk: bool, reachable: bool)
      returns (r: Result<(), string>)
      requires Valid()
      modifies this, store
      ensures Valid() && store.companies == old(store.companies)
      ensures !confirmed ==> r.Ok? && store.users == old(store.users) && store.feedbacks == old(store.feedbacks)
      ensures confirmed && id !in Ids(old(store.users)) ==>
                r.Err? && store.users == old(store.users) && store.feedbacks == old(store.feedbacks)
      ensures confirmed && id in Ids(old(store.users)) ==>
                var i := IndexOf(old(store.users), id).value;
                var memberUid := Get(old(store.users)[i].data, "uid");
                var companyId := Get(userData, "companyId");
                store.users == old(store.users)[..i] + old(store.users)[i + 1..] &&
                (r.Ok? <==> memberUid.Some? && companyId.Some? && queryOk &&
                            (batchOk || Count(old(store.feedbacks), e => Cascaded(e, memberUid.value, companyId.value)) == 0)) &&
                (r.Ok? ==> store.feedbacks == Filter(old(store.feedbacks), e => !Cascaded(e, memberUid.value, companyId.value))) &&
                (r.Err? ==> store.feedbacks == old(store.feedbacks))
      ensures confirmed && r.Ok? && Truthy(Get(userData, "companyId")) ==> Shows(reachable)
    {
      if !confirmed {
        return Ok(());
      }
      r := store.DeleteTeamMember(id, Get(userData, "companyId"), queryOk, batchOk);
      if r.Ok? {
        LoadData(reachable);
      }
    }

    /** `handleSubmitFeedback(feedbackData)`: resolves the selected member
        among the loaded ones, stores the feedback with that member's uid and
        name and without `memberId` in the user's company, then reloads.
        When no loaded member has the selected id nothing is stored. */
    method HandleSubmitFeedback(feedbackData: Doc, now: int, reachable: bool) returns (r: Result<(), string>)
      requires Valid()
      modifies this, store
      ensures Valid() && store.companies == old(store.companies) && store.users == old(store.users)
      ensures SelectedMember(old(teamMembers), feedbackData).None? ==>
                r == Err("Selected team member not found") && store.feedbacks == old(store.feedbacks) &&
                teamMembers == old(teamMembers) && feedbacks == old(feedbacks)
      ensures SelectedMember(old(teamMembers), feedbackData).Some? ==>
                r.Ok? &&
                |store.feedbacks| == |old(store.feedbacks)| + 1 &&
                store.feedbacks[..|old(store.feedbacks)|] == old(store.feedbacks) &&
                store.feedbacks[|old(store.feedbacks)|].id !in Ids(old(store.feedbacks)) &&
                store.feedbacks[|old(store.feedbacks)|].data ==
                  FeedbackRecord(FeedbackToSave(feedbackData, SelectedMember(old(teamMembers), feedbackData).value),
                                 Get(userData, "companyId"), now)
      ensures r.Ok? && Truthy(Get(userData, "companyId")) ==> Shows(reachable)
    {
      var selected := SelectedMember(teamMembers, feedbackData);
      if selected.None? {
        return Err("Selected team member not found");
      }
      var toSave := FeedbackToSave(feedbackData, selected.value);
      var id, saved := store.AddFeedback(toSave, Get(userData, "companyId"), now);
      LoadData(reachable);
      r := Ok(());
    }

    /** `handleToggleStatus(feedbackId, currentStatus)`: writes the flipped
        status to the feedback, whatever its type, and reloads. */
    method HandleToggleStatus(feedbackId: Option<Value>, currentStatus: Option<Value>, now: int, reachable: bool)
      returns (r: Result<(), string>)
      requires Valid()
      modifies this, store
      ensures Valid() && store.companies == old(store.companies) && store.users == old(store.users)
      ensures r.Ok? <==> DocId(feedbackId).Some? && DocId(feedbackId).value in Ids(old(store.feedbacks))
      ensures r.Err? ==> store.feedbacks == old(store.feedbacks)
      ensures r.Ok? ==>
                store.feedbacks == PatchEntries(old(store.feedbacks), DocId(feedbackId).value,
                                                map["status" := NewStatus(currentStatus)], now)
      ensures r.Ok? && Truthy(Get(userData, "companyId")) ==> Shows(reachable)
    {
      var id := DocId(feedbackId);
      if id.None? {
        return Err("invalid document reference");
      }
      r := store.UpdateFeedback(id.value, map["status" := NewStatus(currentStatus)], now);
      if r.Ok? {
        LoadData(reachable);
      }
    }
  }

  /** The toggle rewrites only the status and the update time of the target
      feedback, and no other feedback, whatever the target's type. */
  lemma ToggleTouchesOnlyStatus(fs: seq<Entry>, id: string, currentStatus: Option<Value>, now: int)
    ensures var r := PatchEntries(fs, id, map["status" := NewStatus(currentStatus)], now);
            forall i :: 0 <= i < |fs| ==>
              (fs[i].id != id ==> r[i] == fs[i]) &&
              (fs[i].id == id ==>
                 Get(r[i].data, "status") == Some(NewStatus(currentStatus)) &&
                 Get(r[i].data, "type") == Get(fs[i].data, "type") &&
                 forall k :: k !in {"status", "updatedAt"} ==> Get(r[i].data, k) == Get(fs[i].data, k))
  {
  }
}
