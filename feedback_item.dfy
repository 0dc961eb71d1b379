/** A feedback item: the name it shows, whether it offers the status
    toggle, what the toggle passes on and the toggle's label. */
module FeedbackItem {
  import opened Wrappers
  import opened Js
  import opened Roles
  import opened FirebaseService
  import App

  /** `feedback.memberName || member?.name || 'Unknown Member'` */
  function MemberName(feedback: Doc, member: Option<Doc>): (r: Value)
    ensures Truthy(Get(feedback, "memberName")) ==> r == feedback["memberName"]
    ensures !Truthy(Get(feedback, "memberName")) && member.Some? && Truthy(Get(member.value, "name")) ==>
              r == member.value["name"]
    ensures !Truthy(Get(feedback, "memberName")) && (member.None? || !Truthy(Get(member.value, "name"))) ==>
              r == Str("Unknown Member")
  {
    Or(Get(feedback, "memberName"), Or(if member.Some? then Get(member.value, "name") else None, Some(Str("Unknown Member")))).value
  }

  /** The toggle button is shown for an improvement item, when a toggle
      callback was given, to an admin or a reviewer. */
  predicate ShowsToggle(feedback: Doc, hasToggle: bool, userRole: Option<Value>)
  {
    Is(Get(feedback, "type"), "improvement") && hasToggle && IsManager(RoleOf(userRole))
  }

  /** Only improvement items offer the toggle, and only to admins and reviewers. */
  lemma ShowsToggleSpec(feedback: Doc, hasToggle: bool, userRole: Option<Value>)
    ensures ShowsToggle(feedback, hasToggle, userRole) <==>
              Is(Get(feedback, "type"), "improvement") && hasToggle && (Is(userRole, "admin") || Is(userRole, "reviewer"))
  {
  }

  /** What a click passes to the toggle callback: the item's own id and
      current status. */
  function ToggleArguments(feedback: Doc): (Option<Value>, Option<Value>)
  {
    (Get(feedback, "id"), Get(feedback, "status"))
  }

  /** Clicking the toggle of a listed feedback flips that record's own
      status: the id passed is its document id (unless its fields carry an
      `id` of their own) and the status passed is its stored status. */
  lemma ToggleTargetsOwnRecord(e: Entry, fs: seq<Entry>, now: int)
    requires "id" !in e.data && e in fs && UniqueIds(fs)
    ensures var args := ToggleArguments(Listed(e));
            App.DocId(args.0) == Some(e.id) && args.1 == Get(e.data, "status") &&
            forall i :: 0 <= i < |fs| && fs[i] == e ==>
              Get(PatchEntries(fs, e.id, map["status" := App.NewStatus(args.1)], now)[i].data, "status") ==
                Some(if Is(Get(e.data, "status"), "open") then Str("closed") else Str("open"))
  {
  }

  /** The toggle button's label. */
  function ToggleLabel(feedback: Doc): (r: string)
    ensures r == "Mark as Resolved" <==> Is(Get(feedback, "status"), "open")
    ensures r == "Reopen Item" <==> !Is(Get(feedback, "status"), "open")
  {
    if Is(Get(feedback, "status"), "open") then "Mark as Resolved" else "Reopen Item"
  }

  /** `formatDate(feedback.createdAt)` */
  function CreatedLabel(feedback: Doc, locale: Option<int> -> string, parse: string -> Option<int>): (r: string)
    ensures !Truthy(Get(feedback, "createdAt")) ==> r == "Unknown date"
  {
    DateLabel(Get(feedback, "createdAt"), "Unknown date", locale, parse)
  }
}
