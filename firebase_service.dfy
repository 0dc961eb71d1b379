/** The data-access service: the `companies`, `users` and `feedbacks`
    collections of the document store, held in memory, and the operations
    the application calls on them. Document ids are chosen fresh by the
    store; the server timestamp is the `now` parameter; account creation in
    the identity provider is the `Identity` function parameter, which may
    fail with an error code; `reachable` says whether a listing query
    reached the store. */
module FirebaseService {
  import opened Wrappers
  import opened Js
  import opened Seqs
  import opened Roles
  import Sorting

  /** A stored document: its id and its fields. */
  datatype Entry = Entry(id: string, data: Doc)

  /** `createUserWithEmailAndPassword(auth, email, password)`: the new
      account's uid, or the provider's error code. */
  type Identity = (Option<Value>, Value) -> Result<string, string>

  /** What `createTeamMember` returns. */
  datatype Created = Created(id: string, uid: string, name: Option<Value>, email: Option<Value>,
                             password: Value, isGenerated: bool)

  /** What `signUp` returns: the new account and the new company's id. */
  datatype SignedUp = SignedUp(uid: string, companyId: string)

  /** The characters `generatePassword` draws from. */
  const Charset: string := "abcdefghijklmnopqrstuvwxyzABCDEFGHIJKLMNOPQRSTUVWXYZ0123456789!@#$%"

  /** The default length of a generated password. */
  const GeneratedLength: nat := 8

  function Ids(es: seq<Entry>): set<string>
  {
    set e | e in es :: e.id
  }

  /** No two documents of a collection share an id. */
  predicate UniqueIds(es: seq<Entry>)
  {
    forall i, j :: 0 <= i < j < |es| ==> es[i].id != es[j].id
  }

  /** A string longer than every id in use, so not one of them. */
  function LongerId(es: seq<Entry>): (id: string)
    ensures id !in Ids(es)
    ensures forall e :: e in es ==> |e.id| < |id|
  {
    if es == [] then "x"
    else
      var rest := LongerId(es[1..]);
      if |es[0].id| < |rest| then rest else es[0].id + "x"
  }

  /** `{ id: doc.id, ...doc.data() }`: a listed document; a stored `id`
      field wins over the document id. */
  function Listed(e: Entry): Doc
  {
    Merge(map["id" := Str(e.id)], e.data)
  }

  /** Listing order: `createdAt.seconds`, or 0 when there is none. */
  function StoreKey(d: Doc): int
  {
    var c := Get(d, "createdAt");
    if c.Some? && c.value.Stamp? then c.value.seconds else 0
  }

  /** `getTeamMembers`' query, whose `where` value is `key`: a team member's
      own record by `uid`, with no company check; for every other role the
      records of the company. */
  predicate MemberVisible(e: Entry, key: Value, role: Role)
  {
    if role == TeamMember then Get(e.data, "uid") == Some(key)
    else Get(e.data, "companyId") == Some(key)
  }

  /** `getFeedbacks`' query: a team member's own feedback by `memberUid`;
      for every other role the feedback of the company. */
  predicate FeedbackVisible(e: Entry, key: Value, role: Role)
  {
    if role == TeamMember then Get(e.data, "memberUid") == Some(key)
    else Get(e.data, "companyId") == Some(key)
  }

  /** The query's `where` value: the uid for a team member, else the company id. */
  function QueryValue(companyId: Option<Value>, uid: Option<Value>, role: Role): Option<Value>
  {
    if role == TeamMember then uid else companyId
  }

  /** The documents a query selects, as listed. */
  function Selection(es: seq<Entry>, visible: Entry -> bool): seq<Doc>
  {
    var sel := Filter(es, visible);
    seq(|sel|, i requires 0 <= i < |sel| => Listed(sel[i]))
  }

  /** A query lists exactly the documents it selects, each once per stored copy. */
  lemma SelectionMembers(es: seq<Entry>, visible: Entry -> bool)
    ensures |Selection(es, visible)| == Count(es, visible)
    ensures forall e :: e in es && visible(e) ==> Listed(e) in Selection(es, visible)
    ensures forall d :: d in Selection(es, visible) ==> exists e :: e in es && visible(e) && d == Listed(e)
  {
    var sel := Filter(es, visible);
    var r := Selection(es, visible);
    forall e | e in es && visible(e)
      ensures Listed(e) in r
    {
      var k :| 0 <= k < |sel| && sel[k] == e;
      assert r[k] == Listed(e);
    }
    forall d | d in r
      ensures exists e :: e in es && visible(e) && d == Listed(e)
    {
      var k :| 0 <= k < |r| && r[k] == d;
      assert sel[k] in sel;
    }
  }

  /** What `getTeamMembers` lists, before sorting: nothing when the query
      fails (the store is unreachable, or the `where` value is undefined). */
  function MemberListing(users: seq<Entry>, companyId: Option<Value>, uid: Option<Value>, role: Role,
                         reachable: bool): seq<Doc>
  {
    var key := QueryValue(companyId, uid, role);
    if !reachable || key.None? then [] else Selection(users, e => MemberVisible(e, key.value, role))
  }

  /** What `getFeedbacks` lists, before sorting. */
  function FeedbackListing(feedbacks: seq<Entry>, companyId: Option<Value>, uid: Option<Value>, role: Role,
                           reachable: bool): seq<Doc>
  {
    var key := QueryValue(companyId, uid, role);
    if !reachable || key.None? then [] else Selection(feedbacks, e => FeedbackVisible(e, key.value, role))
  }

  /** A team member lists exactly the user records carrying their uid, from
      any company; every other role lists exactly the records of its company. */
  lemma MemberListingSpec(users: seq<Entry>, companyId: Option<Value>, uid: Option<Value>, role: Role)
    ensures role == TeamMember && uid.Some? ==>
              forall e :: e in users && Get(e.data, "uid") == uid ==> Listed(e) in MemberListing(users, companyId, uid, role, true)
    ensures role == TeamMember ==>
              forall d :: d in MemberListing(users, companyId, uid, role, true) ==>
                exists e :: e in users && Get(e.data, "uid") == uid && uid.Some? && d == Listed(e)
    ensures role != TeamMember && companyId.Some? ==>
              forall e :: e in users && Get(e.data, "companyId") == companyId ==> Listed(e) in MemberListing(users, companyId, uid, role, true)
    ensures role != TeamMember ==>
              forall d :: d in MemberListing(users, companyId, uid, role, true) ==>
                exists e :: e in users && Get(e.data, "companyId") == companyId && companyId.Some? && d == Listed(e)
  {
    var key := QueryValue(companyId, uid, role);
    if key.Some? {
      SelectionMembers(users, e => MemberVisible(e, key.value, role));
    }
  }

  /** A team member lists exactly the feedback about their uid; every other
      role lists exactly the feedback of its company. */
  lemma FeedbackListingSpec(feedbacks: seq<Entry>, companyId: Option<Value>, uid: Option<Value>, role: Role)
    ensures role == TeamMember && uid.Some? ==>
              forall e :: e in feedbacks && Get(e.data, "memberUid") == uid ==> Listed(e) in FeedbackListing(feedbacks, companyId, uid, role, true)
    ensures role == TeamMember ==>
              forall d :: d in FeedbackListing(feedbacks, companyId, uid, role, true) ==>
                exists e :: e in feedbacks && Get(e.data, "memberUid") == uid && uid.Some? && d == Listed(e)
    ensures role != TeamMember && companyId.Some? ==>
              forall e :: e in feedbacks && Get(e.data, "companyId") == companyId ==> Listed(e) in FeedbackListing(feedbacks, companyId, uid, role, true)
    ensures role != TeamMember ==>
              forall d :: d in FeedbackListing(feedbacks, companyId, uid, role, true) ==>
                exists e :: e in feedbacks && Get(e.data, "companyId") == companyId && companyId.Some? && d == Listed(e)
  {
    var key := QueryValue(companyId, uid, role);
    if key.Some? {
      SelectionMembers(feedbacks, e => FeedbackVisible(e, key.value, role));
    }
  }

  /** `{ ...data, updatedAt: serverTimestamp() }` merged into `d` by `updateDoc`. */
  function Patch(d: Doc, patch: Doc, now: int): (r: Doc)
    ensures Get(r, "updatedAt") == Some(Stamp(now))
    ensures forall k :: k != "updatedAt" && k in patch ==> Get(r, k) == Some(patch[k])
    ensures forall k :: k != "updatedAt" && k !in patch ==> Get(r, k) == Get(d, k)
  {
    Merge(d, patch)["updatedAt" := Stamp(now)]
  }

  /** The collection after `updateDoc(doc(id), patch)`. */
  function PatchEntries(es: seq<Entry>, id: string, patch: Doc, now: int): (r: seq<Entry>)
    ensures |r| == |es|
    ensures forall i :: 0 <= i < |es| ==> r[i].id == es[i].id
    ensures forall i :: 0 <= i < |es| && es[i].id != id ==> r[i] == es[i]
    ensures forall i :: 0 <= i < |es| && es[i].id == id ==> r[i].data == Patch(es[i].data, patch, now)
  {
    seq(|es|, i requires 0 <= i < |es| => if es[i].id == id then Entry(id, Patch(es[i].data, patch, now)) else es[i])
  }

  /** The user record `createTeamMember` writes. */
  function MemberRecord(memberData: Doc, uid: string, companyId: Option<Value>, now: int): (r: Doc)
    ensures Get(r, "uid") == Some(Str(uid))
    ensures Get(r, "companyId") == companyId
    ensures Get(r, "email") == Get(memberData, "email") && Get(r, "name") == Get(memberData, "name")
    ensures Get(r, "role") == if Truthy(Get(memberData, "role")) then Get(memberData, "role") else Some(Str("team_member"))
    ensures Get(r, "position") == if Truthy(Get(memberData, "position")) then Get(memberData, "position") else Get(memberData, "role")
    ensures Get(r, "experience") == if Truthy(Get(memberData, "experience")) then Get(memberData, "experience") else Some(Str(""))
    ensures Get(r, "skills") == if Truthy(Get(memberData, "skills")) then Get(memberData, "skills") else Some(Str(""))
    ensures Get(r, "mustChangePassword") == Some(Bool(!Truthy(Get(memberData, "password"))))
    ensures Get(r, "createdAt") == Some(Stamp(now)) && Get(r, "updatedAt") == Some(Stamp(now))
    ensures forall k :: k !in MemberFields ==> k !in r
  {
    Object(map[
      "uid" := Some(Str(uid)),
      "email" := Get(memberData, "email"),
      "name" := Get(memberData, "name"),
      "role" := Or(Get(memberData, "role"), Some(Str("team_member"))),
      "companyId" := companyId,
      "position" := Or(Get(memberData, "position"), Get(memberData, "role")),
      "experience" := Or(Get(memberData, "experience"), Some(Str(""))),
      "skills" := Or(Get(memberData, "skills"), Some(Str(""))),
      "mustChangePassword" := Some(Bool(!Truthy(Get(memberData, "password")))),
      "createdAt" := Some(Stamp(now)),
      "updatedAt" := Some(Stamp(now))])
  }

  /** The fields of a user record written by `createTeamMember`. */
  const MemberFields: set<string> := {"uid", "email", "name", "role", "companyId", "position", "experience",
                                      "skills", "mustChangePassword", "createdAt", "updatedAt"}

  /** The company record `signUp` writes. */
  function CompanyRecord(userData: Doc, now: int): Doc
  {
    Object(map["name" := Get(userData, "companyName"), "createdAt" := Some(Stamp(now)), "updatedAt" := Some(Stamp(now))])
  }

  /** The administrator record `signUp` writes. */
  function AdminRecord(uid: string, email: string, userData: Doc, companyId: string, now: int): Doc
  {
    Object(AdminFields(uid, email, userData, companyId, now))
  }

  /** The first user of a company is its administrator: role `admin`,
      position `Administrator`, that company and the new account, empty
      experience and skills, and no forced password change. */
  lemma AdminRecordSpec(uid: string, email: string, userData: Doc, companyId: string, now: int)
    ensures var r := AdminRecord(uid, email, userData, companyId, now);
            Is(Get(r, "role"), "admin") && Is(Get(r, "position"), "Administrator") &&
            Get(r, "companyId") == Some(Str(companyId)) && Get(r, "uid") == Some(Str(uid)) &&
            Get(r, "email") == Some(Str(email)) && Get(r, "name") == Get(userData, "name") &&
            Is(Get(r, "experience"), "") && Is(Get(r, "skills"), "") &&
            "mustChangePassword" !in r
  {
    var fields := AdminFields(uid, email, userData, companyId, now);
    assert fields["role"] == Some(Str("admin"));
    assert fields["position"] == Some(Str("Administrator"));
    assert fields["companyId"] == Some(Str(companyId));
    assert fields["uid"] == Some(Str(uid));
    assert fields["email"] == Some(Str(email));
    assert fields["name"] == Get(userData, "name");
    assert fields["experience"] == Some(Str(""));
    assert fields["skills"] == Some(Str(""));
    assert "mustChangePassword" !in fields;
  }

  /** The fields of the administrator record, before `undefined` ones are dropped. */
  function AdminFields(uid: string, email: string, userData: Doc, companyId: string, now: int): map<string, Option<Value>>
  {
    map[
      "uid" := Some(Str(uid)),
      "email" := Some(Str(email)),
      "name" := Get(userData, "name"),
      "role" := Some(Str("admin")),
      "companyId" := Some(Str(companyId)),
      "position" := Some(Str("Administrator")),
      "experience" := Some(Str("")),
      "skills" := Some(Str("")),
      "createdAt" := Some(Stamp(now)),
      "updatedAt" := Some(Stamp(now))]
  }

  /** The feedback record `addFeedback` writes: the submitted fields, the
      caller's company id over any `companyId` in them, and the timestamps. */
  function FeedbackRecord(feedbackData: Doc, companyId: Option<Value>, now: int): (r: Doc)
    ensures Get(r, "companyId") == companyId
    ensures Get(r, "createdAt") == Some(Stamp(now)) && Get(r, "updatedAt") == Some(Stamp(now))
    ensures forall k :: k !in {"companyId", "createdAt", "updatedAt"} ==> Get(r, k) == Get(feedbackData, k)
  {
    Assign(feedbackData, "companyId", companyId)["createdAt" := Stamp(now)]["updatedAt" := Stamp(now)]
  }

  /** Whether a feedback record belongs to the deleted member: the batch's query. */
  predicate Cascaded(e: Entry, memberUid: Value, companyId: Value)
  {
    Get(e.data, "memberUid") == Some(memberUid) && Get(e.data, "companyId") == Some(companyId)
  }

  /** Keeping documents preserves distinct ids. */
  lemma {:induction false} FilterKeepsUnique(es: seq<Entry>, p: Entry -> bool)
    requires UniqueIds(es)
    ensures UniqueIds(Filter(es, p))
  {
    if es != [] {
      FilterKeepsUnique(es[1..], p);
      var rest := Filter(es[1..], p);
      forall e | e in rest
        ensures e.id != es[0].id
      {
        var k :| 0 <= k < |es[1..]| && es[1..][k] == e;
        assert es[k + 1] == e;
      }
    }
  }

  /** Removing one document preserves distinct ids. */
  lemma RemoveKeepsUnique(es: seq<Entry>, i: int)
    requires UniqueIds(es) && 0 <= i < |es|
    ensures UniqueIds(es[..i] + es[i + 1..])
  {
    var r := es[..i] + es[i + 1..];
    forall p, q | 0 <= p < q < |r|
      ensures r[p].id != r[q].id
    {
      var p' := if p < i then p else p + 1;
      var q' := if q < i then q else q + 1;
      assert r[p] == es[p'] && r[q] == es[q'];
    }
  }

  /** The position of the document with id `id`, if any. */
  function IndexOf(es: seq<Entry>, id: string): (r: Option<nat>)
    ensures r.None? <==> id !in Ids(es)
    ensures r.Some? ==> r.value < |es| && es[r.value].id == id
  {
    if es == [] then None
    else if es[0].id == id then Some(0)
    else match IndexOf(es[1..], id)
      case None => None
      case Some(k) => Some(k + 1)
  }

  class Store {
    var companies: seq<Entry>
    var users: seq<Entry>
    var feedbacks: seq<Entry>

    ghost predicate Valid()
      reads this
    {
      UniqueIds(companies) && UniqueIds(users) && UniqueIds(feedbacks)
    }

    constructor ()
      ensures Valid() && companies == [] && users == [] && feedbacks == []
    {
      companies, users, feedbacks := [], [], [];
    }

    /** `signUp`: the account, then one company, then one administrator
        record bound to that company. `companyWrite` and `userWrite` are the
        outcomes of the two document writes; a refused user write leaves the
        new company without its administrator. */
    method SignUp(email: string, password: string, userData: Doc, identity: Identity,
                  companyWrite: Result<(), string>, userWrite: Result<(), string>, now: int)
      returns (r: Result<SignedUp, string>)
      requires Valid()
      modifies this
      ensures Valid() && feedbacks == old(feedbacks)
      ensures identity(Some(Str(email)), Str(password)).Err? ==>
                r == Err(identity(Some(Str(email)), Str(password)).error) &&
                companies == old(companies) && users == old(users)
      ensures identity(Some(Str(email)), Str(password)).Ok? && companyWrite.Err? ==>
                r == Err(companyWrite.error) && companies == old(companies) && users == old(users)
      ensures identity(Some(Str(email)), Str(password)).Ok? && companyWrite.Ok? ==>
                |companies| == |old(companies)| + 1 && companies[..|old(companies)|] == old(companies) &&
                companies[|old(companies)|].id !in Ids(old(companies)) &&
                companies[|old(companies)|].data == CompanyRecord(userData, now)
      ensures identity(Some(Str(email)), Str(password)).Ok? && companyWrite.Ok? && userWrite.Err? ==>
                r == Err(userWrite.error) && users == old(users)
      ensures identity(Some(Str(email)), Str(password)).Ok? && companyWrite.Ok? && userWrite.Ok? ==>
                r.Ok? && r.value.uid == identity(Some(Str(email)), Str(password)).value &&
                r.value.companyId == companies[|old(companies)|].id &&
                |users| == |old(users)| + 1 && users[..|old(users)|] == old(users) &&
                users[|old(users)|].id !in Ids(old(users)) &&
                users[|old(users)|].data == AdminRecord(r.value.uid, email, userData, r.value.companyId, now)
    {
      match identity(Some(Str(email)), Str(password))
      case Err(code) =>
        r := Err(code);
      case Ok(uid) =>
        if companyWrite.Err? {
          return Err(companyWrite.error);
        }
        assert LongerId(companies) !in Ids(companies);
        var companyId: string :| companyId !in Ids(companies);
        companies := companies + [Entry(companyId, CompanyRecord(userData, now))];
        if userWrite.Err? {
          return Err(userWrite.error);
        }
        assert LongerId(users) !in Ids(users);
        var userId: string :| userId !in Ids(users);
        users := users + [Entry(userId, AdminRecord(uid, email, userData, companyId, now))];
        r := Ok(SignedUp(uid, companyId));
    }

    /** `generatePassword(length)`: each character is a random pick from `Charset`. */
    method GeneratePassword(length: nat) returns (password: string)
      ensures |password| == length
      ensures forall i :: 0 <= i < |password| ==> password[i] in Charset
    {
      password := "";
      var i := 0;
      while i < length
        invariant i <= length && |password| == i
        invariant forall j :: 0 <= j < i ==> password[j] in Charset
      {
        var k :| 0 <= k < |Charset|;
        password := password + [Charset[k]];
        i := i + 1;
      }
    }

    /** `createTeamMember`: the supplied password, or a generated one, opens
        the account; then the user record is written with its defaults. */
    method CreateTeamMember(memberData: Doc, companyId: Option<Value>, identity: Identity, now: int)
      returns (r: Result<Created, string>)
      requires Valid()
      modifies this
      ensures Valid() && companies == old(companies) && feedbacks == old(feedbacks)
      ensures r.Err? ==> users == old(users)
      ensures r.Ok? ==>
                r.value.id !in Ids(old(users)) &&
                users == old(users) + [Entry(r.value.id, MemberRecord(memberData, r.value.uid, companyId, now))] &&
                identity(Get(memberData, "email"), r.value.password) == Ok(r.value.uid) &&
                r.value.name == Get(memberData, "name") && r.value.email == Get(memberData, "email") &&
                Truthy(Some(r.value.password)) &&
                (r.value.isGenerated <==> !Truthy(Get(memberData, "password")))
      ensures Truthy(Get(memberData, "password")) ==>
                identity(Get(memberData, "email"), Get(memberData, "password").value).Err? == r.Err? &&
                (r.Ok? ==> r.value.password == Get(memberData, "password").value && !r.value.isGenerated)
      ensures !Truthy(Get(memberData, "password")) && r.Ok? ==>
                r.value.isGenerated && r.value.password.Str? &&
                |r.value.password.s| == GeneratedLength &&
                forall i :: 0 <= i < |r.value.password.s| ==> r.value.password.s[i] in Charset
    {
      var supplied := Get(memberData, "password");
      var password: Value;
      if Truthy(supplied) {
        password := supplied.value;
      } else {
        var generated := GeneratePassword(GeneratedLength);
        password := Str(generated);
      }
      match identity(Get(memberData, "email"), password)
      case Err(code) =>
        r := Err(code);
      case Ok(uid) =>
        assert LongerId(users) !in Ids(users);
        var id: string :| id !in Ids(users);
        users := users + [Entry(id, MemberRecord(memberData, uid, companyId, now))];
        r := Ok(Created(id, uid, Get(memberData, "name"), Get(memberData, "email"), password, !Truthy(supplied)));
    }

    /** Runs a listing query and sorts its result newest first. */
    method ListNewestFirst(es: seq<Entry>, visible: Entry -> bool) returns (docs: seq<Doc>)
      ensures multiset(docs) == multiset(Selection(es, visible))
      ensures Sorting.NewestFirst(docs, StoreKey)
    {
      var selected := Selection(es, visible);
      var a := new Doc[|selected|](i requires 0 <= i < |selected| => selected[i]);
      assert a[..] == selected;
      Sorting.SortNewestFirst(a, StoreKey);
      docs := a[..];
    }

    /** `getTeamMembers(companyId, currentUserUid, userRole)`: the listing,
        newest first. A failed query is caught and lists nothing. */
    method GetTeamMembers(companyId: Option<Value>, uid: Option<Value>, role: Role, reachable: bool)
      returns (members: seq<Doc>)
      ensures multiset(members) == multiset(MemberListing(users, companyId, uid, role, reachable))
      ensures Sorting.NewestFirst(members, StoreKey)
      ensures !reachable || QueryValue(companyId, uid, role).None? ==> members == []
    {
      var key := QueryValue(companyId, uid, role);
      if !reachable || key.None? {
        return [];
      }
      members := ListNewestFirst(users, e => MemberVisible(e, key.value, role));
    }

    /** `getFeedbacks(companyId, currentUserUid, userRole)`, in the same way. */
    method GetFeedbacks(companyId: Option<Value>, uid: Option<Value>, role: Role, reachable: bool)
      returns (list: seq<Doc>)
      ensures multiset(list) == multiset(FeedbackListing(feedbacks, companyId, uid, role, reachable))
      ensures Sorting.NewestFirst(list, StoreKey)
      ensures !reachable || QueryValue(companyId, uid, role).None? ==> list == []
    {
      var key := QueryValue(companyId, uid, role);
      if !reachable || key.None? {
        return [];
      }
      list := ListNewestFirst(feedbacks, e => FeedbackVisible(e, key.value, role));
    }

    /** `getCompanyInfo(companyId)`: the listed company record, or `null`
        when the id is not a stored company's (a failed read is caught). */
    function CompanyInfo(companyId: Option<Value>): (r: Option<Doc>)
      reads this
      ensures r.Some? <==> companyId.Some? && companyId.value.Str? && companyId.value.s in Ids(companies)
      ensures r.Some? ==> exists e :: e in companies && e.id == companyId.value.s && r.value == Listed(e)
    {
      if companyId.Some? && companyId.value.Str? then
        match IndexOf(companies, companyId.value.s)
        case None => None
        case Some(i) => Some(Listed(companies[i]))
      else None
    }

    /** `updateTeamMember(id, memberData)`: merges the fields into the record;
        a missing document is the store's "not-found" error. */
    method UpdateTeamMember(id: string, memberData: Doc, now: int) returns (r: Result<(), string>)
      requires Valid()
      modifies this
      ensures Valid() && companies == old(companies) && feedbacks == old(feedbacks)
      ensures r.Err? <==> id !in Ids(old(users))
      ensures r.Err? ==> users == old(users)
      ensures r.Ok? ==> users == PatchEntries(old(users), id, memberData, now)
    {
      if id !in Ids(users) {
        return Err("not-found");
      }
      users := PatchEntries(users, id, memberData, now);
      r := Ok(());
    }

    /** `deleteTeamMember(id, companyId)`: reads the record, deletes it, then
        deletes in one batch the company's feedback about its uid. An
        undefined uid or company id makes the feedback query fail after the
        record is gone, as does a failed query (`queryOk` false) and a failed
        batch (`batchOk` false) when there is feedback to delete. */
    method DeleteTeamMember(id: string, companyId: Option<Value>, queryOk: bool, batchOk: bool)
      returns (r: Result<(), string>)
      requires Valid()
      modifies this
      ensures Valid() && companies == old(companies)
      ensures id !in Ids(old(users)) ==>
                r == Err("Team member not found") && users == old(users) && feedbacks == old(feedbacks)
      ensures id in Ids(old(users)) ==>
                var i := IndexOf(old(users), id).value;
                var memberUid := Get(old(users)[i].data, "uid");
                users == old(users)[..i] + old(users)[i + 1..] &&
                (r.Ok? <==> memberUid.Some? && companyId.Some? && queryOk &&
                            (batchOk || Count(old(feedbacks), e => Cascaded(e, memberUid.value, companyId.value)) == 0)) &&
                (r.Ok? ==> feedbacks == Filter(old(feedbacks), e => !Cascaded(e, memberUid.value, companyId.value))) &&
                (r.Err? ==> feedbacks == old(feedbacks))
    {
      var found := IndexOf(users, id);
      if found.None? {
        return Err("Team member not found");
      }
      var i := found.value;
      var memberUid := Get(users[i].data, "uid");
      RemoveKeepsUnique(users, i);
      users := users[..i] + users[i + 1..];
      if memberUid.None? || companyId.None? {
        return Err("Unsupported field value: undefined");
      }
      if !queryOk {
        return Err("query failed");
      }
      if !batchOk && Count(feedbacks, e => Cascaded(e, memberUid.value, companyId.value)) > 0 {
        return Err("batch failed");
      }
      FilterKeepsUnique(feedbacks, e => !Cascaded(e, memberUid.value, companyId.value));
      feedbacks := Filter(feedbacks, e => !Cascaded(e, memberUid.value, companyId.value));
      r := Ok(());
    }

    /** `addFeedback(feedbackData, companyId)`: stores the record under a new
        id and returns that id with `{ id, ...feedbackData }`, in which a
        submitted `id` field wins. */
    method AddFeedback(feedbackData: Doc, companyId: Option<Value>, now: int) returns (id: string, saved: Doc)
      requires Valid()
      modifies this
      ensures Valid() && companies == old(companies) && users == old(users)
      ensures id !in Ids(old(feedbacks))
      ensures feedbacks == old(feedbacks) + [Entry(id, FeedbackRecord(feedbackData, companyId, now))]
      ensures saved == Merge(map["id" := Str(id)], feedbackData)
    {
      assert LongerId(feedbacks) !in Ids(feedbacks);
      id :| id !in Ids(feedbacks);
      feedbacks := feedbacks + [Entry(id, FeedbackRecord(feedbackData, companyId, now))];
      saved := Merge(map["id" := Str(id)], feedbackData);
    }

    /** `updateFeedback(id, feedbackData)`: merges the fields into the record. */
    method UpdateFeedback(id: string, feedbackData: Doc, now: int) returns (r: Result<(), string>)
      requires Valid()
      modifies this
      ensures Valid() && companies == old(companies) && users == old(users)
      ensures r.Err? <==> id !in Ids(old(feedbacks))
      ensures r.Err? ==> feedbacks == old(feedbacks)
      ensures r.Ok? ==> feedbacks == PatchEntries(old(feedbacks), id, feedbackData, now)
    {
      if id !in Ids(feedbacks) {
        return Err("not-found");
      }
      feedbacks := PatchEntries(feedbacks, id, feedbackData, now);
      r := Ok(());
    }
  }
}
