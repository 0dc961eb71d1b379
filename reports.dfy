/** The reports tab: the filter pipeline over the loaded feedback, the
    summary counts, the member drop-down and the CSV export. The clock is the
    `Clock` parameter; locale date formatting and date parsing are function
    parameters. */
module Reports {
  import opened Wrappers
  import opened Js
  import opened Seqs
  import opened Text
  import opened Tallies

  /** The filter selections; an empty string is "any". */
  datatype Filters = Filters(memberUid: string, feedbackType: string, status: string, dateRange: string)

  /** The report's initial selections. */
  const InitialFilters := Filters("", "", "", "all")

  /** The current time and the same local time seven calendar days, one
      calendar month and three calendar months back, in milliseconds;
      `setDate`, `setMonth`, time zones and daylight saving are the
      platform's. */
  datatype Clock = Clock(now: int, weekAgo: int, monthAgo: int, quarterAgo: int)

  /** `filterDate`: the calendar week, month or quarter back, and the
      current time for any other range. */
  function Cutoff(range: string, clock: Clock): int
  {
    if range == "week" then clock.weekAgo
    else if range == "month" then clock.monthAgo
    else if range == "quarter" then clock.quarterAgo
    else clock.now
  }

  /** `feedbackDate >= filterDate`; an invalid date compares false. */
  predicate CreatedSince(f: Doc, cutoff: int, parse: string -> Option<int>)
  {
    CreatedMs(f, parse).Some? && CreatedMs(f, parse).value >= cutoff
  }

  predicate MemberStage(f: Doc, flt: Filters)
  {
    flt.memberUid == "" || Get(f, "memberUid") == Some(Str(flt.memberUid))
  }

  predicate TypeStage(f: Doc, flt: Filters)
  {
    flt.feedbackType == "" || Get(f, "type") == Some(Str(flt.feedbackType))
  }

  predicate StatusStage(f: Doc, flt: Filters)
  {
    flt.status == "" || Get(f, "status") == Some(Str(flt.status))
  }

  predicate DateStage(f: Doc, flt: Filters, clock: Clock, parse: string -> Option<int>)
  {
    flt.dateRange == "all" || CreatedSince(f, Cutoff(flt.dateRange, clock), parse)
  }

  /** An item satisfies every filter that is set. */
  predicate Matches(f: Doc, flt: Filters, clock: Clock, parse: string -> Option<int>)
  {
    MemberStage(f, flt) && TypeStage(f, flt) && StatusStage(f, flt) && DateStage(f, flt, clock, parse)
  }

  /** `getFilteredFeedbacks()`: each set filter narrows the previous result. */
  function FilteredFeedbacks(fs: seq<Doc>, flt: Filters, clock: Clock, parse: string -> Option<int>): seq<Doc>
  {
    var byMember := if flt.memberUid != "" then Filter(fs, f => Get(f, "memberUid") == Some(Str(flt.memberUid))) else fs;
    var byType := if flt.feedbackType != "" then Filter(byMember, f => Get(f, "type") == Some(Str(flt.feedbackType))) else byMember;
    var byStatus := if flt.status != "" then Filter(byType, f => Get(f, "status") == Some(Str(flt.status))) else byType;
    if flt.dateRange != "all" then Filter(byStatus, f => CreatedSince(f, Cutoff(flt.dateRange, clock), parse)) else byStatus
  }

  /** Applies one stage to the result of the stages before it. */
  lemma {:induction false} Stage(fs: seq<Doc>, prev: Doc -> bool, set_: bool, p: Doc -> bool, next: Doc -> bool)
    requires forall x :: next(x) == (prev(x) && (!set_ || p(x)))
    ensures (if set_ then Filter(Filter(fs, prev), p) else Filter(fs, prev)) == Filter(fs, next)
  {
    if set_ {
      FilterFilter(fs, prev, p, next);
    } else {
      FilterExt(fs, prev, next);
    }
  }

  /** The pipeline is one filter by the conjunction of the set filters. */
  lemma {:induction false} PipelineIsOneFilter(fs: seq<Doc>, flt: Filters, clock: Clock, parse: string -> Option<int>)
    ensures FilteredFeedbacks(fs, flt, clock, parse) == Filter(fs, f => Matches(f, flt, clock, parse))
  {
    var all: Doc -> bool := f => true;
    var m1: Doc -> bool := f => MemberStage(f, flt);
    var m2: Doc -> bool := f => MemberStage(f, flt) && TypeStage(f, flt);
    var m3: Doc -> bool := f => MemberStage(f, flt) && TypeStage(f, flt) && StatusStage(f, flt);
    var m4: Doc -> bool := f => Matches(f, flt, clock, parse);
    FilterAll(fs, all);
    Stage(fs, all, flt.memberUid != "", f => Get(f, "memberUid") == Some(Str(flt.memberUid)), m1);
    Stage(fs, m1, flt.feedbackType != "", f => Get(f, "type") == Some(Str(flt.feedbackType)), m2);
    Stage(fs, m2, flt.status != "", f => Get(f, "status") == Some(Str(flt.status)), m3);
    Stage(fs, m3, flt.dateRange != "all", f => CreatedSince(f, Cutoff(flt.dateRange, clock), parse), m4);
  }

  /** The report keeps exactly the items satisfying every set filter, in
      their original order, and filtering the report again changes nothing. */
  lemma FilteredSpec(fs: seq<Doc>, flt: Filters, clock: Clock, parse: string -> Option<int>)
    ensures forall f :: f in FilteredFeedbacks(fs, flt, clock, parse) <==> f in fs && Matches(f, flt, clock, parse)
    ensures forall f :: multiset(FilteredFeedbacks(fs, flt, clock, parse))[f] ==
              if Matches(f, flt, clock, parse) then multiset(fs)[f] else 0
    ensures IsSubseq(FilteredFeedbacks(fs, flt, clock, parse), fs)
    ensures FilteredFeedbacks(FilteredFeedbacks(fs, flt, clock, parse), flt, clock, parse) == FilteredFeedbacks(fs, flt, clock, parse)
  {
    var p: Doc -> bool := f => Matches(f, flt, clock, parse);
    PipelineIsOneFilter(fs, flt, clock, parse);
    PipelineIsOneFilter(Filter(fs, p), flt, clock, parse);
    FilterIsSubseq(fs, p);
    FilterMultiset(fs, p);
    FilterIdempotent(fs, p);
  }

  /** With the initial selections the report holds all the feedback. */
  lemma InitialFiltersKeepAll(fs: seq<Doc>, clock: Clock, parse: string -> Option<int>)
    ensures FilteredFeedbacks(fs, InitialFilters, clock, parse) == fs
  {
  }

  /** The date filter keeps an item exactly when it was created at or after
      the cutoff; `all` applies no date filter. */
  lemma DateFilterSpec(fs: seq<Doc>, range: string, clock: Clock, parse: string -> Option<int>)
    ensures range == "all" ==> FilteredFeedbacks(fs, Filters("", "", "", range), clock, parse) == fs
    ensures range != "all" ==>
              forall f :: f in FilteredFeedbacks(fs, Filters("", "", "", range), clock, parse) <==>
                f in fs && CreatedMs(f, parse).Some? && CreatedMs(f, parse).value >= Cutoff(range, clock)
  {
    FilteredSpec(fs, Filters("", "", "", range), clock, parse);
  }

  /** The summary counts of the report. */
  function Summary(filtered: seq<Doc>): (t: Tally)
    ensures t.total == |filtered| && t.positive + t.improvement <= t.total && t.open <= t.total
    ensures t.positive == |Filter(filtered, IsPositive)| && t.improvement == |Filter(filtered, IsImprovement)|
    ensures t.open == |Filter(filtered, IsOpen)|
  {
    TallyOf(filtered)
  }

  /** The member drop-down: every loaded member except the admins, in order. */
  function AvailableMembers(teamMembers: seq<Doc>): (r: seq<Doc>)
    ensures forall m :: m in r <==> m in teamMembers && !Is(Get(m, "role"), "admin")
    ensures forall m :: multiset(r)[m] == if Is(Get(m, "role"), "admin") then 0 else multiset(teamMembers)[m]
    ensures IsSubseq(r, teamMembers)
  {
    NonAdmins(teamMembers)
  }

  /** The CSV column names. */
  const Columns: seq<string> := ["Member Name", "Role", "Position", "Project", "Feedback Type", "Status",
                                 "Reviewer", "Description", "Action Items", "Date"]

  /** The CSV header line. */
  const Header := Join(Columns, ",")

  /** `s.replace(/"/g, '""')` */
  function DoubleQuotes(s: string): (r: string)
    ensures |r| >= |s|
  {
    if s == [] then []
    else if s[0] == '"' then "\"\"" + DoubleQuotes(s[1..])
    else [s[0]] + DoubleQuotes(s[1..])
  }

  /** A quoted field of section 2 of RFC 4180: the text in double quotes,
      each inner quote doubled. */
  function Quote(s: string): (r: string)
    ensures |r| >= 2 && r[0] == '"' && r[|r| - 1] == '"'
  {
    "\"" + DoubleQuotes(s) + "\""
  }

  /** Reading a quoted field's inside: a doubled quote is one quote. */
  function Undouble(t: string): string
  {
    if t == [] then []
    else if |t| >= 2 && t[0] == '"' && t[1] == '"' then "\"" + Undouble(t[2..])
    else [t[0]] + Undouble(t[1..])
  }

  /** Stripping the outer quotes of a field and undoubling its inner quotes. */
  function Unquote(r: string): string
  {
    if |r| >= 2 then Undouble(r[1..|r| - 1]) else r
  }

  lemma {:induction false} UndoubleDouble(s: string)
    ensures Undouble(DoubleQuotes(s)) == s
  {
    if s != [] {
      UndoubleDouble(s[1..]);
      if s[0] == '"' {
        assert ("\"\"" + DoubleQuotes(s[1..]))[2..] == DoubleQuotes(s[1..]);
      } else {
        var t := [s[0]] + DoubleQuotes(s[1..]);
        assert t[1..] == DoubleQuotes(s[1..]);
      }
      assert [s[0]] + s[1..] == s;
    }
  }

  /** A quoted field reads back as the original text. */
  lemma QuoteRoundTrip(s: string)
    ensures Unquote(Quote(s)) == s
  {
    UndoubleDouble(s);
    assert Quote(s)[1..|Quote(s)| - 1] == DoubleQuotes(s);
  }

  /** The date column: the locale date of `seconds`, of a date string, or
      `Unknown`. */
  function CsvDate(createdAt: Option<Value>, locale: Option<int> -> string, parse: string -> Option<int>): (r: string)
    ensures createdAt.Some? && createdAt.value.Stamp? && createdAt.value.seconds != 0 ==>
              r == locale(Some(createdAt.value.seconds * 1000))
    ensures createdAt.Some? && createdAt.value.Str? ==> r == locale(parse(createdAt.value.s))
    ensures (createdAt.None? || createdAt.value.Null? || createdAt.value.Bool? ||
             (createdAt.value.Stamp? && createdAt.value.seconds == 0)) ==> r == "Unknown"
  {
    if createdAt.Some? && createdAt.value.Stamp? && createdAt.value.seconds != 0 then locale(Some(createdAt.value.seconds * 1000))
    else if createdAt.Some? && createdAt.value.Str? then locale(parse(createdAt.value.s))
    else "Unknown"
  }

  /** The ten cells of a feedback's line. `description.replace` fails on a
      description that is not a string, and so does a truthy action-items
      value that is not one. */
  function CsvCells(f: Doc, teamMembers: seq<Doc>, locale: Option<int> -> string, parse: string -> Option<int>)
    : (r: Result<seq<string>, string>)
    ensures r.Ok? <==> StrOf(Get(f, "description")).Some? && StrOf(Or(Get(f, "actionItems"), Some(Str("")))).Some?
    ensures r.Err? ==> r.error == ReplaceError
    ensures r.Ok? ==> |r.value| == 10
  {
    var description := StrOf(Get(f, "description"));
    var actionItems := StrOf(Or(Get(f, "actionItems"), Some(Str(""))));
    if description.None? || actionItems.None? then Err(ReplaceError)
    else
      var member := CsvMember(f, teamMembers);
      Ok([JoinText(Or(Get(f, "memberName"), Or(MemberField(member, "name"), Some(Str("Unknown"))))),
          JoinText(Or(MemberField(member, "role"), Some(Str("Unknown")))),
          JoinText(Or(MemberField(member, "position"), Some(Str("Unknown")))),
          JoinText(Get(f, "project")),
          JoinText(Get(f, "type")),
          JoinText(Get(f, "status")),
          JoinText(Get(f, "reviewer")),
          Quote(description.value),
          Quote(actionItems.value),
          CsvDate(Get(f, "createdAt"), locale, parse)])
  }

  /** `teamMembers.find(m => m.uid === feedback.memberUid)` */
  function CsvMember(f: Doc, teamMembers: seq<Doc>): Option<Doc>
  {
    Find(teamMembers, m => Get(m, "uid") == Get(f, "memberUid"))
  }

  /** `member?.[k]` */
  function MemberField(member: Option<Doc>, k: string): Option<Value>
  {
    if member.Some? then Get(member.value, k) else None
  }

  /** The description and action-items cells unquote to the feedback's own
      texts, missing action items to the empty text. */
  lemma CsvTextCells(f: Doc, teamMembers: seq<Doc>, locale: Option<int> -> string, parse: string -> Option<int>)
    requires CsvCells(f, teamMembers, locale, parse).Ok?
    ensures var cells := CsvCells(f, teamMembers, locale, parse).value;
            Unquote(cells[7]) == Get(f, "description").value.s &&
            Unquote(cells[8]) == if Truthy(Get(f, "actionItems")) then Get(f, "actionItems").value.s else ""
  {
    QuoteRoundTrip(StrOf(Get(f, "description")).value);
    QuoteRoundTrip(StrOf(Or(Get(f, "actionItems"), Some(Str("")))).value);
  }

  /** The member columns: the stored member name when there is one, and
      `Unknown` for name, role and position when no listed member has the
      feedback's `memberUid`. */
  lemma CsvMemberCells(f: Doc, teamMembers: seq<Doc>, locale: Option<int> -> string, parse: string -> Option<int>)
    requires CsvCells(f, teamMembers, locale, parse).Ok?
    ensures var cells := CsvCells(f, teamMembers, locale, parse).value;
            (Truthy(Get(f, "memberName")) ==> cells[0] == JoinText(Get(f, "memberName"))) &&
            ((forall m :: m in teamMembers ==> Get(m, "uid") != Get(f, "memberUid")) ==>
               cells[1] == "Unknown" && cells[2] == "Unknown" &&
               (!Truthy(Get(f, "memberName")) ==> cells[0] == "Unknown"))
  {
    if forall m :: m in teamMembers ==> Get(m, "uid") != Get(f, "memberUid") {
      assert CsvMember(f, teamMembers).None?;
    }
  }

  /** The error `description.replace` raises on a value that is not a string. */
  const ReplaceError := "TypeError: replace is not a function"

  /** The lines of the export after the header, one per feedback, or the
      error of a feedback whose cells fail. */
  function CsvLines(filtered: seq<Doc>, teamMembers: seq<Doc>, locale: Option<int> -> string, parse: string -> Option<int>)
    : (r: Result<seq<string>, string>)
    ensures r.Ok? <==> forall i :: 0 <= i < |filtered| ==> CsvCells(filtered[i], teamMembers, locale, parse).Ok?
    ensures r.Err? ==> r.error == ReplaceError
    ensures r.Ok? ==> |r.value| == |filtered|
    ensures r.Ok? ==> forall i :: 0 <= i < |filtered| ==>
              r.value[i] == Join(CsvCells(filtered[i], teamMembers, locale, parse).value, ",")
  {
    if forall i :: 0 <= i < |filtered| ==> CsvCells(filtered[i], teamMembers, locale, parse).Ok? then
      Ok(seq(|filtered|, i requires 0 <= i < |filtered| && CsvCells(filtered[i], teamMembers, locale, parse).Ok? =>
        Join(CsvCells(filtered[i], teamMembers, locale, parse).value, ",")))
    else
      Err(ReplaceError)
  }

  /** `exportToCsv`'s text: the header and one line per filtered feedback,
      joined with `\n`. */
  function Csv(filtered: seq<Doc>, teamMembers: seq<Doc>, locale: Option<int> -> string, parse: string -> Option<int>)
    : (r: Result<string, string>)
    ensures r.Ok? <==> CsvLines(filtered, teamMembers, locale, parse).Ok?
    ensures r.Ok? ==> r.value == Join([Header] + CsvLines(filtered, teamMembers, locale, parse).value, "\n")
  {
    match CsvLines(filtered, teamMembers, locale, parse)
    case Err(e) => Err(e)
    case Ok(lines) => Ok(Join([Header] + lines, "\n"))
  }

  /** When no line holds a line break, the export splits into the header and
      exactly one line per filtered feedback. */
  lemma CsvLineCount(filtered: seq<Doc>, teamMembers: seq<Doc>, locale: Option<int> -> string, parse: string -> Option<int>,
                     lines: seq<string>)
    requires CsvLines(filtered, teamMembers, locale, parse) == Ok(lines)
    requires forall i :: 0 <= i < |lines| ==> '\n' !in lines[i]
    ensures Csv(filtered, teamMembers, locale, parse).Ok?
    ensures var split := Split(Csv(filtered, teamMembers, locale, parse).value, '\n');
            |split| == |filtered| + 1 && split[0] == Header &&
            forall i :: 0 <= i < |filtered| ==> split[i + 1] == Join(CsvCells(filtered[i], teamMembers, locale, parse).value, ",")
  {
    HeaderHasNoBreak();
    SplitLines(Header, lines);
  }

  /** The header is one line, with as many columns as each row has cells. */
  lemma HeaderHasNoBreak()
    ensures '\n' !in Header
    ensures |Columns| == 10
  {
    forall i | 0 <= i < |Columns|
      ensures '\n' !in Columns[i]
    {
      var c := Columns[i];
      assert forall j :: 0 <= j < |c| ==> c[j] != '\n';
    }
    JoinKeepsOut(Columns, ",", '\n');
  }

  /** A character in neither the parts nor the separator is not in their join. */
  lemma {:induction false} JoinKeepsOut(parts: seq<string>, sep: string, c: char)
    requires c !in sep
    requires forall i :: 0 <= i < |parts| ==> c !in parts[i]
    ensures c !in Join(parts, sep)
  {
    if |parts| > 1 {
      JoinKeepsOut(parts[1..], sep, c);
    }
  }

  /** Lines without line breaks, joined by `\n`, split back into the same lines. */
  lemma {:induction false} SplitLines(header: string, lines: seq<string>)
    requires '\n' !in header
    requires forall i :: 0 <= i < |lines| ==> '\n' !in lines[i]
    ensures Split(Join([header] + lines, "\n"), '\n') == [header] + lines
  {
    var all := [header] + lines;
    forall i | 0 <= i < |all|
      ensures '\n' !in all[i]
    {
      if i > 0 {
        assert all[i] == lines[i - 1];
      }
    }
    SplitJoin(all, '\n');
  }
}
