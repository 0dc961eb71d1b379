/** The feedback form: who can be chosen as the subject, what a submission
    carries, how the form resets, and the conversion between the browser's
    `yyyy-mm-dd` date input and the stored `dd/mm/yyyy` deadline. */
module FeedbackForm {
  import opened Wrappers
  import opened Js
  import opened Seqs
  import opened Text

  /** `currentUser?.uid` */
  function CurrentUid(currentUser: Option<Doc>): Option<Value>
  {
    if currentUser.Some? then Get(currentUser.value, "uid") else None
  }

  /** `currentUser?.name || ''` */
  function ReviewerName(currentUser: Option<Doc>): Value
  {
    var name := if currentUser.Some? then Get(currentUser.value, "name") else None;
    Or(name, Some(Str(""))).value
  }

  /** The subject filter: not an admin, not the current user, and a team
      member or a reviewer. */
  predicate Selectable(m: Doc, currentUser: Option<Doc>)
  {
    !Is(Get(m, "role"), "admin") &&
    Get(m, "uid") != CurrentUid(currentUser) &&
    (Is(Get(m, "role"), "team_member") || Is(Get(m, "role"), "reviewer"))
  }

  /** `availableMembers` */
  function AvailableMembers(teamMembers: seq<Doc>, currentUser: Option<Doc>): seq<Doc>
  {
    Filter(teamMembers, m => Selectable(m, currentUser))
  }

  /** The selectable subjects are exactly the team members and reviewers
      other than the current user, in their listed order; an admin never is. */
  lemma AvailableMembersSpec(teamMembers: seq<Doc>, currentUser: Option<Doc>)
    ensures forall m :: m in AvailableMembers(teamMembers, currentUser) <==>
              m in teamMembers && Get(m, "uid") != CurrentUid(currentUser) &&
              (Is(Get(m, "role"), "team_member") || Is(Get(m, "role"), "reviewer"))
    ensures forall m :: m in AvailableMembers(teamMembers, currentUser) ==> !Is(Get(m, "role"), "admin")
    ensures forall m :: multiset(AvailableMembers(teamMembers, currentUser))[m] ==
              if Selectable(m, currentUser) then multiset(teamMembers)[m] else 0
    ensures IsSubseq(AvailableMembers(teamMembers, currentUser), teamMembers)
  {
    FilterIsSubseq(teamMembers, m => Selectable(m, currentUser));
    FilterMultiset(teamMembers, m => Selectable(m, currentUser));
  }

  /** The fields of a fresh form; also what the form resets to. */
  function InitialForm(currentUser: Option<Doc>): (d: Doc)
    ensures d.Keys == {"memberId", "type", "project", "reviewer", "description", "actionItems", "improvementDeadline"}
    ensures d["reviewer"] == ReviewerName(currentUser)
    ensures forall k :: k in d && k != "reviewer" ==> d[k] == Str("")
  {
    map["memberId" := Str(""), "type" := Str(""), "project" := Str(""), "reviewer" := ReviewerName(currentUser),
        "description" := Str(""), "actionItems" := Str(""), "improvementDeadline" := Str("")]
  }

  /** What `handleSubmit` hands on, the form it resets to and whether the
      action-items section stays visible. */
  datatype Submission = Submission(feedbackData: Doc, form: Doc, showActionItems: bool)

  /** `handleSubmit`: the form's fields, `status` from the type and
      `reviewerId` from the current user; then the form is reset. */
  function Submit(form: Doc, currentUser: Option<Doc>): (s: Submission)
    ensures Get(s.feedbackData, "status") == Some(Str("open")) <==> Is(Get(form, "type"), "improvement")
    ensures Get(s.feedbackData, "status") == Some(Str("closed")) <==> !Is(Get(form, "type"), "improvement")
    ensures Get(s.feedbackData, "reviewerId") == Some(Or(CurrentUid(currentUser), Some(Null)).value)
    ensures forall k :: k != "status" && k != "reviewerId" ==> Get(s.feedbackData, k) == Get(form, k)
    ensures s.form == InitialForm(currentUser) && !s.showActionItems
  {
    var status := if Is(Get(form, "type"), "improvement") then Str("open") else Str("closed");
    var reviewerId := Or(CurrentUid(currentUser), Some(Null)).value;
    Submission(form["status" := status]["reviewerId" := reviewerId], InitialForm(currentUser), false)
  }

  /** `handleChange(field, value)` */
  function Change(form: Doc, field: string, value: Value): (r: Doc)
    ensures Get(r, field) == Some(value)
    ensures forall k :: k != field ==> Get(r, k) == Get(form, k)
  {
    form[field := value]
  }

  /** `handleTypeChange(type)`: the new type, and whether the action items
      are shown. */
  function TypeChange(form: Doc, t: string): (r: (Doc, bool))
    ensures r.0 == Change(form, "type", Str(t))
    ensures r.1 <==> t == "improvement"
  {
    (Change(form, "type", Str(t)), t == "improvement")
  }

  /** A calendar day in local time, month counted from 1. */
  datatype CivilDate = CivilDate(year: int, month: int, day: int)

  /** `new Date(s)` read back in local time: the day it denotes, or `None`
      for an invalid date. Parsing and the time zone are the platform's. */
  type Calendar = string -> Option<CivilDate>

  /** `formatDateForDisplay(s)`: `dd/mm/yyyy`, day and month padded to two
      digits, the year as written by `getFullYear()`. An invalid date prints
      `NaN` in each place. */
  function FormatDateForDisplay(s: string, calendar: Calendar): (r: string)
    ensures s == "" ==> r == ""
    ensures s != "" && calendar(s).None? ==> r == "NaN/NaN/NaN"
  {
    if s == "" then ""
    else match calendar(s)
      case None => "NaN/NaN/NaN"
      case Some(c) => Pad2(Dec(c.day)) + "/" + Pad2(Dec(c.month)) + "/" + Dec(c.year)
  }

  /** For a valid date, the display is two digits denoting the day, a slash,
      two digits denoting the month, a slash and the year. */
  lemma DisplayLayout(s: string, calendar: Calendar)
    requires s != "" && calendar(s).Some?
    requires 1 <= calendar(s).value.day <= 31 && 1 <= calendar(s).value.month <= 12
    ensures var r := FormatDateForDisplay(s, calendar);
            var c := calendar(s).value;
            |r| >= 7 && r[2] == '/' && r[5] == '/' &&
            AllDigits(r[..2]) && DigitsValue(r[..2]) == c.day &&
            AllDigits(r[3..5]) && DigitsValue(r[3..5]) == c.month &&
            r[6..] == Dec(c.year)
  {
    var c := calendar(s).value;
    PadTwoDigits(c.day);
    PadTwoDigits(c.month);
    var r := FormatDateForDisplay(s, calendar);
    assert r == Pad2(Dec(c.day)) + "/" + Pad2(Dec(c.month)) + "/" + Dec(c.year);
    assert r[..2] == Pad2(Dec(c.day));
    assert r[3..5] == Pad2(Dec(c.month));
    assert r[6..] == Dec(c.year);
  }

  /** The `i`th part of a destructured split, `undefined` when missing. */
  function Part(parts: seq<string>, i: nat): string
  {
    if i < |parts| then parts[i] else "undefined"
  }

  /** `formatDateForInput(s)`: `dd/mm/yyyy` rearranged to `yyyy-mm-dd`. */
  function FormatDateForInput(s: string): (r: string)
    ensures s == "" ==> r == ""
  {
    if s == "" then ""
    else
      var parts := Split(s, '/');
      Part(parts, 2) + "-" + Part(parts, 1) + "-" + Part(parts, 0)
  }

  /** `handleDateChange`: the picked `yyyy-mm-dd` stored as `dd/mm/yyyy`,
      an empty pick stored as `''`. */
  function DateChange(form: Doc, input: string, calendar: Calendar): (r: Doc)
    ensures input == "" ==> Get(r, "improvementDeadline") == Some(Str(""))
    ensures input != "" ==> Get(r, "improvementDeadline") == Some(Str(FormatDateForDisplay(input, calendar)))
    ensures forall k :: k != "improvementDeadline" ==> Get(r, k) == Get(form, k)
  {
    if input != "" then Change(form, "improvementDeadline", Str(FormatDateForDisplay(input, calendar)))
    else Change(form, "improvementDeadline", Str(""))
  }

  /** `formatDateForInput` takes `dd/mm/yyyy` to `yyyy-mm-dd`. */
  lemma FormatDateForInputSpec(d: string, m: string, y: string)
    requires '/' !in d && '/' !in m && '/' !in y
    ensures FormatDateForInput(d + "/" + m + "/" + y) == y + "-" + m + "-" + d
  {
    SplitJoin([d, m, y], '/');
    assert Join([d, m, y], "/") == d + "/" + m + "/" + y by {
      assert Join([m, y], "/") == m + "/" + y;
    }
  }

  predicate IsDigit(c: char)
  {
    '0' <= c <= '9'
  }

  predicate AllDigits(t: string)
  {
    forall i :: 0 <= i < |t| ==> IsDigit(t[i])
  }

  /** The number a string of decimal digits denotes. */
  function DigitsValue(t: string): nat
    requires AllDigits(t)
  {
    if t == [] then 0 else DigitsValue(t[..|t| - 1]) * 10 + (t[|t| - 1] as int - '0' as int)
  }

  /** `Digit` writes the character of a digit's value. */
  lemma DigitOfChar(c: char)
    requires IsDigit(c)
    ensures Digit(c as int - '0' as int) == c
  {
  }

  /** Writing the value of a digit string without a leading zero gives the string back. */
  lemma {:induction false} NatDecDigits(t: string)
    requires AllDigits(t) && |t| >= 1 && (|t| == 1 || t[0] != '0')
    ensures NatDec(DigitsValue(t)) == t
  {
    var last := t[|t| - 1];
    DigitOfChar(last);
    if |t| == 1 {
      assert DigitsValue(t) == last as int - '0' as int;
    } else {
      var init := t[..|t| - 1];
      assert init[0] == t[0];
      assert AllDigits(init);
      NatDecDigits(init);
      LeadingDigitPositive(init);
      var n := DigitsValue(t);
      assert n / 10 == DigitsValue(init) && n % 10 == last as int - '0' as int;
      assert t == init + [last];
    }
  }

  /** A digit string of two or more digits without a leading zero is at least 10. */
  lemma {:induction false} LeadingDigitPositive(t: string)
    requires AllDigits(t) && |t| >= 1 && t[0] != '0'
    ensures DigitsValue(t) >= 1
  {
    if |t| > 1 {
      var init := t[..|t| - 1];
      assert init[0] == t[0];
      LeadingDigitPositive(init);
    }
  }

  /** A number below 100, padded, is two digits denoting it. */
  lemma PadTwoDigits(n: int)
    requires 0 <= n < 100
    ensures |Pad2(Dec(n))| == 2 && AllDigits(Pad2(Dec(n))) && DigitsValue(Pad2(Dec(n))) == n
  {
    var t := Pad2(Dec(n));
    if n < 10 {
      DigitValue(n);
      assert t == "0" + [Digit(n)];
      assert t[..1] == "0";
      assert DigitsValue(t[..1]) == 0 by {
        assert t[..1][..0] == [];
      }
      assert DigitsValue(t) == n;
    } else {
      DigitValue(n / 10);
      DigitValue(n % 10);
      assert NatDec(n / 10) == [Digit(n / 10)];
      assert t == [Digit(n / 10), Digit(n % 10)];
      assert t[..1] == [Digit(n / 10)];
      assert DigitsValue(t[..1]) == n / 10 by {
        assert t[..1][..0] == [];
      }
      assert DigitsValue(t) == (n / 10) * 10 + n % 10;
    }
  }

  /** The character `Digit` writes denotes the digit. */
  lemma DigitValue(d: nat)
    requires d < 10
    ensures Digit(d) as int - '0' as int == d
  {
  }

  /** Padding the value of a two-digit field gives the field back. */
  lemma TwoDigits(t: string)
    requires AllDigits(t) && |t| == 2
    ensures Pad2(Dec(DigitsValue(t))) == t
  {
    if t[0] == '0' {
      NatDecDigits(t[1..]);
      assert DigitsValue(t) == DigitsValue(t[1..]) by {
        assert t[..1] == "0";
        assert t[1..] == [t[1]];
      }
      assert "0" + t[1..] == t;
    } else {
      NatDecDigits(t);
      LeadingDigitPositive(t);
    }
  }

  /** The date input's bound value survives a round trip through the stored
      deadline: a `yyyy-mm-dd` string whose date the calendar reads as that
      same day comes back unchanged. `getFullYear()` is not padded, so the
      year needs four digits without a leading zero. */
  lemma DateRoundTrip(y: string, m: string, d: string, calendar: Calendar)
    requires AllDigits(y) && |y| == 4 && y[0] != '0'
    requires AllDigits(m) && |m| == 2 && AllDigits(d) && |d| == 2
    requires calendar(y + "-" + m + "-" + d) == Some(CivilDate(DigitsValue(y), DigitsValue(m), DigitsValue(d)))
    ensures FormatDateForInput(FormatDateForDisplay(y + "-" + m + "-" + d, calendar)) == y + "-" + m + "-" + d
  {
    var s := y + "-" + m + "-" + d;
    assert s != "";
    TwoDigits(d);
    TwoDigits(m);
    NatDecDigits(y);
    assert FormatDateForDisplay(s, calendar) == d + "/" + m + "/" + y;
    assert '/' !in d by { assert forall i :: 0 <= i < |d| ==> d[i] != '/'; }
    assert '/' !in m by { assert forall i :: 0 <= i < |m| ==> m[i] != '/'; }
    assert '/' !in y by { assert forall i :: 0 <= i < |y| ==> y[i] != '/'; }
    FormatDateForInputSpec(d, m, y);
  }
}
