/**
 * The complaint detail screen: the issue's texts, a status colour and a
 * progress bar (both chosen ignoring case), a four-step timeline, a status
 * dialog that stores nothing, and a shareable plain-text summary.
 */
module ComplaintDetail {
  import opened Wrappers
  import opened Text
  import opened Models
  import opened Ui
  import opened Indent
  import IssueAdapter

  /** `onCreate`: the issue parcelled under "issue". `setupUI` runs only
      when there is one; otherwise the screen keeps its bare layout and
      none of its buttons reacts. */
  function ShownIssue(args: map<string, Arg>): (r: Option<Issue>)
    ensures r.Some? <==> "issue" in args && args["issue"].IssueArg?
  {
    GetIssue(args, "issue")
  }

  const PendingColor := "#FCA311"
  const ProgressColor := "#3498db"
  const ResolvedColor := "#27ae60"
  const RejectedColor := "#e74c3c"
  const UnknownColor := "#95a5a6"

  /** The status text's colour, chosen from the lower-cased status; any
      other status is grey. */
  function StatusColor(status: string): (color: string)
    ensures color == PendingColor <==> Lower(status) == "pending"
    ensures color == ProgressColor <==> Lower(status) == "in progress"
    ensures color == ResolvedColor <==> Lower(status) == "resolved"
    ensures color == RejectedColor <==> Lower(status) == "rejected"
    ensures color == UnknownColor <==> Lower(status) !in {"pending", "in progress", "resolved", "rejected"}
  {
    match Lower(status)
    case "pending" => PendingColor
    case "in progress" => ProgressColor
    case "resolved" => ResolvedColor
    case "rejected" => RejectedColor
    case _ => UnknownColor
  }

  /** The progress bar's percentage, chosen from the lower-cased status:
      25, 60 or 100 for the three open-to-closed states, 0 otherwise. */
  function Progress(status: string): (p: nat)
    ensures p <= 100
    ensures p == 25 <==> Lower(status) == "pending"
    ensures p == 60 <==> Lower(status) == "in progress"
    ensures p == 100 <==> Lower(status) == "resolved"
    ensures p == 0 <==> Lower(status) !in {"pending", "in progress", "resolved"}
  {
    match Lower(status)
    case "pending" => 25
    case "in progress" => 60
    case "resolved" => 100
    case _ => 0
  }

  /** The percentage caption, "<progress>%". */
  function ProgressText(status: string): (s: string)
    ensures |s| >= 2 && s[|s| - 1] == '%'
    ensures s[..|s| - 1] == IssueAdapter.NatToString(Progress(status))
    ensures IssueAdapter.ParseDecimal(s[..|s| - 1]) == Progress(status)
  {
    var digits := IssueAdapter.NatToString(Progress(status));
    IssueAdapter.NatToStringRoundTrip(Progress(status));
    assert (digits + "%")[..|digits|] == digits;
    digits + "%"
  }

  /** The statuses the update dialog offers, in order. */
  const StatusChoices: seq<string> := ["Pending", "In Progress", "Resolved", "Rejected"]

  /** The backend's capitalised statuses are recognised ignoring case:
      each dialog choice gets its own colour, and the progress bar reads
      25, 60, 100 and 0 for them. */
  lemma PendingRecognised()
    ensures Progress("Pending") == 25 && StatusColor("Pending") == PendingColor
  {
    LowerFolds("Pending", "pending");
  }

  lemma InProgressRecognised()
    ensures Progress("In Progress") == 60 && StatusColor("In Progress") == ProgressColor
  {
    LowerFolds("In Progress", "in progress");
  }

  lemma ResolvedRecognised()
    ensures Progress("Resolved") == 100 && StatusColor("Resolved") == ResolvedColor
  {
    LowerFolds("Resolved", "resolved");
  }

  lemma RejectedRecognised()
    ensures Progress("Rejected") == 0 && StatusColor("Rejected") == RejectedColor
  {
    LowerFolds("Rejected", "rejected");
  }

  /** Choosing a status in the dialog only reports it; nothing is stored
      and nothing is sent. */
  function StatusChosenToast(which: nat): (toast: string)
    requires which < |StatusChoices|
    ensures toast == "Status updated to " + StatusChoices[which]
  {
    "Status updated to " + StatusChoices[which]
  }

  /** One step of the timeline. */
  datatype TimelineItem = TimelineItem(title: string, date: int, completed: bool)

  const TimelineTitles: seq<string> := ["Submitted", "Under Review", "In Progress", "Resolved"]

  /** The four steps, one day apart from the filing date, with completion
      flags from the given tests of the status. */
  function Steps(createdAt: int, underReview: bool, inProgress: bool, resolved: bool): (r: seq<TimelineItem>)
    ensures |r| == 4
    ensures forall i :: 0 <= i < 4 ==> r[i].title == TimelineTitles[i]
    ensures forall i :: 0 <= i < 4 ==> r[i].date == createdAt + i * IssueAdapter.MillisPerDay
    ensures r[0].completed && r[1].completed == underReview
    ensures r[2].completed == inProgress && r[3].completed == resolved
  {
    [TimelineItem("Submitted", createdAt, true),
     TimelineItem("Under Review", createdAt + 86400000, underReview),
     TimelineItem("In Progress", createdAt + 172800000, inProgress),
     TimelineItem("Resolved", createdAt + 259200000, resolved)]
  }

  /** `setupTimeline` as written: the status is compared with lower-case
      literals without folding its case. */
  function Timeline(issue: Issue): (r: seq<TimelineItem>)
    ensures |r| == 4 && r[0].completed
    ensures r[1].completed <==> issue.status != "pending"
    ensures r[2].completed <==> issue.status == "in progress" || issue.status == "resolved"
    ensures r[3].completed <==> issue.status == "resolved"
  {
    Steps(issue.createdAt, issue.status != "pending",
          issue.status == "in progress" || issue.status == "resolved",
          issue.status == "resolved")
  }

  /** Completion flags form a prefix: a completed step has every earlier
      step completed. */
  predicate PrefixClosed(r: seq<TimelineItem>) {
    forall i, j :: 0 <= i <= j < |r| && r[j].completed ==> r[i].completed
  }

  /** Steps whose flags imply one another in order form a prefix. */
  lemma StepsPrefixClosed(createdAt: int, underReview: bool, inProgress: bool, resolved: bool)
    requires (resolved ==> inProgress) && (inProgress ==> underReview)
    ensures PrefixClosed(Steps(createdAt, underReview, inProgress, resolved))
  {
    var r := Steps(createdAt, underReview, inProgress, resolved);
    forall i, j | 0 <= i <= j < |r| && r[j].completed
      ensures r[i].completed
    {
      assert r[j].completed == [true, underReview, inProgress, resolved][j];
      assert r[i].completed == [true, underReview, inProgress, resolved][i];
    }
  }

  lemma TimelinePrefixClosed(issue: Issue)
    ensures PrefixClosed(Timeline(issue))
  {
    var s := issue.status;
    StepsPrefixClosed(issue.createdAt, s != "pending", s == "in progress" || s == "resolved", s == "resolved");
  }

  /** As written, the timeline and the progress bar disagree for the
      capitalised statuses the backend sends: "Pending" already marks
      "Under Review" complete at 25%, and "Resolved" shows 100% while only
      "Under Review" is complete. */
  lemma TimelineMissesCapitalisedStatus(issue: Issue)
    ensures issue.status == "Pending" ==>
              Progress(issue.status) == 25 && Timeline(issue)[1].completed
    ensures issue.status == "Resolved" ==>
              Progress(issue.status) == 100 && !Timeline(issue)[2].completed && !Timeline(issue)[3].completed
  {
    PendingRecognised();
    ResolvedRecognised();
  }

  /** The timeline with the status folded to lower case, like the colour
      and the progress bar. */
  function TimelineFolded(issue: Issue): (r: seq<TimelineItem>)
    ensures |r| == 4 && r[0].completed
    ensures r[1].completed <==> Progress(issue.status) != 25
    ensures r[2].completed <==> Progress(issue.status) >= 60
    ensures r[3].completed <==> Progress(issue.status) == 100
  {
    var s := Lower(issue.status);
    Steps(issue.createdAt, s != "pending", s == "in progress" || s == "resolved", s == "resolved")
  }

  /** The folded timeline keeps the prefix shape, and it coincides with the
      written one for statuses already in lower case. */
  lemma TimelineFoldedPrefixClosed(issue: Issue)
    ensures PrefixClosed(TimelineFolded(issue))
  {
    var s := Lower(issue.status);
    StepsPrefixClosed(issue.createdAt, s != "pending", s == "in progress" || s == "resolved", s == "resolved");
  }

  lemma TimelineFoldedAgrees(issue: Issue)
    requires Lower(issue.status) == issue.status
    ensures TimelineFolded(issue) == Timeline(issue)
  {
  }

  /** The twelve spaces that indent the share template's lines in the
      source. */
  const Pad := "            "

  /** The share template before `trimIndent`: a raw string that opens with
      a line break, holds seven lines indented by twelve spaces (one of them
      white space only), and closes on a line of eight spaces. */
  function TemplateLines(issue: Issue): (ls: seq<string>)
    ensures |ls| == 9 && ls[0] == "" && IsBlank(ls[6]) && IsBlank(ls[8])
    ensures forall i :: 1 <= i < 8 ==> |ls[i]| >= 12 && ls[i][..12] == Pad
  {
    ["",
     Pad + "Complaint ID: " + issue.id,
     Pad + "Title: " + issue.title,
     Pad + "Category: " + issue.category,
     Pad + "Location: " + issue.location,
     Pad + "Status: " + issue.status,
     Pad,
     Pad + "Description: " + issue.description,
     "        "]
  }

  /** `shareComplaint` as written: the fields are interpolated first and
      the indentation is trimmed afterwards. With single-line fields this is
      the intended summary. */
  function ShareTextAsWritten(issue: Issue): (text: string)
    ensures SingleLineFields(issue) && NoBreak(issue.description) ==> text == ShareText(issue)
  {
    TemplateTrimsToSummary(issue);
    TrimIndent(Join(TemplateLines(issue)))
  }

  /** The summary's lines: id, title, category, location and status, a
      blank line, then the description. */
  function ShareLines(issue: Issue): (ls: seq<string>)
    ensures |ls| == 7 && ls[5] == ""
  {
    ["Complaint ID: " + issue.id,
     "Title: " + issue.title,
     "Category: " + issue.category,
     "Location: " + issue.location,
     "Status: " + issue.status,
     "",
     "Description: " + issue.description]
  }

  /** The shared summary, with no indentation whatever the fields hold. */
  function ShareText(issue: Issue): string {
    Join(ShareLines(issue))
  }

  predicate SingleLineFields(issue: Issue) {
    NoBreak(issue.id) && NoBreak(issue.title) && NoBreak(issue.category)
    && NoBreak(issue.location) && NoBreak(issue.status)
  }

  /** The summary reads back as its seven lines, in their fixed order, as
      long as no field breaks a line. */
  lemma ShareTextLayout(issue: Issue)
    ensures SingleLineFields(issue) && NoBreak(issue.description) ==> Lines(ShareText(issue)) == ShareLines(issue)
  {
    if SingleLineFields(issue) && NoBreak(issue.description) {
      LinesOfJoin(ShareLines(issue));
    }
  }

  /** A padded caption and a value without breaks make a line without
      breaks. */
  lemma PaddedNoBreak(caption: string, value: string)
    requires NoBreak(caption) && NoBreak(value)
    ensures NoBreak(Pad + caption + value)
  {
    assert NoBreak(Pad);
  }

  /** The template's first seven lines hold no break when the fields before
      the description hold none. */
  lemma TemplateHeadNoBreaks(issue: Issue)
    requires SingleLineFields(issue)
    ensures forall i :: 0 <= i < 7 ==> NoBreak(TemplateLines(issue)[i])
  {
    var ls := TemplateLines(issue);
    forall i | 0 <= i < 7
      ensures NoBreak(ls[i])
    {
      if i == 0 { assert ls[0] == ""; }
      else if i == 1 { PaddedNoBreak("Complaint ID: ", issue.id); }
      else if i == 2 { PaddedNoBreak("Title: ", issue.title); }
      else if i == 3 { PaddedNoBreak("Category: ", issue.category); }
      else if i == 4 { PaddedNoBreak("Location: ", issue.location); }
      else if i == 5 { PaddedNoBreak("Status: ", issue.status); }
      else { assert ls[6] == Pad; }
    }
  }

  lemma TemplateNoBreaks(issue: Issue)
    requires SingleLineFields(issue) && NoBreak(issue.description)
    ensures forall i :: 0 <= i < |TemplateLines(issue)| ==> NoBreak(TemplateLines(issue)[i])
  {
    var ls := TemplateLines(issue);
    TemplateHeadNoBreaks(issue);
    PaddedNoBreak("Description: ", issue.description);
    assert NoBreak(ls[8]);
  }

  lemma PaddedLine(caption: string, value: string)
    requires caption != [] && !IsWhitespace(caption[0])
    ensures IndentWidth(Pad + caption + value) == 12 && !IsBlank(Pad + caption + value)
    ensures Drop(Pad + caption + value, 12) == caption + value
  {
    assert Pad + caption + value == Pad + (caption + value);
    IndentOfPadded(Pad, caption + value);
  }

  lemma TemplateIndents(issue: Issue)
    ensures forall i :: 0 <= i < 9 && !IsBlank(TemplateLines(issue)[i]) ==> IndentWidth(TemplateLines(issue)[i]) == 12
    ensures IsBlank(TemplateLines(issue)[0]) && IsBlank(TemplateLines(issue)[8])
    ensures !IsBlank(TemplateLines(issue)[1])
  {
    var ls := TemplateLines(issue);
    assert IsBlank(Pad) && IsBlank("        ");
    forall i | 0 <= i < 9 && !IsBlank(ls[i])
      ensures IndentWidth(ls[i]) == 12
    {
      if i == 1 { PaddedLine("Complaint ID: ", issue.id); }
      else if i == 2 { PaddedLine("Title: ", issue.title); }
      else if i == 3 { PaddedLine("Category: ", issue.category); }
      else if i == 4 { PaddedLine("Location: ", issue.location); }
      else if i == 5 { PaddedLine("Status: ", issue.status); }
      else if i == 7 { PaddedLine("Description: ", issue.description); }
    }
    PaddedLine("Complaint ID: ", issue.id);
  }

  /** Removing twelve characters from each line of the template, and its
      blank first and last lines, leaves the summary's lines. */
  lemma TemplateReindented(issue: Issue)
    ensures Reindent(TemplateLines(issue), 12) == ShareLines(issue)
  {
    var ls := TemplateLines(issue);
    assert IsBlank(ls[0]) && IsBlank(ls[8]);
    var r := Reindent(ls, 12);
    assert |r| == 7;
    forall j | 0 <= j < 7
      ensures r[j] == ShareLines(issue)[j]
    {
      assert r[j] == Drop(ls[1 + j], 12);
      if j == 0 { PaddedLine("Complaint ID: ", issue.id); }
      else if j == 1 { PaddedLine("Title: ", issue.title); }
      else if j == 2 { PaddedLine("Category: ", issue.category); }
      else if j == 3 { PaddedLine("Location: ", issue.location); }
      else if j == 4 { PaddedLine("Status: ", issue.status); }
      else if j == 6 { PaddedLine("Description: ", issue.description); }
    }
  }

  /** With single-line fields the template trims to the summary: the
      common indentation is twelve and every line loses exactly it. */
  lemma TemplateTrimsToSummary(issue: Issue)
    ensures SingleLineFields(issue) && NoBreak(issue.description) ==>
              TrimIndent(Join(TemplateLines(issue))) == ShareText(issue)
  {
    if SingleLineFields(issue) && NoBreak(issue.description) {
      var ls := TemplateLines(issue);
      TemplateNoBreaks(issue);
      LinesOfJoin(ls);
      TemplateIndents(issue);
      UniformIndent(ls, 12, 1);
      TemplateReindented(issue);
    }
  }

  /** The template's lines once a two-line description has been split at
      its break. */
  function SplitTemplateLines(issue: Issue, first: string, second: string): seq<string> {
    TemplateLines(issue)[..7] + [Pad + "Description: " + first, second, "        "]
  }

  lemma SplitTemplateJoins(issue: Issue, first: string, second: string)
    requires issue.description == first + "\n" + second
    ensures Join(TemplateLines(issue)) == Join(SplitTemplateLines(issue, first, second))
  {
    var pre := TemplateLines(issue)[..7];
    var head := Pad + "Description: " + first;
    var last := "        ";
    assert TemplateLines(issue)[7] == head + "\n" + second;
    assert TemplateLines(issue) == pre + [head + "\n" + second, last];
    JoinAppend(pre, [head + "\n" + second, last]);
    JoinAppend(pre, [head, second, last]);
    assert Join([head, second, last]) == head + "\n" + (second + "\n" + last);
  }

  lemma SplitTemplateLinesRead(issue: Issue, first: string, second: string)
    requires SingleLineFields(issue) && NoBreak(first) && NoBreak(second)
    requires issue.description == first + "\n" + second
    ensures Lines(Join(TemplateLines(issue))) == SplitTemplateLines(issue, first, second)
  {
    var ls := SplitTemplateLines(issue, first, second);
    SplitTemplateJoins(issue, first, second);
    TemplateHeadNoBreaks(issue);
    PaddedNoBreak("Description: ", first);
    assert NoBreak(ls[9]);
    forall i | 0 <= i < |ls|
      ensures NoBreak(ls[i])
    {
      if i < 7 { assert ls[i] == TemplateLines(issue)[i]; }
    }
    LinesOfJoin(ls);
  }

  lemma SplitTemplateUnindented(issue: Issue, first: string, second: string)
    requires second != [] && !IsWhitespace(second[0])
    ensures MinIndent(SplitTemplateLines(issue, first, second)) == Some(0)
  {
    var ls := SplitTemplateLines(issue, first, second);
    IndentOfPadded("", second);
    assert ls[8] == second;
  }

  lemma SplitTemplateReindented(issue: Issue, first: string, second: string)
    ensures |Reindent(SplitTemplateLines(issue, first, second), 0)| > 1
    ensures Reindent(SplitTemplateLines(issue, first, second), 0)[0] == Pad + "Complaint ID: " + issue.id
  {
    var ls := SplitTemplateLines(issue, first, second);
    assert |ls| == 10 && ls[0] == "" && ls[1] == Pad + "Complaint ID: " + issue.id;
    assert IsBlank(ls[0]);
    assert Reindent(ls, 0)[0] == Drop(ls[1], 0);
    assert ls[1][0..] == ls[1];
  }

  /** The text the written code shares for a two-line description starts
      with the first template line, indentation included. */
  lemma SplitShareTextPadded(issue: Issue, first: string, second: string)
    requires SingleLineFields(issue) && NoBreak(first) && NoBreak(second)
    requires second != [] && !IsWhitespace(second[0])
    requires issue.description == first + "\n" + second
    ensures |ShareTextAsWritten(issue)| >= 26
    ensures ShareTextAsWritten(issue)[..26] == Pad + "Complaint ID: "
  {
    SplitTemplateLinesRead(issue, first, second);
    SplitTemplateUnindented(issue, first, second);
    SplitTemplateReindented(issue, first, second);
    var ls := SplitTemplateLines(issue, first, second);
    var r := Reindent(ls, 0);
    assert TrimIndent(Join(TemplateLines(issue))) == Join(r) by {
      assert Lines(Join(TemplateLines(issue))) == ls;
      assert MinIndent(ls).GetOr(0) == 0;
    }
    JoinHead(r);
    var head := Pad + "Complaint ID: ";
    assert r[0] == head + issue.id;
    assert (head + issue.id)[..26] == head;
  }

  /** The summary starts with the id's caption. */
  lemma ShareTextHead(issue: Issue)
    ensures |ShareText(issue)| >= 14 && ShareText(issue)[..14] == "Complaint ID: "
  {
    JoinHead(ShareLines(issue));
    assert ShareLines(issue)[0][..14] == "Complaint ID: ";
  }

  /** A description that spans two lines, the second of them not indented,
      drops the common indentation to zero: the shared text then keeps all
      twelve spaces in front of every template line. */
  lemma MultiLineDescriptionKeepsIndent(issue: Issue, first: string, second: string)
    requires SingleLineFields(issue) && NoBreak(first) && NoBreak(second)
    requires second != [] && !IsWhitespace(second[0])
    requires issue.description == first + "\n" + second
    ensures |ShareTextAsWritten(issue)| >= 26
    ensures ShareTextAsWritten(issue)[..26] == Pad + "Complaint ID: "
    ensures ShareText(issue)[..14] == "Complaint ID: "
    ensures ShareTextAsWritten(issue) != ShareText(issue)
  {
    SplitShareTextPadded(issue, first, second);
    ShareTextHead(issue);
    assert ShareTextAsWritten(issue)[0] == ShareTextAsWritten(issue)[..26][0] == ' ';
    assert ShareText(issue)[0] == ShareText(issue)[..14][0] == 'C';
  }

  /** The summary the screen shares. */
  function Share(issue: Issue): (text: string)
    ensures SingleLineFields(issue) && NoBreak(issue.description) ==> Lines(text) == ShareLines(issue)
  {
    ShareTextLayout(issue);
    ShareText(issue)
  }

  /** The header's id caption. */
  function IdLabel(issue: Issue): (s: string)
    ensures |s| == 4 + |issue.id|
    ensures s[..4] == "ID: " && s[4..] == issue.id
  {
    "ID: " + issue.id
  }
}
