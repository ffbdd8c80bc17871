/** What the screens show and where they lead, abstracted from Android's
    views and fragment transactions. */
module Ui {
  import opened Wrappers
  import opened Models

  /** A view's visibility: still as the layout file declares it, or set by
      the code. */
  datatype Visibility = AsInLayout | Visible | Gone

  /** The screens hosted inside the main activity. */
  datatype Fragment =
    | Home | MyReports | MapView | Chat | ReportSelection | Leaderboard
    | ManualReport | AIReport | ComplaintDetail

  /** A value in a fragment's argument bundle: a string, or a parcelled
      issue. */
  datatype Arg = StrArg(s: string) | IssueArg(issue: Issue)

  /** `Bundle.getString(key)`: the string stored under `key`, or nothing
      when the key is absent or holds something else. */
  function GetString(args: map<string, Arg>, key: string): (r: Option<string>)
    ensures r.Some? <==> key in args && args[key].StrArg?
    ensures r.Some? ==> r.value == args[key].s
  {
    if key in args && args[key].StrArg? then Some(args[key].s) else None
  }

  /** `Bundle.getParcelable<Issue>(key)`. */
  function GetIssue(args: map<string, Arg>, key: string): (r: Option<Issue>)
    ensures r.Some? <==> key in args && args[key].IssueArg?
    ensures r.Some? ==> r.value == args[key].issue
  {
    if key in args && args[key].IssueArg? then Some(args[key].issue) else None
  }

  /** A fragment transaction: replace the shown fragment (with its
      arguments, optionally remembering the old one on the back stack), or
      go back to the previous one. */
  datatype Transition = Open(target: Fragment, args: map<string, Arg>, addToBackStack: bool) | PopBackStack
}
