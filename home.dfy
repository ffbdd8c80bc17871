/**
 * The home screen: three status counters from the dashboard statistics and
 * a preview of the user's most recent complaints.
 */
module Home {
  import opened Wrappers
  import opened Seqs
  import opened Models
  import opened Ui

  /** The home screen previews at most this many complaints. */
  const PreviewSize := 5

  /** `issues.take(5)`: the first five complaints, or all of them when
      there are fewer, in order. */
  function Preview(issues: seq<Complaint>): (r: seq<Complaint>)
    ensures |r| == if |issues| < PreviewSize then |issues| else PreviewSize
    ensures forall i :: 0 <= i < |r| ==> r[i] == issues[i]
  {
    Take(issues, PreviewSize)
  }

  class HomeScreen {
    /** The counters' values; `None` while they show the layout's text. */
    var pendingCount: Option<int>
    var progressCount: Option<int>
    var resolvedCount: Option<int>
    var emptyVisible: Visibility
    var listVisible: Visibility
    /** The list the adapter was last given. */
    var shownItems: seq<Complaint>

    /** The list never shows more than the preview size. */
    ghost predicate Valid()
      reads this
    {
      |shownItems| <= PreviewSize
    }

    constructor ()
      ensures Valid()
      ensures pendingCount.None? && progressCount.None? && resolvedCount.None?
      ensures emptyVisible == listVisible == AsInLayout && shownItems == []
    {
      pendingCount, progressCount, resolvedCount := None, None, None;
      emptyVisible, listVisible := AsInLayout, AsInLayout;
      shownItems := [];
    }

    /** The statistics call's answer: only a successful answer with a body
        updates the three counters. */
    method OnStats(response: Call<Stats>)
      requires Valid()
      modifies this
      ensures Valid()
      ensures response.HasBody() ==>
                pendingCount == Some(response.body.value.pending)
                && progressCount == Some(response.body.value.inProgress)
                && resolvedCount == Some(response.body.value.resolved)
      ensures !response.HasBody() ==>
                pendingCount == old(pendingCount) && progressCount == old(progressCount)
                && resolvedCount == old(resolvedCount)
      ensures emptyVisible == old(emptyVisible) && listVisible == old(listVisible)
      ensures shownItems == old(shownItems)
    {
      if response.HasBody() {
        var stats := response.body.value;
        pendingCount := Some(stats.pending);
        progressCount := Some(stats.inProgress);
        resolvedCount := Some(stats.resolved);
      }
    }

    /** The complaints call's answer: an empty list shows the empty state
        and hides the list; a non-empty one does the opposite and shows its
        preview; a failed answer changes nothing. */
    method OnIssues(response: Call<seq<Complaint>>)
      requires Valid()
      modifies this
      ensures Valid()
      ensures response.HasBody() && response.body.value == [] ==>
                emptyVisible == Visible && listVisible == Gone && shownItems == old(shownItems)
      ensures response.HasBody() && response.body.value != [] ==>
                emptyVisible == Gone && listVisible == Visible && shownItems == Preview(response.body.value)
      ensures !response.HasBody() ==>
                emptyVisible == old(emptyVisible) && listVisible == old(listVisible)
                && shownItems == old(shownItems)
      ensures pendingCount == old(pendingCount) && progressCount == old(progressCount)
      ensures resolvedCount == old(resolvedCount)
    {
      if response.HasBody() {
        var issues := response.body.value;
        if issues == [] {
          emptyVisible, listVisible := Visible, Gone;
        } else {
          emptyVisible, listVisible := Gone, Visible;
          shownItems := Preview(issues);
        }
      }
    }

    /** `loadData`: the statistics first, then the complaints. An exception
        from the statistics call skips the complaints call; every exception
        is swallowed, keeping whatever was already updated. */
    method LoadData(stats: Call<Stats>, issues: Call<seq<Complaint>>)
      requires Valid()
      modifies this
      ensures Valid()
      ensures stats.Threw? ==>
                pendingCount == old(pendingCount) && progressCount == old(progressCount)
                && resolvedCount == old(resolvedCount) && emptyVisible == old(emptyVisible)
                && listVisible == old(listVisible) && shownItems == old(shownItems)
      ensures stats.HasBody() ==>
                pendingCount == Some(stats.body.value.pending)
                && progressCount == Some(stats.body.value.inProgress)
                && resolvedCount == Some(stats.body.value.resolved)
      ensures !stats.HasBody() ==>
                pendingCount == old(pendingCount) && progressCount == old(progressCount)
                && resolvedCount == old(resolvedCount)
      ensures !stats.Threw? && issues.HasBody() && issues.body.value != [] ==>
                listVisible == Visible && emptyVisible == Gone && shownItems == Preview(issues.body.value)
      ensures !stats.Threw? && issues.HasBody() && issues.body.value == [] ==>
                listVisible == Gone && emptyVisible == Visible && shownItems == old(shownItems)
      ensures !issues.HasBody() ==>
                emptyVisible == old(emptyVisible) && listVisible == old(listVisible)
                && shownItems == old(shownItems)
    {
      if stats.Threw? {
        return;
      }
      OnStats(stats);
      OnIssues(issues);
    }

    /** The floating button and the "report your first issue" button both
        open the report chooser. */
    method OnReportClick() returns (t: Transition)
      ensures t == Open(ReportSelection, map[], true)
    {
      t := Open(ReportSelection, map[], true);
    }
  }
}
