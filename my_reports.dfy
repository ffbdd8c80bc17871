/**
 * "My reports": the signed-in user's complaints, narrowed either by a status
 * chip or by a free-text search. Both recompute from the full list, so the
 * latest one wins.
 */
module MyReports {
  import opened Wrappers
  import opened Text
  import opened Seqs
  import opened Models
  import opened Ui
  import ComplaintDetail

  /** `filterByStatus`: no status keeps everything; otherwise exactly the
      complaints whose status equals it, compared case-sensitively. */
  function StatusFilter(all: seq<Complaint>, status: Option<string>): (r: seq<Complaint>)
    ensures status.None? ==> r == all
    ensures status.Some? ==> forall i :: 0 <= i < |r| ==> r[i].status == status.value
    ensures |r| <= |all|
  {
    match status
    case None => all
    case Some(wanted) => Filter(all, (c: Complaint) => c.status == wanted)
  }

  /** A complaint matches a query when its title, description or address
      contains it, ignoring case. */
  predicate Matches(c: Complaint, query: string) {
    ContainsIgnoreCase(c.title, query) || ContainsIgnoreCase(c.description, query)
    || ContainsIgnoreCase(c.location.address, query)
  }

  /** `searchReports`: an empty query keeps everything; otherwise the
      complaints that match it. */
  function SearchFilter(all: seq<Complaint>, query: string): (r: seq<Complaint>)
    ensures query == "" ==> r == all
    ensures forall i :: 0 <= i < |r| ==> Matches(r[i], query)
    ensures |r| <= |all|
  {
    if query == "" then
      EverythingMatchesEmptyQuery(all);
      all
    else Filter(all, (c: Complaint) => Matches(c, query))
  }

  lemma EverythingMatchesEmptyQuery(all: seq<Complaint>)
    ensures forall i :: 0 <= i < |all| ==> Matches(all[i], "")
  {
    forall i | 0 <= i < |all|
      ensures Matches(all[i], "")
    {
      ContainsEmpty(Lower(all[i].title));
    }
  }

  /** A complaint survives the status filter exactly when it is in the list
      and has that status. */
  lemma StatusFilterMembers(all: seq<Complaint>, status: string, c: Complaint)
    ensures c in StatusFilter(all, Some(status)) <==> c in all && c.status == status
  {
    FilterMembership(all, (c: Complaint) => c.status == status, c);
  }

  /** A complaint survives the search exactly when it is in the list and
      matches the query. */
  lemma SearchFilterMembers(all: seq<Complaint>, query: string, c: Complaint)
    ensures c in SearchFilter(all, query) <==> c in all && Matches(c, query)
  {
    if query == "" {
      EverythingMatchesEmptyQuery(all);
      if c in all {
        ContainsEmpty(Lower(c.title));
      }
    } else {
      FilterMembership(all, (c: Complaint) => Matches(c, query), c);
    }
  }

  /** The empty-query shortcut agrees with filtering by the empty query:
      every text contains the empty string. */
  lemma EmptyQueryShortcutAgrees(all: seq<Complaint>)
    ensures SearchFilter(all, "") == Filter(all, (c: Complaint) => Matches(c, ""))
  {
    EverythingMatchesEmptyQuery(all);
  }

  /** Both narrowings keep the list's order and drop only whole entries. */
  lemma NarrowingsAreSubsequences(all: seq<Complaint>, status: Option<string>, query: string)
    ensures IsSubsequence(StatusFilter(all, status), all)
    ensures IsSubsequence(SearchFilter(all, query), all)
  {
    SubsequenceReflexive(all);
    if status.Some? {
      var wanted := status.value;
      FilterIsSubsequence(all, (c: Complaint) => c.status == wanted);
    }
    if query != "" {
      FilterIsSubsequence(all, (c: Complaint) => Matches(c, query));
    }
  }

  /** The filter chips; `OtherChip` stands for any other checked id. */
  datatype Chip = AllChip | PendingChip | ProgressChip | ResolvedChip | OtherChip(id: int)

  /** The status filter a chip selects: none for "All", one of three
      statuses, or no action at all for an id the `when` does not list. */
  function ChipStatus(chip: Chip): (r: Option<Option<string>>)
    ensures r.None? <==> chip.OtherChip?
    ensures r == Some(None) <==> chip == AllChip
    ensures r.Some? && r.value.Some? ==> r.value.value in {"Pending", "In Progress", "Resolved"}
    ensures chip == PendingChip ==> r == Some(Some("Pending"))
    ensures chip == ProgressChip ==> r == Some(Some("In Progress"))
    ensures chip == ResolvedChip ==> r == Some(Some("Resolved"))
  {
    match chip
    case AllChip => Some(None)
    case PendingChip => Some(Some("Pending"))
    case ProgressChip => Some(Some("In Progress"))
    case ResolvedChip => Some(Some("Resolved"))
    case OtherChip(_) => None
  }

  class MyReportsScreen {
    var allComplaints: seq<Complaint>
    var filteredComplaints: seq<Complaint>
    var progressVisible: Visibility
    var listVisible: Visibility
    var emptyVisible: Visibility
    /** The list the adapter was last given. */
    var shownItems: seq<Complaint>

    /** The narrowed list is always taken from the full one, and a visible
        list shows exactly the narrowed complaints, of which there is at
        least one. */
    ghost predicate Valid()
      reads this
    {
      && IsSubsequence(filteredComplaints, allComplaints)
      && (listVisible == Visible ==> shownItems == filteredComplaints && filteredComplaints != [])
    }

    /** The screen before anything is loaded. */
    constructor ()
      ensures Valid()
      ensures allComplaints == [] && filteredComplaints == [] && shownItems == []
      ensures progressVisible == listVisible == emptyVisible == AsInLayout
    {
      allComplaints, filteredComplaints, shownItems := [], [], [];
      progressVisible, listVisible, emptyVisible := AsInLayout, AsInLayout, AsInLayout;
    }

    /** `updateUI`: with nothing to show the empty state replaces the list
        (the adapter keeps its old items); otherwise the list shows the
        narrowed complaints. */
    method UpdateUI()
      requires IsSubsequence(filteredComplaints, allComplaints)
      modifies this
      ensures Valid()
      ensures filteredComplaints == [] ==>
                listVisible == Gone && emptyVisible == Visible && shownItems == old(shownItems)
      ensures filteredComplaints != [] ==>
                listVisible == Visible && emptyVisible == Gone && shownItems == filteredComplaints
      ensures allComplaints == old(allComplaints) && filteredComplaints == old(filteredComplaints)
      ensures progressVisible == old(progressVisible)
    {
      if filteredComplaints == [] {
        listVisible, emptyVisible := Gone, Visible;
      } else {
        listVisible, emptyVisible := Visible, Gone;
        shownItems := filteredComplaints;
      }
    }

    /** Loading starts: the spinner shows and the list hides. */
    method StartLoading()
      requires Valid()
      modifies this
      ensures Valid()
      ensures progressVisible == Visible && listVisible == Gone
      ensures allComplaints == old(allComplaints) && filteredComplaints == old(filteredComplaints)
      ensures emptyVisible == old(emptyVisible) && shownItems == old(shownItems)
    {
      progressVisible, listVisible := Visible, Gone;
    }

    /** The backend's answer: the spinner hides; a successful answer with a
        body becomes both the full and the narrowed list; anything else
        shows the empty state and keeps the lists. */
    method OnReportsLoaded(response: Call<seq<Complaint>>)
      requires Valid()
      modifies this
      ensures Valid()
      ensures progressVisible == Gone
      ensures response.HasBody() ==>
                allComplaints == filteredComplaints == response.body.value
                && (listVisible == Visible <==> response.body.value != [])
                && (emptyVisible == Visible <==> response.body.value == [])
                && shownItems == (if response.body.value == [] then old(shownItems) else response.body.value)
      ensures !response.HasBody() ==>
                allComplaints == old(allComplaints) && filteredComplaints == old(filteredComplaints)
                && listVisible == Gone && emptyVisible == Visible && shownItems == old(shownItems)
    {
      progressVisible := Gone;
      if response.HasBody() {
        allComplaints := response.body.value;
        filteredComplaints := allComplaints;
        SubsequenceReflexive(allComplaints);
        UpdateUI();
      } else {
        listVisible, emptyVisible := Gone, Visible;
      }
    }

    /** `filterByStatus`: recomputed from the full list, whatever was shown
        before. */
    method FilterByStatus(status: Option<string>)
      requires Valid()
      modifies this
      ensures Valid()
      ensures filteredComplaints == StatusFilter(allComplaints, status)
      ensures allComplaints == old(allComplaints) && progressVisible == old(progressVisible)
      ensures listVisible == Visible <==> filteredComplaints != []
      ensures emptyVisible == Visible <==> filteredComplaints == []
      ensures shownItems == if filteredComplaints == [] then old(shownItems) else filteredComplaints
    {
      filteredComplaints := StatusFilter(allComplaints, status);
      NarrowingsAreSubsequences(allComplaints, status, "");
      UpdateUI();
    }

    /** `searchReports`: recomputed from the full list, whatever was shown
        before. */
    method SearchReports(query: string)
      requires Valid()
      modifies this
      ensures Valid()
      ensures filteredComplaints == SearchFilter(allComplaints, query)
      ensures allComplaints == old(allComplaints) && progressVisible == old(progressVisible)
      ensures listVisible == Visible <==> filteredComplaints != []
      ensures emptyVisible == Visible <==> filteredComplaints == []
      ensures shownItems == if filteredComplaints == [] then old(shownItems) else filteredComplaints
    {
      filteredComplaints := SearchFilter(allComplaints, query);
      NarrowingsAreSubsequences(allComplaints, None, query);
      UpdateUI();
    }

    /** A change of the checked chips: only the first checked chip counts;
        no checked chip, or one the screen does not know, changes nothing. */
    method OnChipsChanged(checked: seq<Chip>)
      requires Valid()
      modifies this
      ensures Valid()
      ensures checked != [] && ChipStatus(checked[0]).Some? ==>
                && filteredComplaints == StatusFilter(allComplaints, ChipStatus(checked[0]).value)
                && (listVisible == Visible <==> filteredComplaints != [])
                && (emptyVisible == Visible <==> filteredComplaints == [])
                && shownItems == (if filteredComplaints == [] then old(shownItems) else filteredComplaints)
      ensures checked == [] || ChipStatus(checked[0]).None? ==>
                filteredComplaints == old(filteredComplaints) && listVisible == old(listVisible)
                && emptyVisible == old(emptyVisible) && shownItems == old(shownItems)
      ensures allComplaints == old(allComplaints) && progressVisible == old(progressVisible)
    {
      if checked != [] {
        var choice := ChipStatus(checked[0]);
        if choice.Some? {
          FilterByStatus(choice.value);
        }
      }
    }
  }

  /** `navigateToDetail` as written: the detail screen is opened with the
      complaint's id under "complaint_id". */
  function ItemClick(c: Complaint): (t: Transition)
    ensures t.Open? && t.target == ComplaintDetail && t.addToBackStack
    ensures t.args.Keys == {"complaint_id"} && GetString(t.args, "complaint_id") == Some(c.id)
  {
    Open(ComplaintDetail, map["complaint_id" := StrArg(c.id)], true)
  }

  /** The detail screen reads only a parcelled "issue", so a tapped
      complaint opens a detail screen that shows nothing of it. */
  lemma TappedComplaintNotShown(c: Complaint)
    ensures ComplaintDetail.ShownIssue(ItemClick(c).args) == None
  {
  }

  /** The detail screen opened with the complaint's projection parcelled
      under the key it reads; `createdAt` is the complaint's parsed date. */
  function ItemClickFixed(c: Complaint, createdAt: int): (t: Transition)
    ensures t.Open? && t.target == ComplaintDetail && t.addToBackStack
    ensures ComplaintDetail.ShownIssue(t.args) == Some(ToIssue(c, createdAt))
  {
    Open(ComplaintDetail, map["issue" := IssueArg(ToIssue(c, createdAt))], true)
  }

  /** With the fix the detail screen shows the tapped complaint: its id,
      title, status and address. */
  lemma TappedComplaintShown(c: Complaint, createdAt: int)
    ensures var shown := ComplaintDetail.ShownIssue(ItemClickFixed(c, createdAt).args);
            && shown.Some? && shown.value.id == c.id && shown.value.title == c.title
            && shown.value.status == c.status && shown.value.location == c.location.address
  {
  }
}
