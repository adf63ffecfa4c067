/** The schemes page: reviewing an application (approve or reject), the per-status tabs, the
    row controls offered for each status, and the statistic cards. */
module Schemes {
  import opened Wrappers
  import opened Seqs
  import opened MockData

  datatype Action = Approve | Reject

  /** `actionScheme`: the application and the action awaiting confirmation. */
  datatype PendingAction = PendingAction(scheme: Scheme, action: Action)

  const Reviewer := "अमित शर्मा"
  const ApprovedRemark := "सभी दस्तावेज़ सत्यापित और अनुमोदित"
  const RejectedRemark := "दस्तावेज़ में कमी या अपूर्ण जानकारी"

  /** The status an action leads to. */
  function Outcome(action: Action): (s: SchemeStatus)
    ensures s != Pending
    ensures s == Approved <==> action == Approve
  {
    if action == Approve then Approved else Rejected
  }

  /** The reviewed application: status, reviewer, review date and remark set; the rest kept.
      `today` stands for `new Date().toISOString().split('T')[0]`. */
  function Reviewed(s: Scheme, action: Action, today: string): (r: Scheme)
    ensures r.status == Outcome(action)
    ensures r.reviewedBy == Some(Reviewer) && r.reviewDate == Some(today)
    ensures r.remarks == Some(if action == Approve then ApprovedRemark else RejectedRemark)
    ensures r.id == s.id && r.applicantName == s.applicantName && r.employeeId == s.employeeId
    ensures r.schemeName == s.schemeName && r.appliedDate == s.appliedDate
    ensures r.documents == s.documents && r.amount == s.amount
  {
    s.(status := Outcome(action), reviewedBy := Some(Reviewer), reviewDate := Some(today),
       remarks := Some(if action == Approve then ApprovedRemark else RejectedRemark))
  }

  /** `schemes.map(...)` in `confirmSchemeAction`: every application with the id is reviewed. */
  function ApplyReview(schemes: seq<Scheme>, id: string, action: Action, today: string): (r: seq<Scheme>)
    ensures |r| == |schemes|
    ensures forall i :: 0 <= i < |r| && schemes[i].id != id ==> r[i] == schemes[i]
    ensures forall i :: 0 <= i < |r| && schemes[i].id == id ==> r[i] == Reviewed(schemes[i], action, today)
  {
    seq(|schemes|, i requires 0 <= i < |schemes| =>
      if schemes[i].id == id then Reviewed(schemes[i], action, today) else schemes[i])
  }

  predicate UniqueIds(schemes: seq<Scheme>)
  {
    forall i, j :: 0 <= i < |schemes| && 0 <= j < |schemes| && schemes[i].id == schemes[j].id ==> i == j
  }

  /** With unique ids, a review replaces exactly the one application at its position. */
  lemma ApplyReviewSplices(schemes: seq<Scheme>, k: nat, action: Action, today: string)
    requires k < |schemes| && UniqueIds(schemes)
    ensures ApplyReview(schemes, schemes[k].id, action, today)
         == schemes[..k] + [Reviewed(schemes[k], action, today)] + schemes[k + 1..]
  {
    var r := ApplyReview(schemes, schemes[k].id, action, today);
    var t := schemes[..k] + [Reviewed(schemes[k], action, today)] + schemes[k + 1..];
    assert |r| == |t|;
    forall i | 0 <= i < |r|
      ensures r[i] == t[i]
    {
      if i != k {
        assert schemes[i].id != schemes[k].id;
      }
    }
  }

  /** `getTabData`: the live applications whose status is the active tab's, in order. */
  function TabData(schemes: seq<Scheme>, tab: SchemeStatus): (r: seq<Scheme>)
    ensures IsSubsequence(r, schemes)
    ensures forall s :: s in r ==> s.status == tab
    ensures forall i :: 0 <= i < |schemes| && schemes[i].status == tab ==> schemes[i] in r
  {
    Filter(schemes, (s: Scheme) => s.status == tab)
  }

  /** The three tabs together hold every application once. */
  lemma {:induction false} TabsPartition(schemes: seq<Scheme>)
    ensures |TabData(schemes, Pending)| + |TabData(schemes, Approved)| + |TabData(schemes, Rejected)| == |schemes|
  {
    if schemes != [] {
      TabsPartition(schemes[1..]);
    }
  }

  /** The tab sizes after replacing one application by another. */
  lemma TabSizesAfterReplace(pre: seq<Scheme>, x: Scheme, y: Scheme, post: seq<Scheme>, tab: SchemeStatus)
    ensures |TabData(pre + [y] + post, tab)| + (if x.status == tab then 1 else 0)
         == |TabData(pre + [x] + post, tab)| + (if y.status == tab then 1 else 0)
  {
    var p := (s: Scheme) => s.status == tab;
    FilterAppend(pre, [x], p);
    FilterAppend(pre + [x], post, p);
    FilterAppend(pre, [y], p);
    FilterAppend(pre + [y], post, p);
    assert [x][1..] == [] && [y][1..] == [];
  }

  /** Reviewing a pending application moves it from the pending tab to the outcome's tab and
      leaves the third tab as it was. */
  lemma ReviewMovesTab(schemes: seq<Scheme>, k: nat, action: Action, today: string)
    requires k < |schemes| && UniqueIds(schemes) && schemes[k].status == Pending
    ensures var r := ApplyReview(schemes, schemes[k].id, action, today);
      |TabData(r, Pending)| == |TabData(schemes, Pending)| - 1
      && |TabData(r, Outcome(action))| == |TabData(schemes, Outcome(action))| + 1
      && |TabData(r, Outcome(if action == Approve then Reject else Approve))|
         == |TabData(schemes, Outcome(if action == Approve then Reject else Approve))|
  {
    ApplyReviewSplices(schemes, k, action, today);
    var y := Reviewed(schemes[k], action, today);
    assert schemes == schemes[..k] + [schemes[k]] + schemes[k + 1..];
    TabSizesAfterReplace(schemes[..k], schemes[k], y, schemes[k + 1..], Pending);
    TabSizesAfterReplace(schemes[..k], schemes[k], y, schemes[k + 1..], Approved);
    TabSizesAfterReplace(schemes[..k], schemes[k], y, schemes[k + 1..], Rejected);
  }

  /** The controls a table row offers. */
  datatype RowControls = RowControls(view: bool, approveReject: bool, download: bool)

  function ControlsFor(s: Scheme): (c: RowControls)
    ensures c.view
    ensures c.approveReject <==> s.status == Pending
    ensures c.download <==> s.status == Approved || s.status == Rejected
  {
    RowControls(true, s.status == Pending, s.status == Approved || s.status == Rejected)
  }

  /** A row offers either the review controls or the download control, never both. */
  lemma ReviewOrDownload(s: Scheme)
    ensures ControlsFor(s).approveReject != ControlsFor(s).download
  {
  }

  /** A reviewed application offers only the download control. */
  lemma ReviewedOffersDownload(s: Scheme, action: Action, today: string)
    ensures ControlsFor(Reviewed(s, action, today)) == RowControls(true, false, true)
  {
  }

  // ---------------------------------------------------------------- statistic cards

  /** The seed's applications with a status are the rows that status's tab lists on the seed. */
  lemma SeedTabIsTab(tab: SchemeStatus)
    ensures GetSchemesByStatus(tab) == TabData(MockSchemes, tab)
  {
    FilterCongruent(MockSchemes, StatusIs(tab), (s: Scheme) => s.status == tab);
  }

  /** The tab badges and the status cards count the seed applications, not the live ones: each is
      the size of its tab on the seed list. */
  function TabCount(tab: SchemeStatus): (n: nat)
    ensures n == |TabData(MockSchemes, tab)|
    ensures n <= |MockSchemes|
  {
    SeedTabIsTab(tab);
    |GetSchemesByStatus(tab)|
  }

  /** The three badges add up to the seed's applications. */
  lemma TabCountsAddUp()
    ensures TabCount(Pending) + TabCount(Approved) + TabCount(Rejected) == |MockSchemes|
  {
    TabsPartition(MockSchemes);
  }

  function Amount(s: Scheme): int
  {
    s.amount
  }

  /** Every seed application asks for a non-negative amount. */
  lemma SeedAmountsNonNegative()
    ensures forall i :: 0 <= i < |MockSchemes| ==> Amount(MockSchemes[i]) >= 0
  {
    assert Amount(Scheme1) >= 0 && Amount(Scheme2) >= 0 && Amount(Scheme3) >= 0 && Amount(Scheme4) >= 0;
  }

  /** The "Total Amount" card: the sum of the amounts of the approved tab's rows on the seed,
      which is never more than the seed asks for in all. */
  function ApprovedTotal(): (t: int)
    ensures t == Sum(TabData(MockSchemes, Approved), Amount)
    ensures 0 <= t <= Sum(MockSchemes, Amount)
  {
    SeedTabIsTab(Approved);
    SeedAmountsNonNegative();
    SumFilterBounds(MockSchemes, StatusIs(Approved), Amount);
    Sum(GetSchemesByStatus(Approved), Amount)
  }

  lemma SeedPendingTab()
    ensures GetSchemesByStatus(Pending) == [MockSchemes[0], MockSchemes[3]]
  {
    FilterOfFour(MockSchemes, StatusIs(Pending));
  }

  lemma SeedApprovedTab()
    ensures GetSchemesByStatus(Approved) == [MockSchemes[1]]
  {
    FilterOfFour(MockSchemes, StatusIs(Approved));
  }

  lemma SeedRejectedTab()
    ensures GetSchemesByStatus(Rejected) == [MockSchemes[2]]
  {
    FilterOfFour(MockSchemes, StatusIs(Rejected));
  }

  /** The three tabs on the seed. */
  lemma SeedTabs()
    ensures GetSchemesByStatus(Pending) == [MockSchemes[0], MockSchemes[3]]
    ensures GetSchemesByStatus(Approved) == [MockSchemes[1]]
    ensures GetSchemesByStatus(Rejected) == [MockSchemes[2]]
  {
    SeedPendingTab();
    SeedApprovedTab();
    SeedRejectedTab();
  }

  /** On the seed: two pending, one approved, one rejected, and 25000 approved. */
  lemma SeedCardsScenario()
    ensures TabCount(Pending) == 2 && TabCount(Approved) == 1 && TabCount(Rejected) == 1
    ensures ApprovedTotal() == 25000
  {
    SeedTabs();
    assert Amount(MockSchemes[1]) == 25000;
    assert [MockSchemes[1]][1..] == [];
  }

  /** After approving application "1", the live pending tab lists one application while its
      badge still says two. */
  lemma StaleBadgeScenario(today: string)
    ensures |TabData(ApplyReview(MockSchemes, "1", Approve, today), Pending)| == 1
    ensures TabCount(Pending) == 2
  {
    var ss := MockSchemes;
    assert ss[0].id == "1" && ss[1].id == "2" && ss[2].id == "3" && ss[3].id == "4";
    assert UniqueIds(ss);
    SeedTabs();
    assert TabData(ss, Pending) == GetSchemesByStatus(Pending);
    ReviewMovesTab(ss, 0, Approve, today);
  }

  // ---------------------------------------------------------------- page state

  class SchemesPage {
    var activeTab: SchemeStatus
    var schemes: seq<Scheme>
    var showConfirmDialog: bool
    var actionScheme: Option<PendingAction>
    var viewingScheme: Option<Scheme>

    constructor ()
      ensures activeTab == Pending && schemes == MockSchemes && !showConfirmDialog
      ensures actionScheme.None? && viewingScheme.None?
    {
      activeTab := Pending;
      schemes := MockSchemes;
      showConfirmDialog := false;
      actionScheme := None;
      viewingScheme := None;
    }

    /** The rows of the active tab. */
    function TabRows(): seq<Scheme>
      reads this
    {
      TabData(schemes, activeTab)
    }

    /** `handleSchemeAction`: remember the application and action, open the dialog. */
    method HandleSchemeAction(s: Scheme, action: Action)
      modifies this
      ensures actionScheme == Some(PendingAction(s, action)) && showConfirmDialog
      ensures schemes == old(schemes) && activeTab == old(activeTab) && viewingScheme == old(viewingScheme)
    {
      actionScheme := Some(PendingAction(s, action));
      showConfirmDialog := true;
    }

    /** A row's approve or reject button, rendered only for pending rows. */
    method ClickRowAction(s: Scheme, action: Action)
      requires ControlsFor(s).approveReject
      modifies this
      ensures actionScheme == Some(PendingAction(s, action)) && showConfirmDialog
      ensures schemes == old(schemes) && activeTab == old(activeTab) && viewingScheme == old(viewingScheme)
    {
      HandleSchemeAction(s, action);
    }

    /** `confirmSchemeAction`: with an action pending, review every application with its id;
        then forget the action. */
    method ConfirmSchemeAction(today: string)
      modifies this
      ensures old(actionScheme).None? ==> schemes == old(schemes)
      ensures old(actionScheme).Some? ==>
        schemes == ApplyReview(old(schemes), old(actionScheme).value.scheme.id, old(actionScheme).value.action, today)
      ensures actionScheme.None?
      ensures activeTab == old(activeTab) && viewingScheme == old(viewingScheme)
      ensures showConfirmDialog == old(showConfirmDialog)
    {
      if actionScheme.None? {
        return;
      }
      var updatedSchemes := ApplyReview(schemes, actionScheme.value.scheme.id, actionScheme.value.action, today);
      schemes := updatedSchemes;
      actionScheme := None;
    }

    /** A tab button. */
    method SetActiveTab(tab: SchemeStatus)
      modifies this
      ensures activeTab == tab
      ensures schemes == old(schemes) && actionScheme == old(actionScheme)
      ensures viewingScheme == old(viewingScheme) && showConfirmDialog == old(showConfirmDialog)
    {
      activeTab := tab;
    }

    /** A row's view button opens the details modal. */
    method ViewScheme(s: Scheme)
      modifies this
      ensures viewingScheme == Some(s)
      ensures schemes == old(schemes) && actionScheme == old(actionScheme)
      ensures activeTab == old(activeTab) && showConfirmDialog == old(showConfirmDialog)
    {
      viewingScheme := Some(s);
    }

    /** The details modal's close buttons. */
    method CloseView()
      modifies this
      ensures viewingScheme.None?
      ensures schemes == old(schemes) && actionScheme == old(actionScheme)
      ensures activeTab == old(activeTab) && showConfirmDialog == old(showConfirmDialog)
    {
      viewingScheme := None;
    }

    /** The details modal's approve or reject button, shown only for a pending application:
        raise the action and close the modal. */
    method ReviewFromDetails(action: Action)
      requires viewingScheme.Some? && viewingScheme.value.status == Pending
      modifies this
      ensures actionScheme == Some(PendingAction(old(viewingScheme).value, action)) && showConfirmDialog
      ensures viewingScheme.None?
      ensures schemes == old(schemes) && activeTab == old(activeTab)
    {
      HandleSchemeAction(viewingScheme.value, action);
      viewingScheme := None;
    }

    /** The dialog's `onClose`. */
    method CloseConfirmDialog()
      modifies this
      ensures !showConfirmDialog
      ensures schemes == old(schemes) && actionScheme == old(actionScheme)
      ensures activeTab == old(activeTab) && viewingScheme == old(viewingScheme)
    {
      showConfirmDialog := false;
    }
  }
}
