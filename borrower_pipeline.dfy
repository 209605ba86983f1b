/** The decision logic of the borrower pipeline panel: which bucket a tab
    shows, which card is highlighted, the badge colour of a status, and how
    the mount-time fetch and a card click change the selection. */
module BorrowerPipeline {
  import opened Wrappers
  import opened Types
  import opened AppStore

  /** The borrowers a tab lists; a value outside the three tabs lists none. */
  function BorrowersByTab(p: Pipeline, tab: string): (r: seq<Borrower>)
    ensures tab == TabNew ==> r == p.newBorrowers
    ensures tab == TabInReview ==> r == p.inReview
    ensures tab == TabApproved ==> r == p.approved
    ensures !IsTabType(tab) ==> r == []
  {
    if tab == TabNew then p.newBorrowers
    else if tab == TabInReview then p.inReview
    else if tab == TabApproved then p.approved
    else []
  }

  /** Every borrower of the pipeline, bucket by bucket. */
  function AllBorrowers(p: Pipeline): seq<Borrower>
  {
    p.newBorrowers + p.inReview + p.approved
  }

  /** The three tabs together cover exactly the pipeline, and any tab lists
      only borrowers of the pipeline. Nothing keeps one id out of two buckets. */
  lemma TabsCoverPipeline(p: Pipeline, tab: string)
    ensures BorrowersByTab(p, TabNew) + BorrowersByTab(p, TabInReview) + BorrowersByTab(p, TabApproved) == AllBorrowers(p)
    ensures forall b :: b in BorrowersByTab(p, tab) ==> b in AllBorrowers(p)
  {
  }

  /** The approved tab shows its "No approved borrowers" placeholder. */
  function ShowsNoApprovedPlaceholder(p: Pipeline): (r: bool)
    ensures r <==> p.approved == []
  {
    |BorrowersByTab(p, TabApproved)| == 0
  }

  /** A card is highlighted when a borrower is selected and the ids match. */
  function IsSelected(selected: Option<Borrower>, card: Borrower): (r: bool)
    ensures selected.None? ==> !r
    ensures selected.Some? ==> (r <==> selected.value.id == card.id)
  {
    selected.Some? && selected.value.id == card.id
  }

  predicate DistinctIds(bucket: seq<Borrower>)
  {
    forall i, j :: 0 <= i < j < |bucket| ==> bucket[i].id != bucket[j].id
  }

  /** In a bucket whose ids are distinct, at most one card is highlighted. */
  lemma AtMostOneCardSelected(bucket: seq<Borrower>, selected: Option<Borrower>)
    requires DistinctIds(bucket)
    ensures forall i, j ::
              0 <= i < |bucket| && 0 <= j < |bucket| && IsSelected(selected, bucket[i]) && IsSelected(selected, bucket[j])
              ==> i == j
  {
  }

  /** ASCII lower-casing of one character. */
  function LowerChar(c: char): char
  {
    if 'A' <= c <= 'Z' then (c as int + 32) as char else c
  }

  /** `String.prototype.toLowerCase`, restricted to ASCII letters. */
  function ToLower(s: string): (r: string)
    ensures |r| == |s|
    ensures forall i :: 0 <= i < |s| ==> r[i] == LowerChar(s[i])
  {
    if |s| == 0 then [] else [LowerChar(s[0])] + ToLower(s[1..])
  }

  lemma ToLowerIdempotent(s: string)
    ensures ToLower(ToLower(s)) == ToLower(s)
  {
  }

  /** The badge colours; each stands for one Tailwind class string. */
  datatype BadgeColour = Blue | Yellow | Green | Purple | Gray

  /** The badge colour of a status string, compared after lower-casing;
      anything that is not one of the four statuses is gray. */
  function StatusColor(status: string): (c: BadgeColour)
    ensures c == Blue <==> ToLower(status) == "new"
    ensures c == Yellow <==> ToLower(status) == "in review"
    ensures c == Green <==> ToLower(status) == "approved"
    ensures c == Purple <==> ToLower(status) == "renew"
  {
    var key := ToLower(status);
    if key == "new" then Blue
    else if key == "in review" then Yellow
    else if key == "approved" then Green
    else if key == "renew" then Purple
    else Gray
  }

  /** Case does not matter: a status and its lower-cased form get one colour. */
  lemma StatusColorIgnoresCase(status: string)
    ensures StatusColor(ToLower(status)) == StatusColor(status)
  {
    ToLowerIdempotent(status);
  }

  /** The colour intended for each status of a borrower record. */
  function ColourOf(status: Status): BadgeColour
  {
    match status
    case New => Blue
    case InReview => Yellow
    case Approved => Green
    case Renew => Purple
  }

  /** Every status a borrower record can carry gets its own colour, never gray. */
  lemma StatusLabelColour(status: Status)
    ensures StatusColor(StatusLabel(status)) == ColourOf(status)
    ensures StatusColor(StatusLabel(status)) != Gray
  {
  }

  /** The selection after the mount-time fetch: when nothing was selected
      when the panel mounted and the "new" bucket is non-empty, the detail
      of its first borrower is selected if the lookup finds one. */
  function MountSelection(selectedAtMount: Option<Borrower>, fetched: Pipeline,
                          detail: string -> Option<Borrower>): (r: Option<Borrower>)
    ensures selectedAtMount.Some? ==> r == selectedAtMount
    ensures r != selectedAtMount <==>
      selectedAtMount.None? && |fetched.newBorrowers| > 0 && detail(fetched.newBorrowers[0].id).Some?
    ensures r != selectedAtMount ==> r == detail(fetched.newBorrowers[0].id)
  {
    if selectedAtMount.None? && |fetched.newBorrowers| > 0 then
      var first := detail(fetched.newBorrowers[0].id);
      if first.Some? then first else selectedAtMount
    else selectedAtMount
  }

  /** The selection after clicking a card: replaced by the card's detail
      when the lookup finds one, otherwise kept. */
  function ClickSelection(selected: Option<Borrower>, clicked: Borrower,
                          detail: string -> Option<Borrower>): (r: Option<Borrower>)
    ensures detail(clicked.id).Some? ==> r == detail(clicked.id)
    ensures detail(clicked.id).None? ==> r == selected
  {
    var full := detail(clicked.id);
    if full.Some? then full else selected
  }

  /** When the lookup returns the clicked borrower's own record, the clicked
      card becomes the highlighted one. */
  lemma ClickHighlightsCard(selected: Option<Borrower>, clicked: Borrower,
                            detail: string -> Option<Borrower>)
    requires detail(clicked.id).Some? && detail(clicked.id).value.id == clicked.id
    ensures IsSelected(ClickSelection(selected, clicked, detail), clicked)
  {
  }

  /** The mount effect: store the fetched pipeline, then auto-select. */
  method FetchPipeline(store: Store, fetched: Pipeline, detail: string -> Option<Borrower>)
    modifies store
    ensures store.Snapshot() == old(store.Snapshot()).(
      borrowerPipeline := fetched,
      selectedBorrower := MountSelection(old(store.selectedBorrower), fetched, detail))
  {
    var selectedAtMount := store.selectedBorrower;
    store.SetBorrowerPipeline(fetched);
    if selectedAtMount.None? && |fetched.newBorrowers| > 0 {
      var firstBorrower := detail(fetched.newBorrowers[0].id);
      if firstBorrower.Some? {
        store.SetSelectedBorrower(firstBorrower);
      }
    }
  }

  /** A card click: look the borrower up and select the result if any. */
  method HandleBorrowerClick(store: Store, borrower: Borrower, detail: string -> Option<Borrower>)
    modifies store
    ensures store.Snapshot() == old(store.Snapshot()).(
      selectedBorrower := ClickSelection(old(store.selectedBorrower), borrower, detail))
  {
    var fullBorrower := detail(borrower.id);
    if fullBorrower.Some? {
      store.SetSelectedBorrower(fullBorrower);
    }
  }

  /** A fresh store whose first fetch has a single new borrower selects
      that borrower's detail and lists it under the default tab. */
  method FirstMountSelectsFirstNewBorrower(b1: Borrower, d: Borrower, detail: string -> Option<Borrower>)
    returns (shown: seq<Borrower>, selection: Option<Borrower>)
    requires detail(b1.id) == Some(d)
    ensures shown == [b1]
    ensures selection == Some(d)
  {
    var store := new Store();
    FetchPipeline(store, Pipeline([b1], [], []), detail);
    shown := BorrowersByTab(store.borrowerPipeline, store.activeTab);
    selection := store.selectedBorrower;
  }
}
