/** The domain types shared by the stores and the pages: roles and the
    session user, borrowers, the three-bucket pipeline, broker records and
    the tab names of the pipeline panel. */
module Types {
  import opened Wrappers

  /** The closed role enumeration of the session user. */
  datatype Role = Admin | Broker | Analyst | Viewer

  /** Every role, in the order the login form and the dashboard route list them. */
  const AllRoles: seq<Role> := [Admin, Broker, Analyst, Viewer]

  /** The wire name of a role, as the role select and the route table spell it. */
  function RoleName(role: Role): string
  {
    match role
    case Admin => "ADMIN"
    case Broker => "BROKER"
    case Analyst => "ANALYST"
    case Viewer => "VIEWER"
  }

  /** Reads a role name back; anything outside the enumeration is rejected. */
  function ParseRole(s: string): (r: Option<Role>)
    ensures r.Some? ==> RoleName(r.value) == s
    ensures r.None? ==> forall role :: RoleName(role) != s
  {
    if s == "ADMIN" then Some(Admin)
    else if s == "BROKER" then Some(Broker)
    else if s == "ANALYST" then Some(Analyst)
    else if s == "VIEWER" then Some(Viewer)
    else None
  }

  lemma ParseRoleName(role: Role)
    ensures ParseRole(RoleName(role)) == Some(role)
  {
  }

  lemma AllRolesComplete(role: Role)
    ensures role in AllRoles
  {
  }

  /** The logged-in user; `token` is never set by this application. */
  datatype User = User(id: string, name: string, role: Role, token: Option<string>)

  /** The four borrower statuses of the type definition. */
  datatype Status = New | InReview | Approved | Renew

  /** The display string of a status, as carried in a borrower record. */
  function StatusLabel(status: Status): string
  {
    match status
    case New => "New"
    case InReview => "In Review"
    case Approved => "Approved"
    case Renew => "Renew"
  }

  /** A borrower record; JavaScript numbers are modelled as integers and the
      optional fields as options (`null` and `undefined` collapse to None). */
  datatype Borrower = Borrower(
    id: string,
    name: string,
    loanType: string,
    amount: int,
    status: Status,
    email: Option<string>,
    phone: Option<string>,
    employment: Option<string>,
    income: Option<int>,
    existingLoan: Option<int>,
    creditScore: Option<int>,
    sourceOfFunds: Option<string>,
    riskSignal: Option<string>,
    aiFlags: Option<seq<string>>)

  /** The three ordered buckets of the pipeline ("new", "in_review", "approved"). */
  datatype Pipeline = Pipeline(newBorrowers: seq<Borrower>, inReview: seq<Borrower>, approved: seq<Borrower>)

  const EmptyPipeline: Pipeline := Pipeline([], [], [])

  datatype BrokerInfo = BrokerInfo(name: string, deals: int, approvalRate: string, pending: int)

  datatype OnboardingWorkflow = OnboardingWorkflow(steps: seq<string>)

  /** The tab values. The active tab is kept as a plain string because the
      tab strip hands back whatever string its trigger carries. */
  const TabNew: string := "new"
  const TabInReview: string := "in_review"
  const TabApproved: string := "approved"

  predicate IsTabType(tab: string)
  {
    tab == TabNew || tab == TabInReview || tab == TabApproved
  }
}
