/** The application store: theme, pipeline, selection, active tab, broker
    record and onboarding workflow, each replaced whole by its own action. */
module AppStore {
  import opened Wrappers
  import opened Types

  datatype Theme = Light | Dark

  /** The value of every state field of the store at one moment. */
  datatype AppState = AppState(
    theme: Theme,
    borrowerPipeline: Pipeline,
    selectedBorrower: Option<Borrower>,
    activeTab: string,
    brokerInfo: Option<BrokerInfo>,
    onboardingWorkflow: Option<OnboardingWorkflow>)

  const InitialState: AppState := AppState(Light, EmptyPipeline, None, TabNew, None, None)

  /** Names of the state fields, so that an action's footprint can be stated. */
  datatype Field = ThemeField | PipelineField | SelectionField | TabField | BrokerInfoField | WorkflowField

  /** Every action the store exposes. */
  datatype Action =
    | ToggleTheme
    | SetActiveTab(tab: string)
    | SetSelectedBorrower(borrower: Option<Borrower>)
    | SetBorrowerPipeline(pipeline: Pipeline)
    | SetBrokerInfo(info: BrokerInfo)
    | SetOnboardingWorkflow(workflow: OnboardingWorkflow)
    | RequestDocuments(borrowerId: string)
    | SendToValuer(borrowerId: string)
    | ApproveLoan(borrowerId: string)
    | EscalateToCommittee(borrowerId: string)

  predicate IsSetter(a: Action)
  {
    a.SetActiveTab? || a.SetSelectedBorrower? || a.SetBorrowerPipeline? || a.SetBrokerInfo? || a.SetOnboardingWorkflow?
  }

  /** The four mock workflow commands. */
  predicate IsWorkflowCommand(a: Action)
  {
    a.RequestDocuments? || a.SendToValuer? || a.ApproveLoan? || a.EscalateToCommittee?
  }

  /** The fields an action is allowed to write. */
  function Touches(a: Action): set<Field>
  {
    match a
    case ToggleTheme => {ThemeField}
    case SetActiveTab(_) => {TabField}
    case SetSelectedBorrower(_) => {SelectionField}
    case SetBorrowerPipeline(_) => {PipelineField}
    case SetBrokerInfo(_) => {BrokerInfoField}
    case SetOnboardingWorkflow(_) => {WorkflowField}
    case RequestDocuments(_) => {}
    case SendToValuer(_) => {}
    case ApproveLoan(_) => {}
    case EscalateToCommittee(_) => {}
  }

  /** Two states hold the same value in field `f`. */
  predicate Agree(s: AppState, t: AppState, f: Field)
  {
    match f
    case ThemeField => s.theme == t.theme
    case PipelineField => s.borrowerPipeline == t.borrowerPipeline
    case SelectionField => s.selectedBorrower == t.selectedBorrower
    case TabField => s.activeTab == t.activeTab
    case BrokerInfoField => s.brokerInfo == t.brokerInfo
    case WorkflowField => s.onboardingWorkflow == t.onboardingWorkflow
  }

  /** The theme after a toggle: light becomes dark and anything else light. */
  function Flipped(theme: Theme): (r: Theme)
    ensures r != theme
  {
    if theme == Light then Dark else Light
  }

  /** The effect of one action. Every field outside the action's footprint
      keeps its value; a setter stores its argument; a toggle flips the theme. */
  function Apply(s: AppState, a: Action): (r: AppState)
    ensures forall f :: f !in Touches(a) ==> Agree(s, r, f)
    ensures a.ToggleTheme? ==> r.theme != s.theme
    ensures a.SetActiveTab? ==> r.activeTab == a.tab
    ensures a.SetSelectedBorrower? ==> r.selectedBorrower == a.borrower
    ensures a.SetBorrowerPipeline? ==> r.borrowerPipeline == a.pipeline
    ensures a.SetBrokerInfo? ==> r.brokerInfo == Some(a.info)
    ensures a.SetOnboardingWorkflow? ==> r.onboardingWorkflow == Some(a.workflow)
  {
    match a
    case ToggleTheme => s.(theme := Flipped(s.theme))
    case SetActiveTab(tab) => s.(activeTab := tab)
    case SetSelectedBorrower(b) => s.(selectedBorrower := b)
    case SetBorrowerPipeline(p) => s.(borrowerPipeline := p)
    case SetBrokerInfo(info) => s.(brokerInfo := Some(info))
    case SetOnboardingWorkflow(w) => s.(onboardingWorkflow := Some(w))
    case RequestDocuments(_) => s
    case SendToValuer(_) => s
    case ApproveLoan(_) => s
    case EscalateToCommittee(_) => s
  }

  /** The effect of a sequence of actions, first to last. */
  function Run(s: AppState, acts: seq<Action>): AppState
    decreases |acts|
  {
    if |acts| == 0 then s else Run(Apply(s, acts[0]), acts[1..])
  }

  /** Toggling the theme twice restores the original state. */
  lemma ToggleTwiceRestores(s: AppState)
    ensures Apply(Apply(s, ToggleTheme), ToggleTheme) == s
  {
  }

  /** Setters are last-write-wins: two writes to one field equal the second. */
  lemma LastWriteWins(s: AppState, a: Action, b: Action)
    requires IsSetter(a) && IsSetter(b) && Touches(a) == Touches(b)
    ensures Apply(Apply(s, a), b) == Apply(s, b)
  {
  }

  /** Setters of different fields do not interfere, in either order. */
  lemma DistinctSettersCommute(s: AppState, a: Action, b: Action)
    requires IsSetter(a) && IsSetter(b) && Touches(a) !! Touches(b)
    ensures Apply(Apply(s, a), b) == Apply(Apply(s, b), a)
  {
  }

  /** A field that no action of a sequence touches keeps its value. */
  lemma {:induction false} RunKeepsUntouched(s: AppState, acts: seq<Action>, f: Field)
    requires forall i :: 0 <= i < |acts| ==> f !in Touches(acts[i])
    ensures Agree(s, Run(s, acts), f)
    decreases |acts|
  {
    if |acts| > 0 {
      var t := Apply(s, acts[0]);
      RunKeepsUntouched(t, acts[1..], f);
      assert Agree(t, Run(t, acts[1..]), f);
    }
  }

  /** Any sequence of workflow commands leaves the whole state as it was; in
      particular no borrower moves between pipeline buckets. */
  lemma {:induction false} WorkflowCommandsChangeNothing(s: AppState, acts: seq<Action>)
    requires forall i :: 0 <= i < |acts| ==> IsWorkflowCommand(acts[i])
    ensures Run(s, acts) == s
    decreases |acts|
  {
    if |acts| > 0 {
      WorkflowCommandsChangeNothing(s, acts[1..]);
    }
  }

  /** Tab switches, however many, leave the selection and the pipeline alone. */
  lemma TabSwitchesKeepSelectionAndPipeline(s: AppState, acts: seq<Action>)
    requires forall i :: 0 <= i < |acts| ==> acts[i].SetActiveTab?
    ensures Run(s, acts).selectedBorrower == s.selectedBorrower
    ensures Run(s, acts).borrowerPipeline == s.borrowerPipeline
  {
    RunKeepsUntouched(s, acts, SelectionField);
    RunKeepsUntouched(s, acts, PipelineField);
  }

  /** The store object; each method performs one action on its fields. */
  class Store {
    var theme: Theme
    var borrowerPipeline: Pipeline
    var selectedBorrower: Option<Borrower>
    var activeTab: string
    var brokerInfo: Option<BrokerInfo>
    var onboardingWorkflow: Option<OnboardingWorkflow>

    function Snapshot(): AppState
      reads this
    {
      AppState(theme, borrowerPipeline, selectedBorrower, activeTab, brokerInfo, onboardingWorkflow)
    }

    /** Light theme, empty buckets, nothing selected, the "new" tab, no
        broker record and no workflow. */
    constructor()
      ensures Snapshot() == InitialState
    {
      theme := Light;
      borrowerPipeline := EmptyPipeline;
      selectedBorrower := None;
      activeTab := TabNew;
      brokerInfo := None;
      onboardingWorkflow := None;
    }

    method ToggleTheme()
      modifies this
      ensures Snapshot() == Apply(old(Snapshot()), Action.ToggleTheme)
    {
      var newTheme := if theme == Light then Dark else Light;
      theme := newTheme;
    }

    method SetActiveTab(tab: string)
      modifies this
      ensures Snapshot() == Apply(old(Snapshot()), Action.SetActiveTab(tab))
    {
      activeTab := tab;
    }

    method SetSelectedBorrower(borrower: Option<Borrower>)
      modifies this
      ensures Snapshot() == Apply(old(Snapshot()), Action.SetSelectedBorrower(borrower))
    {
      selectedBorrower := borrower;
    }

    method SetBorrowerPipeline(pipeline: Pipeline)
      modifies this
      ensures Snapshot() == Apply(old(Snapshot()), Action.SetBorrowerPipeline(pipeline))
    {
      borrowerPipeline := pipeline;
    }

    method SetBrokerInfo(info: BrokerInfo)
      modifies this
      ensures Snapshot() == Apply(old(Snapshot()), Action.SetBrokerInfo(info))
    {
      brokerInfo := Some(info);
    }

    method SetOnboardingWorkflow(workflow: OnboardingWorkflow)
      modifies this
      ensures Snapshot() == Apply(old(Snapshot()), Action.SetOnboardingWorkflow(workflow))
    {
      onboardingWorkflow := Some(workflow);
    }

    /** The four workflow commands only log and wait; they write no field. */
    method RequestDocuments(borrowerId: string)
      ensures Snapshot() == Apply(old(Snapshot()), Action.RequestDocuments(borrowerId))
    {
    }

    method SendToValuer(borrowerId: string)
      ensures Snapshot() == Apply(old(Snapshot()), Action.SendToValuer(borrowerId))
    {
    }

    method ApproveLoan(borrowerId: string)
      ensures Snapshot() == Apply(old(Snapshot()), Action.ApproveLoan(borrowerId))
    {
    }

    method EscalateToCommittee(borrowerId: string)
      ensures Snapshot() == Apply(old(Snapshot()), Action.EscalateToCommittee(borrowerId))
    {
    }
  }
}
