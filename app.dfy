/** The application shell (src/App.tsx): which top-level screen is shown, the
    main screen selected by the bottom navigation, the project being viewed,
    the signed-in e-mail, and the in-memory project and document lists. */
module AppShell {
  import opened Records
  import Home

  /** appState: 'onboarding' | 'login' | 'signup' | 'main' */
  datatype AppState = OnboardingStage | LoginStage | SignupStage | MainStage

  /** currentScreen: the content of the main stage */
  datatype Screen = HomeScreen | InputScreen | ResultScreen | BreakdownScreen | ProjectsScreen | BillsScreen | SettingsScreen

  /** What the content area of the main stage shows. */
  datatype Content =
    | HomeContent
    | InputContent
    | ResultContent(project: Project)
    | BreakdownContent(project: Project)
    | ProjectsContent
    | BillsContent
    | SettingsContent
    | NoContent

  /** What App renders. */
  datatype View = OnboardingView | LoginView | SignupView | MainView(content: Content)

  /** App's render: the stage picks the component; in the main stage the
      screen picks the content, and the result and breakdown screens show
      something only when there is a current project. */
  function Render(state: AppState, screen: Screen, current: Option<Project>): (v: View)
    ensures v.MainView? <==> state == MainStage
    ensures v == OnboardingView <==> state == OnboardingStage
    ensures v == LoginView <==> state == LoginStage
    ensures v == SignupView <==> state == SignupStage
    ensures v.MainView? && (v.content.ResultContent? || v.content.BreakdownContent?) ==> current == Some(v.content.project)
    ensures v.MainView? && v.content.ResultContent? <==> state == MainStage && screen == ResultScreen && current.Some?
    ensures v.MainView? && v.content.BreakdownContent? <==> state == MainStage && screen == BreakdownScreen && current.Some?
    ensures v == MainView(NoContent) <==> state == MainStage && screen in {ResultScreen, BreakdownScreen} && current.None?
    ensures state == MainStage && screen == HomeScreen ==> v == MainView(HomeContent)
    ensures state == MainStage && screen == InputScreen ==> v == MainView(InputContent)
    ensures state == MainStage && screen == ProjectsScreen ==> v == MainView(ProjectsContent)
    ensures state == MainStage && screen == BillsScreen ==> v == MainView(BillsContent)
    ensures state == MainStage && screen == SettingsScreen ==> v == MainView(SettingsContent)
  {
    match state
    case OnboardingStage => OnboardingView
    case LoginStage => LoginView
    case SignupStage => SignupView
    case MainStage =>
      MainView(
        match screen
        case HomeScreen => HomeContent
        case InputScreen => InputContent
        case ResultScreen => if current.Some? then ResultContent(current.value) else NoContent
        case BreakdownScreen => if current.Some? then BreakdownContent(current.value) else NoContent
        case ProjectsScreen => ProjectsContent
        case BillsScreen => BillsContent
        case SettingsScreen => SettingsContent)
  }

  function ResidentialBuilding(totalCost: real): Project
  {
    Project("1", "Residential Building", "Building", "2025-11-10", totalCost,
      Dimensions(20.0, 15.0, 3.0, None),
      [ MaterialLine("Cement", 120, "bags", 450.0, 54000.0),
        MaterialLine("Sand", 40, "m\U{00B3}", 800.0, 32000.0),
        MaterialLine("Gravel", 35, "m\U{00B3}", 900.0, 31500.0),
        MaterialLine("Steel", 1500, "kg", 65.0, 97500.0) ],
      "Mumbai")
  }

  function CompoundWall(totalCost: real): Project
  {
    Project("2", "Compound Wall", "Wall", "2025-11-08", totalCost,
      Dimensions(50.0, 0.23, 2.0, None),
      [ MaterialLine("Bricks", 5000, "nos", 8.0, 40000.0),
        MaterialLine("Cement", 50, "bags", 450.0, 22500.0),
        MaterialLine("Sand", 8, "m\U{00B3}", 800.0, 6400.0) ],
      "Delhi")
  }

  /** The two sample projects with the totals written in the source: the list
      the app starts with. Home's budget for them is 145000 + 68000. */
  function SeedProjectsAsWritten(): (ps: seq<Project>)
    ensures |ps| == 2 && ps[0].id != ps[1].id
    ensures Home.TotalBudget(ps) == 213000.0
  {
    BudgetOfPair(ResidentialBuilding(145000.0), CompoundWall(68000.0));
    [ResidentialBuilding(145000.0), CompoundWall(68000.0)]
  }

  /** The written totals are not the sums of the sample lines. */
  lemma SeedTotalsDisagree()
    ensures SumCosts(ResidentialBuilding(145000.0).materials) == 215000.0
    ensures SumCosts(CompoundWall(68000.0).materials) == 68900.0
    ensures !Consistent(SeedProjectsAsWritten()[0]) && !Consistent(SeedProjectsAsWritten()[1])
  {
    SeedSums();
  }

  /** The sample projects with totals equal to the sums of their lines, as
      the source evidently intends; Home's budget for them would be 283900. */
  function SeedProjects(): (ps: seq<Project>)
    ensures forall i :: 0 <= i < |ps| ==> Consistent(ps[i])
    ensures |ps| == |SeedProjectsAsWritten()|
    ensures forall i :: 0 <= i < |ps| ==> ps[i] == SeedProjectsAsWritten()[i].(totalCost := ps[i].totalCost)
    ensures Home.TotalBudget(ps) == 283900.0
  {
    SeedSums();
    BudgetOfPair(ResidentialBuilding(215000.0), CompoundWall(68900.0));
    [ResidentialBuilding(215000.0), CompoundWall(68900.0)]
  }

  lemma BudgetOfPair(a: Project, b: Project)
    ensures Home.TotalBudget([a, b]) == a.totalCost + b.totalCost
  {
    Home.SaveUpdatesOverview(a, [b]);
    Home.SaveUpdatesOverview(b, []);
    assert [a] + [b] == [a, b];
  }

  lemma SeedSums()
    ensures SumCosts(ResidentialBuilding(0.0).materials) == 215000.0
    ensures SumCosts(CompoundWall(0.0).materials) == 68900.0
  {
    var a := ResidentialBuilding(0.0).materials;
    var b := CompoundWall(0.0).materials;
    SumCostsAppend(a[..3], a[3..]);
    SumCostsAppend(a[..2], a[2..3]);
    SumCostsAppend(a[..1], a[1..2]);
    SumCostsAppend(b[..2], b[2..]);
    SumCostsAppend(b[..1], b[1..2]);
    assert a == a[..3] + a[3..] && a[..3] == a[..2] + a[2..3] && a[..2] == a[..1] + a[1..2];
    assert b == b[..2] + b[2..] && b[..2] == b[..1] + b[1..2];
    SumCostsSingle(a[..1]); SumCostsSingle(a[1..2]); SumCostsSingle(a[2..3]); SumCostsSingle(a[3..]);
    SumCostsSingle(b[..1]); SumCostsSingle(b[1..2]); SumCostsSingle(b[2..]);
  }

  /** The sample documents: three with distinct ids, each filed under one of
      the sample projects. */
  function SeedDocuments(): (ds: seq<Document>)
    ensures |ds| == 3
    ensures forall i, j :: 0 <= i < j < |ds| ==> ds[i].id != ds[j].id
    ensures forall i :: 0 <= i < |ds| ==> exists k :: 0 <= k < |SeedProjectsAsWritten()| && ds[i].projectId == SeedProjectsAsWritten()[k].id
  {
    assert SeedProjectsAsWritten()[0].id == "1" && SeedProjectsAsWritten()[1].id == "2";
    [ Document("1", "Cement Purchase Bill", "2025-11-10", "1", Bill, "PDF"),
      Document("2", "Steel Invoice", "2025-11-09", "1", Bill, "PDF"),
      Document("3", "Site Plan", "2025-11-08", "2", Doc, "PDF") ]
  }

  class App {
    var appState: AppState
    var currentScreen: Screen
    var isDarkMode: bool
    var currentProject: Option<Project>
    var userEmail: string
    var projects: seq<Project>
    var documents: seq<Document>

    constructor ()
      ensures appState == OnboardingStage && currentScreen == HomeScreen && !isDarkMode
      ensures currentProject == None && userEmail == ""
      ensures projects == SeedProjectsAsWritten() && documents == SeedDocuments()
    {
      appState, currentScreen, isDarkMode := OnboardingStage, HomeScreen, false;
      currentProject, userEmail := None, "";
      projects, documents := SeedProjectsAsWritten(), SeedDocuments();
    }

    function CurrentView(): View
      reads this
    {
      Render(appState, currentScreen, currentProject)
    }

    method HandleOnboardingComplete()
      modifies this`appState
      ensures appState == LoginStage
    {
      appState := LoginStage;
    }

    /** Login's "Sign Up" link. */
    method GoToSignup()
      modifies this`appState
      ensures appState == SignupStage
    {
      appState := SignupStage;
    }

    /** Signup's "back to login" link. */
    method BackToLogin()
      modifies this`appState
      ensures appState == LoginStage
    {
      appState := LoginStage;
    }

    method HandleLogin(email: string)
      modifies this`userEmail, this`appState
      ensures userEmail == email && appState == MainStage
    {
      userEmail := email;
      appState := MainStage;
    }

    method HandleSignup(email: string)
      modifies this`userEmail, this`appState
      ensures userEmail == email && appState == MainStage
    {
      userEmail := email;
      appState := MainStage;
    }

    method HandleNewEstimate(project: Project)
      modifies this`currentProject, this`currentScreen
      ensures currentProject == Some(project) && currentScreen == ResultScreen
    {
      currentProject := Some(project);
      currentScreen := ResultScreen;
    }

    /** Saving puts the project in front of the list; nothing is deduplicated. */
    method HandleSaveProject(project: Project)
      modifies this`projects
      ensures projects == [project] + old(projects)
      ensures |projects| == |old(projects)| + 1 && projects[0] == project && projects[1..] == old(projects)
    {
      projects := [project] + projects;
    }

    method HandleViewBreakdown()
      modifies this`currentScreen
      ensures currentScreen == BreakdownScreen
    {
      currentScreen := BreakdownScreen;
    }

    method HandleRecalculate(updatedProject: Project)
      modifies this`currentProject, this`currentScreen
      ensures currentProject == Some(updatedProject) && currentScreen == ResultScreen
    {
      currentProject := Some(updatedProject);
      currentScreen := ResultScreen;
    }

    /** My Projects' onViewProject. */
    method ViewProject(project: Project)
      modifies this`currentProject, this`currentScreen
      ensures currentProject == Some(project) && currentScreen == ResultScreen
    {
      currentProject := Some(project);
      currentScreen := ResultScreen;
    }

    /** The bottom navigation, the Home shortcuts and the back buttons. */
    method Navigate(screen: Screen)
      modifies this`currentScreen
      ensures currentScreen == screen
    {
      currentScreen := screen;
    }

    /** Settings' onToggleTheme. */
    method ToggleTheme()
      modifies this`isDarkMode
      ensures isDarkMode == !old(isDarkMode)
    {
      isDarkMode := !isDarkMode;
    }
  }

  /** From a fresh start, onboarding, login, New Estimate and Estimate lead to
      the result screen of the estimated project, signed in as email. */
  method FirstEstimateFlow(email: string, project: Project) returns (view: View, signedInAs: string)
    ensures view == MainView(ResultContent(project)) && signedInAs == email
  {
    var app := new App();
    app.HandleOnboardingComplete();
    app.HandleLogin(email);
    app.Navigate(InputScreen);
    app.HandleNewEstimate(project);
    view := app.CurrentView();
    signedInAs := app.userEmail;
  }

  /** Saving the current project twice lists it twice. */
  method SaveTwiceFlow(project: Project) returns (saved: seq<Project>)
    ensures saved == [project, project] + SeedProjectsAsWritten()
  {
    var app := new App();
    app.HandleSaveProject(project);
    app.HandleSaveProject(project);
    saved := app.projects;
  }
}
