/** The projects page (src/pages/Projects.tsx): a year filter with a wildcard over a
    fixed table of projects, and a modal for the clicked project. */
module Projects {
  import opened Wrappers
  import opened Seqs

  datatype Project = Project(id: string, image: string, title: string, region: string, year: int,
                             short: string, desc: string)

  const PROJECTS: seq<Project> := [
    Project("solar", "/src/assets/projects/solar.jpg", "В будущем будет название проекта",
            "Название региона", 2025, "Короткое", "Подробное описание"),
    Project("tiger", "/src/assets/projects/tiger.jpg", "В будущем будет название проекта",
            "Название региона", 2024, "Короткое", "Подробное описание"),
    Project("orlina", "/src/assets/projects/orlina.jpg", "В будущем будет название проекта",
            "Название региона", 2023, "Короткое", "Подробное описание")
  ]

  /** A year button: the wildcard "Все" or a numeric year. */
  datatype YearChoice = AnyYear | Year(year: int)

  const YEARS: seq<YearChoice> := [AnyYear, Year(2025), Year(2024), Year(2023)]

  predicate YearMatch(p: Project, filterYear: YearChoice)
  {
    match filterYear
    case AnyYear => true
    case Year(y) => p.year == y
  }

  function ByYear(filterYear: YearChoice): Project -> bool
  {
    p => YearMatch(p, filterYear)
  }

  /** The projects the grid renders: for a numeric year exactly the projects of that year. */
  function Visible(filterYear: YearChoice): (r: seq<Project>)
    ensures forall p :: p in r ==> p in PROJECTS && (filterYear.Year? ==> p.year == filterYear.year)
    ensures forall p :: p in PROJECTS && (filterYear.Year? ==> p.year == filterYear.year) ==> p in r
  {
    Filter(PROJECTS, ByYear(filterYear))
  }

  /** The wildcard shows all three projects in their declared order. */
  lemma AnyYearShowsAll()
    ensures Visible(AnyYear) == PROJECTS
  {
    FilterKeepsAll(PROJECTS, ByYear(AnyYear));
  }

  /** Every filter keeps the table's order. */
  lemma VisibleInOrder(filterYear: YearChoice)
    ensures IsSubsequence(Visible(filterYear), PROJECTS)
  {
    FilterIsSubsequence(PROJECTS, ByYear(filterYear));
  }

  /** Each numeric year of the buttons matches exactly one project: the i-th button after
      the wildcard shows the i-th project alone. */
  lemma EachYearShowsOne(i: nat)
    requires 1 <= i < |YEARS|
    ensures Visible(YEARS[i]) == [PROJECTS[i - 1]]
  {
    FilterSingle(PROJECTS, ByYear(YEARS[i]), i - 1);
  }

  /** A year button is highlighted when it equals the selection; the buttons are distinct,
      so a selection among them highlights exactly one. */
  lemma OneYearHighlighted(filterYear: YearChoice, i: nat)
    requires i < |YEARS| && YEARS[i] == filterYear
    ensures forall j :: 0 <= j < |YEARS| ==> (YEARS[j] == filterYear <==> j == i)
  {
  }

  /** The page's React state. */
  class ProjectsPage {
    var filterYear: YearChoice
    var active: Option<Project>

    constructor ()
      ensures filterYear == AnyYear && active == None
    {
      filterYear, active := AnyYear, None;
    }

    /** The projects currently rendered. */
    function Cards(): seq<Project>
      reads this
    {
      Visible(filterYear)
    }

    /** A year button changes the filter and never the open modal. */
    method SelectYear(y: YearChoice)
      modifies this`filterYear
      ensures filterYear == y
    {
      filterYear := y;
    }

    /** A click on a card opens its modal. */
    method OpenProject(p: Project)
      modifies this`active
      ensures active == Some(p)
    {
      active := Some(p);
    }

    /** The modal's close button. */
    method CloseProject()
      modifies this`active
      ensures active == None
    {
      active := None;
    }
  }
}
