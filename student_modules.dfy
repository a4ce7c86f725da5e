/** The module list of the student portal (StudentModules page): the modules
    of the student type named in the route, or none for an unknown type,
    narrowed by the search box to those whose title or description contains
    the lower-cased search text. */
module StudentModules {
  import opened Wrappers
  import opened Text
  import opened Filtering

  /** The module fields the page's logic reads; the display-only fields
      (topics count, duration, difficulty, image) are not modelled. */
  datatype LearningModule = LearningModule(id: string, title: string, description: string, progress: int)

  predicate ModuleMatches(m: LearningModule, needle: string) {
    Contains(Lower(m.title), needle) || Contains(Lower(m.description), needle)
  }

  function FilteredModules(modules: seq<LearningModule>, searchQuery: string): (r: seq<LearningModule>)
    ensures forall m :: m in r ==> m in modules && ModuleMatches(m, Lower(searchQuery))
    ensures forall m :: m in modules && ModuleMatches(m, Lower(searchQuery)) ==> m in r
    ensures SubseqOf(r, modules)
    ensures forall m :: m in modules ==> multiset(r)[m] == if ModuleMatches(m, Lower(searchQuery)) then multiset(modules)[m] else 0
  {
    var needle := Lower(searchQuery);
    FilterIsSubseq(modules, m => ModuleMatches(m, needle));
    Filter(modules, m => ModuleMatches(m, needle))
  }

  /** With an empty search box every module of the student type is shown. */
  lemma EmptyQueryKeepsAllModules(modules: seq<LearningModule>)
    ensures FilteredModules(modules, "") == modules
  {
    forall m | m in modules
      ensures ModuleMatches(m, Lower(""))
    {
      ContainsEmpty(Lower(m.title));
    }
    FilterKeepsAll(modules, m => ModuleMatches(m, Lower("")));
  }

  /** An unknown student type (`modulesByType[studentType] || []`) shows no
      modules, whatever the search text. */
  lemma UnknownTypeShowsNothing(modulesByType: map<string, seq<LearningModule>>, studentType: string, searchQuery: string)
    requires studentType !in modulesByType
    ensures FilteredModules(LookupOrEmpty(modulesByType, studentType), searchQuery) == []
  {
  }

  /** What a module card shows above its button: a progress bar with the
      percentage and the completed-topics line, or a "Not started" note. */
  datatype ProgressPanel = ProgressBar(percent: int) | NotStarted

  /** The card's progress panel, chosen by `module.progress > 0`. */
  function ModulePanel(m: LearningModule): (p: ProgressPanel)
    ensures p.ProgressBar? ==> p.percent == m.progress && p.percent > 0
    ensures p.NotStarted? <==> m.progress <= 0
  {
    if m.progress > 0 then ProgressBar(m.progress) else NotStarted
  }

  datatype ModuleAction = ContinueLearning | StartModule

  /** The card's button. It tests the same condition as the panel, so the
      card never offers "Continue Learning" beside "Not started", nor "Start
      Module" beside a progress bar. */
  function ModuleButton(m: LearningModule): (a: ModuleAction)
    ensures a == ContinueLearning <==> m.progress > 0
    ensures a == StartModule <==> m.progress <= 0
    ensures a == ContinueLearning <==> ModulePanel(m).ProgressBar?
  {
    if m.progress > 0 then ContinueLearning else StartModule
  }
}
