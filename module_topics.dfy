/** The topic list of one learning module (ModuleTopics page): the topics of
    the module named in the route, or none for an unknown module, narrowed by
    the search box; the module's completion percentage; the "Topic n" labels
    and the per-topic button. */
module ModuleTopics {
  import opened Wrappers
  import opened Text
  import opened Filtering

  /** The topic fields the page's logic reads. */
  datatype Topic = Topic(id: string, title: string, description: string, completed: bool)

  datatype ModuleInfo = ModuleInfo(title: string, description: string, totalTopics: nat, completedTopics: nat)

  predicate TopicMatches(t: Topic, needle: string) {
    Contains(Lower(t.title), needle) || Contains(Lower(t.description), needle)
  }

  function FilteredTopics(topics: seq<Topic>, searchQuery: string): (r: seq<Topic>)
    ensures forall t :: t in r ==> t in topics && TopicMatches(t, Lower(searchQuery))
    ensures forall t :: t in topics && TopicMatches(t, Lower(searchQuery)) ==> t in r
    ensures SubseqOf(r, topics)
    ensures forall t :: t in topics ==> multiset(r)[t] == if TopicMatches(t, Lower(searchQuery)) then multiset(topics)[t] else 0
  {
    var needle := Lower(searchQuery);
    FilterIsSubseq(topics, t => TopicMatches(t, needle));
    Filter(topics, t => TopicMatches(t, needle))
  }

  /** An unknown module (`topicsByModule[moduleId] || []`) shows no topics,
      whatever the search text. */
  lemma UnknownModuleShowsNothing(topicsByModule: map<string, seq<Topic>>, moduleId: string, searchQuery: string)
    requires moduleId !in topicsByModule
    ensures FilteredTopics(LookupOrEmpty(topicsByModule, moduleId), searchQuery) == []
  {
  }

  /** The value of the progress bar, `completedTopics / totalTopics * 100`;
      the bar is drawn only for a module that is found. */
  function CompletionPercent(info: ModuleInfo): (pct: real)
    requires info.totalTopics > 0
    ensures pct * info.totalTopics as real == 100.0 * info.completedTopics as real
    ensures info.completedTopics <= info.totalTopics ==> 0.0 <= pct <= 100.0
  {
    var pct := info.completedTopics as real / info.totalTopics as real * 100.0;
    assert info.completedTopics <= info.totalTopics ==> pct <= 100.0 by {
      if info.completedTopics <= info.totalTopics {
        assert info.completedTopics as real / info.totalTopics as real <= 1.0;
      }
    }
    pct
  }

  /** The progress bar of the module page, or none when the module is unknown. */
  function ModuleProgress(moduleInfo: map<string, ModuleInfo>, moduleId: string): (bar: Option<real>)
    requires forall id :: id in moduleInfo ==> moduleInfo[id].totalTopics > 0
    ensures bar.None? <==> moduleId !in moduleInfo
    ensures bar.Some? ==> bar.value * moduleInfo[moduleId].totalTopics as real
                          == 100.0 * moduleInfo[moduleId].completedTopics as real
  {
    match Get(moduleInfo, moduleId)
    case None => None
    case Some(info) => Some(CompletionPercent(info))
  }

  /** The anatomy module, 18 of 24 topics completed, is 75% done. */
  lemma AnatomyProgress()
    ensures CompletionPercent(ModuleInfo("Human Anatomy", "Complete study of human body systems and structures", 24, 18)) == 75.0
  {
  }

  /** The "Topic n" badges of the listed topics: `index + 1` over the filtered
      list, so the labels run through 1, 2, ..., without gaps or repeats. */
  function TopicNumbers(listed: seq<Topic>): (labels: seq<nat>)
    ensures |labels| == |listed|
    ensures forall v :: v in labels <==> 1 <= v <= |listed|
    ensures forall i, j :: 0 <= i < j < |labels| ==> labels[i] < labels[j]
  {
    var labels := seq(|listed|, i requires 0 <= i < |listed| => i + 1);
    forall v | 1 <= v <= |listed|
      ensures v in labels
    {
      assert labels[v - 1] == v;
    }
    labels
  }

  /** The status icon in front of a topic. */
  datatype StatusIcon = CheckCircle | Circle

  function TopicIcon(t: Topic): StatusIcon {
    if t.completed then CheckCircle else Circle
  }

  datatype TopicAction = Review | Start

  /** The per-topic button. It tests the same flag as the status icon, so a
      topic offers "Review" exactly when it shows the check mark. */
  function TopicButton(t: Topic): (a: TopicAction)
    ensures a == Review <==> t.completed
    ensures a == Start <==> !t.completed
    ensures a == Review <==> TopicIcon(t) == CheckCircle
  {
    if t.completed then Review else Start
  }
}
