/** The FAQ page's search: each category keeps the questions whose question
    or answer text contains the lower-cased search text, and categories left
    with no question are dropped from the result. Each category tab then
    shows either the unfiltered list (empty search box) or the filtered one. */
module Faq {
  import opened Wrappers
  import opened Text
  import opened Filtering

  datatype FaqEntry = FaqEntry(question: string, answer: string)

  predicate FaqMatches(f: FaqEntry, needle: string) {
    Contains(Lower(f.question), needle) || Contains(Lower(f.answer), needle)
  }

  /** The per-category `questions.filter(...)`. */
  function MatchingEntries(questions: seq<FaqEntry>, needle: string): (r: seq<FaqEntry>)
    ensures forall f :: f in r ==> f in questions && FaqMatches(f, needle)
    ensures forall f :: f in questions && FaqMatches(f, needle) ==> f in r
    ensures SubseqOf(r, questions)
    ensures forall f :: f in questions ==> multiset(r)[f] == if FaqMatches(f, needle) then multiset(questions)[f] else 0
  {
    FilterIsSubseq(questions, f => FaqMatches(f, needle));
    Filter(questions, f => FaqMatches(f, needle))
  }

  /** What the `filteredFAQs` object holds for `faqs` and `searchQuery`. */
  ghost predicate IsFilteredFaqs(faqs: map<string, seq<FaqEntry>>, searchQuery: string, acc: map<string, seq<FaqEntry>>) {
    && acc.Keys <= faqs.Keys
    && (forall c :: c in faqs ==>
          (c in acc <==> exists f :: f in faqs[c] && FaqMatches(f, Lower(searchQuery))))
    && (forall c :: c in acc ==> acc[c] == MatchingEntries(faqs[c], Lower(searchQuery)))
  }

  /** The `reduce` over the categories, which stores a category's filtered
      list in the accumulator only when that list is non-empty. */
  method FilterFaqs(faqs: map<string, seq<FaqEntry>>, searchQuery: string) returns (acc: map<string, seq<FaqEntry>>)
    ensures IsFilteredFaqs(faqs, searchQuery, acc)
  {
    var needle := Lower(searchQuery);
    var remaining := faqs.Keys;
    acc := map[];
    while remaining != {}
      invariant remaining <= faqs.Keys
      invariant acc.Keys <= faqs.Keys - remaining
      invariant forall c :: c in faqs && c !in remaining ==>
                  (c in acc <==> MatchingEntries(faqs[c], needle) != [])
      invariant forall c :: c in acc ==> acc[c] == MatchingEntries(faqs[c], needle)
      decreases remaining
    {
      var category :| category in remaining;
      var filtered := MatchingEntries(faqs[category], needle);
      if |filtered| > 0 {
        acc := acc[category := filtered];
      }
      remaining := remaining - {category};
    }
    forall c | c in faqs
      ensures c in acc <==> exists f :: f in faqs[c] && FaqMatches(f, needle)
    {
      var r := MatchingEntries(faqs[c], needle);
      if r != [] {
        assert r[0] in r;
      }
    }
  }

  /** With an empty search box nothing is filtered away: every non-empty
      category is kept whole. */
  lemma EmptyQueryKeepsCategories(faqs: map<string, seq<FaqEntry>>, acc: map<string, seq<FaqEntry>>)
    requires IsFilteredFaqs(faqs, "", acc)
    ensures forall c :: c in acc ==> acc[c] == faqs[c]
    ensures forall c :: c in faqs && faqs[c] != [] ==> c in acc
  {
    forall c | c in faqs
      ensures MatchingEntries(faqs[c], Lower("")) == faqs[c]
    {
      forall f | f in faqs[c]
        ensures FaqMatches(f, Lower(""))
      {
        ContainsEmpty(Lower(f.question));
      }
      FilterKeepsAll(faqs[c], f => FaqMatches(f, Lower("")));
    }
    forall c | c in faqs && faqs[c] != []
      ensures c in acc
    {
      assert faqs[c][0] in faqs[c];
      ContainsEmpty(Lower(faqs[c][0].question));
    }
  }

  /** The body of one category tab. */
  datatype TabView =
    | Questions(entries: seq<FaqEntry>)
    | NoMatches      // "No questions found matching your search."
    | BeingUpdated   // "Questions for this category are being updated."

  /** `searchQuery ? filteredFAQs[category.id] : faqs[category.id]`, then the
      list if it is non-empty and otherwise the message for the situation. */
  function CategoryTab(faqs: map<string, seq<FaqEntry>>, filteredFaqs: map<string, seq<FaqEntry>>,
                       searchQuery: string, categoryId: string): (v: TabView)
    requires IsFilteredFaqs(faqs, searchQuery, filteredFaqs)
    ensures searchQuery == "" ==>
      v == if categoryId in faqs && faqs[categoryId] != [] then Questions(faqs[categoryId]) else BeingUpdated
    ensures searchQuery != "" ==>
      v == if categoryId in faqs && MatchingEntries(faqs[categoryId], Lower(searchQuery)) != []
           then Questions(MatchingEntries(faqs[categoryId], Lower(searchQuery)))
           else NoMatches
  {
    var categoryFaqs := if searchQuery != "" then Get(filteredFaqs, categoryId) else Get(faqs, categoryId);
    if categoryFaqs.Some? && |categoryFaqs.value| > 0 then Questions(categoryFaqs.value)
    else if searchQuery != "" then NoMatches
    else BeingUpdated
  }

  /** The "Popular Questions" section is rendered only while the search box is empty. */
  function ShowsPopular(searchQuery: string): (shown: bool)
    ensures shown <==> |searchQuery| == 0
  {
    searchQuery == ""
  }

  /** The popular-questions section and a category tab's fallback message
      read the same search text: when a tab shows a message rather than
      questions, it is "being updated" exactly while the popular questions are
      on the page, and "no questions found" exactly while they are hidden. */
  lemma PopularAgreesWithTabMessage(faqs: map<string, seq<FaqEntry>>, filteredFaqs: map<string, seq<FaqEntry>>,
                                    searchQuery: string, categoryId: string)
    requires IsFilteredFaqs(faqs, searchQuery, filteredFaqs)
    requires !CategoryTab(faqs, filteredFaqs, searchQuery, categoryId).Questions?
    ensures CategoryTab(faqs, filteredFaqs, searchQuery, categoryId) == BeingUpdated <==> ShowsPopular(searchQuery)
    ensures CategoryTab(faqs, filteredFaqs, searchQuery, categoryId) == NoMatches <==> !ShowsPopular(searchQuery)
  {
  }
}
