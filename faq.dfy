/**
  The FAQ page's search box: the sections of questions it shows for a search query.
*/
module Faq {
  import opened Text
  import opened Seqs

  datatype QuestionItem = QuestionItem(question: string, answer: string)

  datatype FaqSection = FaqSection(category: string, questions: seq<QuestionItem>)

  /** The page's own questions, by section. */
  const FaqData: seq<FaqSection> := [
    FaqSection("Window Cleaning", [
      QuestionItem("How often should I have my windows professionally cleaned?",
        "For residential properties, we recommend professional cleaning 1-2 times per year. Commercial properties may require more frequent cleaning depending on location and environment."),
      QuestionItem("What cleaning solutions do you use?",
        "We use dawn dish soap, and other window cleaning soaps as needed. Water fed pole is what we normally use to clean exterior windows."),
      QuestionItem("Do you clean screens and tracks as well?",
        "Yes, our comprehensive window cleaning service includes cleaning the glass, screens, tracks, and frames to ensure your windows are completely clean."),
      QuestionItem("Do you warranty your window cleaning?",
        "Yes, we ensure your windows will be clean up to a month. If your exterior windows become dirty within a month of your window cleaning, we will become back and clean them for free.")
    ]),
    FaqSection("Gutter Cleaning", [
      QuestionItem("How often should gutters be cleaned?",
        "Gutters should be cleaned at least twice a year - typically in spring and fall. However, if you have many trees near your home, you may need more frequent cleaning."),
      QuestionItem("What happens if I don't clean my gutters?",
        "Clogged gutters can lead to water damage, foundation problems, roof damage, and create perfect conditions for pest infestations. Regular maintenance prevents these costly issues."),
      QuestionItem("What does gutter cleaning include?",
        "Gutter cleaning includes removing all debris from the gutters, cleaning and inspecting all down spoutes and rising the gutters out.")
    ]),
    FaqSection("Christmas Light Installation", [
      QuestionItem("When do you start booking holiday light installations?",
        "We begin booking installations in early september and recommend scheduling early as spots fill up quickly for the holiday season."),
      QuestionItem("Do you provide the lights or do I need to supply them?",
        "We can work with either option. We offer professional-grade LED lights for purchase or rental, or we can install your existing lights."),
      QuestionItem("When do you take down the lights?",
        "We typically schedule removal in January, but we can accommodate your preferred timeline. Give us a call when your ready to take down your lights, and we will take care of it.")
    ]),
    FaqSection("Power Washing", [
      QuestionItem("What surfaces can be power washed?",
        "We can safely power wash driveways, sidewalks, decks, patios, fences, siding, and more. Our technicians adjust the pressure based on the surface material."),
      QuestionItem("Is power washing safe for all home exteriors?",
        "While many surfaces can be safely power washed, some materials require soft washing or alternative cleaning methods. We'll assess your property and recommend the most appropriate cleaning method."),
      QuestionItem("How long does power washing take?",
        "The duration varies depending on the size of the area and level of dirt/stains. Most residential jobs can be completed in 2-4 hours.")
    ]),
    FaqSection("Other Services & General Questions", [
      QuestionItem("Do you offer solar panel cleaning?",
        "Yes, we offer solar panel cleaning, please contact us for a free quote."),
      QuestionItem("Are you licensed and insured?",
        "Yes, we are fully licensed, bonded, and insured. We carry comprehensive liability insurance and workers' compensation to protect both our clients and employees."),
      QuestionItem("Do you offer free estimates?",
        "Yes, we provide free estimates for all our services. However, Any clients requesting in-person quotes outside of polk county will be a charged a 25$ non-refundable quote fee."),
      QuestionItem("What areas do you service?",
        "We service the greater central florida area within a 35 mile radius."),
      QuestionItem("Do you offer any discounts or package deals?",
        "Yes, we offer discounted rates for some services recurring clients")
    ])
  ]

  /** The per-item test, given the already lower-cased query. */
  function MatchesQuery(query: string): QuestionItem -> bool {
    (item: QuestionItem) => Includes(Lower(item.question), query) || Includes(Lower(item.answer), query)
  }

  /** One section with only its matching questions left; the category is copied as it is. */
  function Narrow(query: string): FaqSection -> FaqSection {
    (section: FaqSection) => FaqSection(section.category, Filter(section.questions, MatchesQuery(query)))
  }

  function HasQuestions(): FaqSection -> bool {
    (section: FaqSection) => |section.questions| > 0
  }

  /**
    The sections shown for `searchQuery`. A query that trims to nothing shows the data as it is.
    Otherwise the query is lower-cased but NOT trimmed, each section keeps the questions whose
    lower-cased question or answer contains it, and sections left with none are dropped.
  */
  function FilteredSections(data: seq<FaqSection>, searchQuery: string): seq<FaqSection> {
    if IsBlank(searchQuery) then data
    else Filter(Map(data, Narrow(Lower(searchQuery))), HasQuestions())
  }

  /** The page shows "No questions found matching your search." instead of any section. */
  predicate ShowsNoResults(data: seq<FaqSection>, searchQuery: string) {
    |FilteredSections(data, searchQuery)| == 0
  }

  /** `query` occurs somewhere in `s` once both are lower-cased. */
  ghost predicate FoundIn(s: string, query: string) {
    exists i :: OccursAt(Lower(s), Lower(query), i)
  }

  /** An item matches a query when the query occurs in its question or in its answer, ignoring case. */
  ghost predicate ItemMatches(item: QuestionItem, query: string) {
    FoundIn(item.question, query) || FoundIn(item.answer, query)
  }

  lemma MatchesQueryIff(item: QuestionItem, query: string)
    ensures MatchesQuery(Lower(query))(item) <==> ItemMatches(item, query)
  {
    IncludesIff(Lower(item.question), Lower(query));
    IncludesIff(Lower(item.answer), Lower(query));
  }

  /** A query of white space only, the empty query included, shows the data unchanged. */
  lemma BlankQueryShowsAll(data: seq<FaqSection>, searchQuery: string)
    requires AllSpace(searchQuery)
    ensures FilteredSections(data, searchQuery) == data
  {
    BlankIffAllSpace(searchQuery);
  }

  /** Soundness: every question shown for a non-blank query contains the query, ignoring case. */
  lemma ShownItemsMatch(data: seq<FaqSection>, searchQuery: string, section: FaqSection, item: QuestionItem)
    requires !AllSpace(searchQuery)
    requires section in FilteredSections(data, searchQuery) && item in section.questions
    ensures ItemMatches(item, searchQuery)
  {
    BlankIffAllSpace(searchQuery);
    var q := Lower(searchQuery);
    var narrowed := Map(data, Narrow(q));
    assert section in narrowed;
    var i :| 0 <= i < |data| && narrowed[i] == section;
    assert section.questions == Filter(data[i].questions, MatchesQuery(q));
    MatchesQueryIff(item, searchQuery);
  }

  /**
    Completeness: every matching question of section i is shown, under that section's category,
    together with the other matches of that section.
  */
  lemma MatchingItemsShown(data: seq<FaqSection>, searchQuery: string, i: nat, item: QuestionItem)
    requires !AllSpace(searchQuery)
    requires i < |data| && item in data[i].questions && ItemMatches(item, searchQuery)
    ensures Narrow(Lower(searchQuery))(data[i]) in FilteredSections(data, searchQuery)
    ensures Narrow(Lower(searchQuery))(data[i]).category == data[i].category
    ensures item in Narrow(Lower(searchQuery))(data[i]).questions
  {
    BlankIffAllSpace(searchQuery);
    MatchesQueryIff(item, searchQuery);
    var q := Lower(searchQuery);
    assert Map(data, Narrow(q))[i] == Narrow(q)(data[i]);
  }

  /** A non-blank query never shows a section without questions. */
  lemma NoEmptySectionShown(data: seq<FaqSection>, searchQuery: string, section: FaqSection)
    requires !AllSpace(searchQuery)
    requires section in FilteredSections(data, searchQuery)
    ensures |section.questions| > 0
  {
    BlankIffAllSpace(searchQuery);
  }

  /**
    Order is kept: the sections shown are the narrowed sections in data order, with some left out,
    and each narrowed section keeps its category and its questions in their order.
  */
  lemma OrderKept(data: seq<FaqSection>, searchQuery: string)
    requires !AllSpace(searchQuery)
    ensures IsSubsequence(FilteredSections(data, searchQuery), Map(data, Narrow(Lower(searchQuery))))
    ensures forall i :: 0 <= i < |data| ==>
      && Narrow(Lower(searchQuery))(data[i]).category == data[i].category
      && IsSubsequence(Narrow(Lower(searchQuery))(data[i]).questions, data[i].questions)
  {
    BlankIffAllSpace(searchQuery);
    var q := Lower(searchQuery);
    FilterIsSubsequence(Map(data, Narrow(q)), HasQuestions());
    forall i | 0 <= i < |data|
      ensures IsSubsequence(Narrow(q)(data[i]).questions, data[i].questions)
    {
      FilterIsSubsequence(data[i].questions, MatchesQuery(q));
    }
  }

  /**
    The "no questions found" message shows, for a non-blank query, exactly when no question of
    any section matches it; for a blank query, only when there is no data at all.
  */
  lemma NoResultsIff(data: seq<FaqSection>, searchQuery: string)
    ensures AllSpace(searchQuery) ==> (ShowsNoResults(data, searchQuery) <==> |data| == 0)
    ensures !AllSpace(searchQuery) ==>
      (ShowsNoResults(data, searchQuery) <==>
        forall i, item :: 0 <= i < |data| && item in data[i].questions ==> !ItemMatches(item, searchQuery))
  {
    BlankIffAllSpace(searchQuery);
    if !AllSpace(searchQuery) {
      var r := FilteredSections(data, searchQuery);
      if |r| > 0 {
        assert r[0] in r;
        var item := r[0].questions[0];
        ShownItemsMatch(data, searchQuery, r[0], item);
        var q := Lower(searchQuery);
        assert r[0] in Map(data, Narrow(q));
        var i :| 0 <= i < |data| && Map(data, Narrow(q))[i] == r[0];
        assert item in data[i].questions;
      } else {
        forall i, item | 0 <= i < |data| && item in data[i].questions
          ensures !ItemMatches(item, searchQuery)
        {
          if ItemMatches(item, searchQuery) {
            MatchingItemsShown(data, searchQuery, i, item);
          }
        }
      }
    }
  }

  /** Every section of the page's own data has questions, so no query ever shows an empty section. */
  lemma FaqDataShowsNoEmptySection(searchQuery: string, section: FaqSection)
    requires section in FilteredSections(FaqData, searchQuery)
    ensures |section.questions| > 0
  {
    if !AllSpace(searchQuery) {
      NoEmptySectionShown(FaqData, searchQuery, section);
    } else {
      BlankQueryShowsAll(FaqData, searchQuery);
    }
  }

  /**
    Surrounding spaces only decide whether the query is blank; they stay part of the search.
    A leading space makes "gutters" miss a question that begins with "Gutters".
  */
  lemma QueryIsNotTrimmed()
    ensures var data := [FaqSection("Gutter Cleaning", [QuestionItem("Gutters?", "Yes.")])];
      && FilteredSections(data, "gutters") == data
      && FilteredSections(data, " gutters") == []
  {
    var data := [FaqSection("Gutter Cleaning", [QuestionItem("Gutters?", "Yes.")])];
    var item := data[0].questions[0];
    assert !AllSpace("gutters") by { assert !IsSpace("gutters"[0]); }
    assert !AllSpace(" gutters") by { assert !IsSpace(" gutters"[1]); }
    BlankIffAllSpace("gutters");
    BlankIffAllSpace(" gutters");
    assert Lower("gutters") == "gutters";
    assert Lower(" gutters") == " gutters";
    assert Lower(item.question) == "gutters?";
    assert Lower(item.answer) == "yes.";
    assert OccursAt("gutters?", "gutters", 0);
    IncludesIff("gutters?", "gutters");
    IncludesIff("gutters?", " gutters");
    IncludesIff("yes.", " gutters");
    assert !OccursAt("gutters?", " gutters", 0);
    assert Filter(data[0].questions, MatchesQuery(" gutters")) == [];
    assert Filter(data[0].questions, MatchesQuery("gutters")) == data[0].questions;
  }

}
