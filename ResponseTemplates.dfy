/**
 * The template list of the response-templates page (src/pages/ResponseTemplates.jsx): the search
 * and type filter over the stored templates, and the 150-character preview of each.
 */
module ResponseTemplates {
  import opened Text
  import opened Sequences
  import opened DataContext

  const AllTypes: string := "all"

  /** The search term occurs in the name or the content, both compared in lowercase. */
  predicate MatchesSearch(template: Template, searchTerm: string) {
    Contains(Lower(template.name), Lower(searchTerm)) || Contains(Lower(template.content), Lower(searchTerm))
  }

  /** The selected type is `all` or exactly the template's type; no case folding here. */
  predicate MatchesType(template: Template, selectedType: string) {
    selectedType == AllTypes || template.kind == selectedType
  }

  predicate Shown(template: Template, searchTerm: string, selectedType: string) {
    MatchesSearch(template, searchTerm) && MatchesType(template, selectedType)
  }

  function ShownTest(searchTerm: string, selectedType: string): Template -> bool {
    template => Shown(template, searchTerm, selectedType)
  }

  /**
   * `filteredTemplates`: the templates that match both the search and the type, in stored order;
   * every copy of a shown template is kept and every copy of another one is dropped.
   */
  function FilteredTemplates(templates: seq<Template>, searchTerm: string, selectedType: string): (r: seq<Template>)
    ensures forall t :: t in r <==> t in templates && Shown(t, searchTerm, selectedType)
    ensures forall t :: multiset(r)[t] == if Shown(t, searchTerm, selectedType) then multiset(templates)[t] else 0
    ensures IsSubsequence(r, templates)
  {
    FilterSubsequence(templates, ShownTest(searchTerm, selectedType));
    FilterMultiset(templates, ShownTest(searchTerm, selectedType));
    Filter(templates, ShownTest(searchTerm, selectedType))
  }

  /** Every text contains the empty text. */
  lemma ContainsEmpty(s: string)
    ensures Contains(s, "")
  {
    assert OccursAt(s, "", 0);
  }

  /** With an empty search and the `all` type, every template is listed, in stored order. */
  lemma EmptySearchListsAll(templates: seq<Template>)
    ensures FilteredTemplates(templates, "", AllTypes) == templates
  {
    forall t | t in templates ensures ShownTest("", AllTypes)(t) {
      ContainsEmpty(Lower(t.name));
    }
    FilterKeepsAll(templates, ShownTest("", AllTypes));
  }

  /**
   * Typing more narrows the list: when the longer term contains the shorter one (in lowercase),
   * every template listed for the longer term is listed for the shorter one.
   */
  lemma LongerSearchNarrows(templates: seq<Template>, term: string, longer: string, selectedType: string)
    requires Contains(Lower(longer), Lower(term))
    ensures forall t :: t in FilteredTemplates(templates, longer, selectedType) ==> t in FilteredTemplates(templates, term, selectedType)
  {
    forall t | t in FilteredTemplates(templates, longer, selectedType)
      ensures t in FilteredTemplates(templates, term, selectedType)
    {
      if Contains(Lower(t.name), Lower(longer)) {
        ContainsTransitive(Lower(t.name), Lower(longer), Lower(term));
      } else {
        ContainsTransitive(Lower(t.content), Lower(longer), Lower(term));
      }
    }
  }

  /** The `all` type lists a superset of any single type, for the same search. */
  lemma AllTypesWidest(templates: seq<Template>, searchTerm: string, selectedType: string)
    ensures forall t :: t in FilteredTemplates(templates, searchTerm, selectedType) ==> t in FilteredTemplates(templates, searchTerm, AllTypes)
  {
  }

  /** Search terms that agree in lowercase list the same templates, in the same order. */
  lemma SearchIgnoresCase(templates: seq<Template>, term: string, other: string, selectedType: string)
    requires Lower(term) == Lower(other)
    ensures FilteredTemplates(templates, term, selectedType) == FilteredTemplates(templates, other, selectedType)
  {
    FilterCongruent(templates, ShownTest(term, selectedType), ShownTest(other, selectedType));
  }

  /**
   * The type is compared exactly: under a selected type other than `all`, every listed template
   * has exactly that type, so a type that differs only in case hides the template.
   */
  lemma TypeMatchIsExact(templates: seq<Template>, searchTerm: string, selectedType: string)
    requires selectedType != AllTypes
    ensures forall t :: t in FilteredTemplates(templates, searchTerm, selectedType) ==> t.kind == selectedType
  {
  }

  /**
   * A witness of the two rules above: a template named `Intro` of type `response` is found by the
   * search `INTRO`, and is not listed under the type `Response`.
   */
  lemma TypeMatchIsCaseSensitive()
    ensures Shown(Template("t1", "Intro", "response", "Hello"), "INTRO", AllTypes)
    ensures !Shown(Template("t1", "Intro", "response", "Hello"), "", "Response")
  {
    assert Lower("INTRO") == "intro" == Lower("Intro");
    assert OccursAt(Lower("Intro"), Lower("INTRO"), 0);
  }

  /** The card preview: `content.substring(0, 150)` followed by `...`. */
  function Preview(content: string): (r: string)
    ensures |content| <= 150 ==> r == content + "..."
    ensures |content| > 150 ==> |r| == 153 && StartsWith(content, r[..150])
    ensures EndsWith(r, "...")
  {
    var shown := if |content| <= 150 then content else content[..150];
    assert (shown + "...")[..|shown|] == shown;
    shown + "..."
  }
}
