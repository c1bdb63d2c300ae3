/**
 * The resource center: the category filter over the downloadable
 * resources, the featured block shown under "All", the download-in-progress
 * flag that disables a button, and the upper-case type badge.
 *
 * The 2-second simulated download is split into the step that starts it
 * and the step that ends it.
 */
module ResourceCenter {
  import opened Wrappers

  datatype ResourceType = Guide | Whitepaper | Checklist | Template | CaseStudy

  /** The fields the logic reads; descriptions, counts, sizes and icons are display only. */
  datatype Resource = Resource(id: string, title: string, kind: ResourceType, category: string, featured: bool)

  /** The `type` string of each kind, as written in the data. */
  function TypeName(t: ResourceType): string
  {
    match t
    case Guide => "guide"
    case Whitepaper => "whitepaper"
    case Checklist => "checklist"
    case Template => "template"
    case CaseStudy => "case-study"
  }

  const Resources: seq<Resource> := [
    Resource("web-dev-guide", "Complete Web Development Guide 2024", Guide, "Web Development", true),
    Resource("mobile-app-checklist", "Mobile App Development Checklist", Checklist, "Mobile Development", false),
    Resource("ai-automation-whitepaper", "AI Automation in Business: ROI Analysis", Whitepaper, "AI & Automation", true),
    Resource("seo-optimization-guide", "Technical SEO Optimization Guide", Guide, "SEO & Marketing", false),
    Resource("project-planning-template", "Software Project Planning Template", Template, "Project Management", false),
    Resource("ecommerce-case-study", "E-commerce Success Story: 300% Growth", CaseStudy, "Case Studies", true)
  ]

  const AllCategories: string := "All"

  const Categories: seq<string> := ["All", "Web Development", "Mobile Development", "AI & Automation",
    "SEO & Marketing", "Project Management", "Case Studies"]

  // ---------------------------------------------------------------- filters

  /** `resources.filter(resource => resource.category === category)`. */
  function InCategory(resources: seq<Resource>, category: string): (r: seq<Resource>)
    ensures |r| <= |resources|
  {
    if resources == [] then []
    else (if resources[0].category == category then [resources[0]] else []) + InCategory(resources[1..], category)
  }

  /** `filteredResources`: everything under "All", otherwise the resources of the chosen category. */
  function FilteredResources(resources: seq<Resource>, selected: string): (r: seq<Resource>)
    ensures selected == AllCategories ==> r == resources
    ensures selected != AllCategories ==> r == InCategory(resources, selected)
  {
    if selected == "All" then resources else InCategory(resources, selected)
  }

  /** A category filter keeps exactly the resources of that category. */
  lemma {:induction false} InCategoryMembers(resources: seq<Resource>, category: string)
    ensures forall x :: x in InCategory(resources, category) <==> x in resources && x.category == category
  {
    if resources != [] {
      InCategoryMembers(resources[1..], category);
      assert resources == [resources[0]] + resources[1..];
    }
  }

  /** A category filter keeps source order: it distributes over concatenation. */
  lemma {:induction false} InCategoryKeepsOrder(a: seq<Resource>, b: seq<Resource>, category: string)
    ensures InCategory(a + b, category) == InCategory(a, category) + InCategory(b, category)
  {
    if a == [] {
      assert a + b == b;
    } else {
      var head := if a[0].category == category then [a[0]] else [];
      assert (a + b)[0] == a[0];
      assert (a + b)[1..] == a[1..] + b;
      InCategoryKeepsOrder(a[1..], b, category);
      calc {
        InCategory(a + b, category);
        head + InCategory(a[1..] + b, category);
        (head + InCategory(a[1..], category)) + InCategory(b, category);
      }
    }
  }

  /** `resources.filter(r => r.featured)`. */
  function FeaturedResources(resources: seq<Resource>): (r: seq<Resource>)
    ensures |r| <= |resources|
  {
    if resources == [] then []
    else (if resources[0].featured then [resources[0]] else []) + FeaturedResources(resources[1..])
  }

  /** The featured list holds exactly the featured resources. */
  lemma {:induction false} FeaturedResourceMembers(resources: seq<Resource>)
    ensures forall x :: x in FeaturedResources(resources) <==> x in resources && x.featured
  {
    if resources != [] {
      FeaturedResourceMembers(resources[1..]);
      assert resources == [resources[0]] + resources[1..];
    }
  }

  /** The featured block: present only under "All", listing the featured resources. */
  function FeaturedBlock(selected: string): (r: Option<seq<Resource>>)
    ensures r.Some? <==> selected == AllCategories
    ensures r.Some? ==> forall x :: x in r.value <==> x in Resources && x.featured
  {
    FeaturedResourceMembers(Resources);
    if selected == "All" then Some(FeaturedResources(Resources)) else None
  }

  // ---------------------------------------------------------------- type label

  /** `s.replace(from, to)` with a one-character string pattern: only the first occurrence changes. */
  function ReplaceFirst(s: string, from: char, to: char): (r: string)
    ensures |r| == |s|
    ensures from !in s ==> r == s
  {
    if s == [] then []
    else if s[0] == from then [to] + s[1..]
    else [s[0]] + ReplaceFirst(s[1..], from, to)
  }

  /** The replacement touches only the first occurrence, which becomes `to`. */
  lemma {:induction false} ReplaceFirstChangesFirstOnly(s: string, from: char, to: char, i: nat)
    requires i < |s|
    ensures ReplaceFirst(s, from, to)[i] == if s[i] == from && from !in s[..i] then to else s[i]
  {
    if s[0] != from && i > 0 {
      ReplaceFirstChangesFirstOnly(s[1..], from, to, i - 1);
      assert s[1..][..i - 1] == s[1..i];
      assert s[..i] == [s[0]] + s[1..i];
    } else if s[0] == from && i > 0 {
      assert s[..i][0] == from;
    }
  }

  /** ASCII upper-casing of one character. */
  function UpperChar(c: char): char
  {
    if 'a' <= c <= 'z' then (c as int - 32) as char else c
  }

  /** `toUpperCase()` over the ASCII letters the type names use. */
  function ToUpper(s: string): (r: string)
    ensures |r| == |s|
    ensures forall i :: 0 <= i < |s| ==> r[i] == UpperChar(s[i])
  {
    if s == [] then [] else [UpperChar(s[0])] + ToUpper(s[1..])
  }

  /** `name.replace('-', ' ').toUpperCase()`. */
  function Badge(name: string): (r: string)
    ensures |r| == |name|
    ensures forall i :: 0 <= i < |r| ==> !('a' <= r[i] <= 'z')
  {
    ToUpper(ReplaceFirst(name, '-', ' '))
  }

  /** The badge text of a resource type. */
  function TypeLabel(t: ResourceType): string
  {
    Badge(TypeName(t))
  }

  /** Replacing in a word followed by the pattern character changes only that character. */
  lemma {:induction false} ReplaceAfterWord(w: string, from: char, to: char, rest: string)
    requires from !in w
    ensures ReplaceFirst(w + [from] + rest, from, to) == w + [to] + rest
  {
    if w != [] {
      ReplaceAfterWord(w[1..], from, to, rest);
      assert (w + [from] + rest)[1..] == w[1..] + [from] + rest;
    } else {
      assert w + [from] + rest == [from] + rest;
    }
  }

  /** Each badge character: the first dash becomes a space, every other character is upper-cased. */
  lemma BadgeAt(name: string, i: nat)
    requires i < |name|
    ensures Badge(name)[i] == if name[i] == '-' && '-' !in name[..i] then ' ' else UpperChar(name[i])
  {
    ReplaceFirstChangesFirstOnly(name, '-', ' ', i);
  }

  /** Upper-casing works piece by piece. */
  lemma {:induction false} ToUpperConcat(a: string, b: string)
    ensures ToUpper(a + b) == ToUpper(a) + ToUpper(b)
  {
    if a == [] {
      assert a + b == b;
    } else {
      assert (a + b)[1..] == a[1..] + b;
      ToUpperConcat(a[1..], b);
    }
  }

  /** A dashed name is shown as its two halves upper-cased, joined by a space. */
  lemma DashedBadge(w: string, rest: string)
    requires '-' !in w
    ensures Badge(w + ['-'] + rest) == ToUpper(w) + [' '] + ToUpper(rest)
  {
    ReplaceAfterWord(w, '-', ' ', rest);
    ToUpperConcat(w + [' '], rest);
    ToUpperConcat(w, [' ']);
    assert ToUpper([' ']) == [' '];
  }

  /** Upper-casing the two halves of "case-study". */
  lemma CaseStudyHalvesUpper()
    ensures ToUpper("case") == "CASE" && ToUpper("study") == "STUDY"
  {
    assert UpperChar('c') == 'C' && UpperChar('a') == 'A' && UpperChar('s') == 'S' && UpperChar('e') == 'E';
    assert UpperChar('t') == 'T' && UpperChar('u') == 'U' && UpperChar('d') == 'D' && UpperChar('y') == 'Y';
  }

  /** The upper-cased halves joined by a space. */
  lemma CaseStudyJoined()
    ensures "CASE" + [' '] + "STUDY" == "CASE STUDY"
  {
  }

  /** "case-study" is shown as "CASE STUDY". */
  lemma CaseStudyLabel()
    ensures TypeLabel(CaseStudy) == "CASE STUDY"
  {
    var w, rest := "case", "study";
    assert TypeName(CaseStudy) == w + ['-'] + rest;
    DashedBadge(w, rest);
    CaseStudyHalvesUpper();
    assert TypeLabel(CaseStudy) == Badge(w + ['-'] + rest);
    CaseStudyJoined();
  }

  /** A type without a dash is only upper-cased: "guide" is shown as "GUIDE". */
  lemma GuideLabel()
    ensures TypeLabel(Guide) == "GUIDE"
  {
    assert '-' !in "guide";
    var u := ToUpper("guide");
    assert UpperChar('g') == 'G' && UpperChar('u') == 'U' && UpperChar('i') == 'I';
    assert UpperChar('d') == 'D' && UpperChar('e') == 'E';
    assert u == "GUIDE";
  }

  // ---------------------------------------------------------------- state

  class ResourceCenterState {
    var selectedCategory: string
    var downloadingId: Option<string>

    constructor ()
      ensures selectedCategory == AllCategories && downloadingId == None
    {
      selectedCategory := "All";
      downloadingId := None;
    }

    /** The resources listed in the grid. */
    function Visible(): (r: seq<Resource>)
      reads this
      ensures forall x :: x in r <==> x in Resources && (selectedCategory == AllCategories || x.category == selectedCategory)
    {
      InCategoryMembers(Resources, selectedCategory);
      FilteredResources(Resources, selectedCategory)
    }

    /** A download button is disabled exactly while its own resource downloads. */
    function IsDisabled(resource: Resource): (r: bool)
      reads this
      ensures r <==> downloadingId == Some(resource.id)
    {
      downloadingId.Some? && downloadingId.value == resource.id
    }

    /** A category button. */
    method SelectCategory(category: string)
      modifies this`selectedCategory
      ensures selectedCategory == category
    {
      selectedCategory := category;
    }

    /** The first half of `handleDownload`: this resource's button becomes disabled, every other one enabled. */
    method StartDownload(resource: Resource)
      modifies this`downloadingId
      ensures IsDisabled(resource)
      ensures forall other: Resource :: other.id != resource.id ==> !IsDisabled(other)
    {
      downloadingId := Some(resource.id);
    }

    /** The second half, after the delay: no button is disabled any more. */
    method FinishDownload()
      modifies this`downloadingId
      ensures forall other: Resource :: !IsDisabled(other)
    {
      downloadingId := None;
    }
  }
}
