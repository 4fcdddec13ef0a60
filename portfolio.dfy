/** The Portfolio page: four fixed projects, filtered by a search term and a
    category button, and the technology tags of each card. */
module Portfolio {
  import opened Wrappers
  import opened Text
  import opened Sequences

  datatype Project = Project(
    id: int,
    title: string,
    category: string,
    description: string,
    image: string,
    technologies: seq<string>,
    client: string,
    year: string,
    results: string)

  /** `portfolioItems` */
  const PortfolioItems: seq<Project> := [
    Project(1, "E-Commerce Platform", "Web Development",
      "Developed a full-featured online store with product management, cart functionality, and secure checkout. Implemented responsive design for optimal mobile experience.",
      "bg-gradient-to-r from-indigo-500 to-purple-600",
      ["React", "Node.js", "MongoDB", "Stripe"],
      "Local Boutique", "2023", "Increased client's online sales by 200% in first 3 months"),
    Project(2, "Business Management Dashboard", "Web Application",
      "Custom CRM solution with analytics dashboard, client management, and task tracking. Automated several manual processes saving 15+ hours/week.",
      "bg-gradient-to-r from-cyan-500 to-blue-500",
      ["Vue.js", "Firebase", "Chart.js"],
      "Small Business Client", "2023", "Reduced administrative workload by 40%"),
    Project(3, "Mobile App Prototype", "UI/UX Design",
      "Designed and prototyped a fitness tracking mobile application with custom illustrations and smooth animations.",
      "bg-gradient-to-r from-green-500 to-emerald-500",
      ["Figma", "Adobe XD", "Lottie"],
      "Startup Concept", "2022", "Won local design competition with this concept"),
    Project(4, "Portfolio Website", "Web Development",
      "Modern, performant portfolio website with CMS integration allowing easy content updates by the client.",
      "bg-gradient-to-r from-rose-500 to-pink-500",
      ["Next.js", "Tailwind CSS", "Sanity.io"],
      "Freelance Photographer", "2023", "Client reported 50% increase in booking inquiries")
  ]

  /** The category buttons, "all" first. */
  const FilterButtons: seq<string> := ["all", "Web Development", "Web Application", "UI/UX Design"]

  /** `matchesSearch && matchesFilter`: the term (not trimmed) in the title or
      the description ignoring case, and the category equal to the filter
      unless the filter is "all". */
  function ProjectMatcher(activeFilter: string, searchTerm: string): Project -> bool
  {
    (p: Project) =>
      (MatchesTerm(p.title, searchTerm) || MatchesTerm(p.description, searchTerm))
      && (activeFilter == "all" || p.category == activeFilter)
  }

  /** `filteredProjects` */
  function FilteredProjects(activeFilter: string, searchTerm: string): seq<Project>
  {
    Filter(PortfolioItems, ProjectMatcher(activeFilter, searchTerm))
  }

  /** Over any list of projects, an element is kept exactly when it matches,
      and the kept ones stay in order. */
  lemma ShownIffMatches(items: seq<Project>, activeFilter: string, searchTerm: string, i: nat)
    requires i < |items|
    ensures items[i] in Filter(items, ProjectMatcher(activeFilter, searchTerm)) <==>
      ProjectMatcher(activeFilter, searchTerm)(items[i])
    ensures IsSubsequence(Filter(items, ProjectMatcher(activeFilter, searchTerm)), items)
  {
    var r := Filter(items, ProjectMatcher(activeFilter, searchTerm));
    FilterIsSubsequence(items, ProjectMatcher(activeFilter, searchTerm));
    if items[i] in r {
      var j :| 0 <= j < |r| && r[j] == items[i];
    }
  }

  /** A project is shown exactly when it matches both the search and the
      filter; the shown projects keep the array's order. Unlike the Shop and
      Events searches there is no blank-term case: a term of spaces is
      searched for literally. */
  lemma ProjectShownIff(activeFilter: string, searchTerm: string, i: nat)
    requires i < |PortfolioItems|
    ensures PortfolioItems[i] in FilteredProjects(activeFilter, searchTerm) <==>
      (MatchesTerm(PortfolioItems[i].title, searchTerm) || MatchesTerm(PortfolioItems[i].description, searchTerm))
      && (activeFilter == "all" || PortfolioItems[i].category == activeFilter)
    ensures IsSubsequence(FilteredProjects(activeFilter, searchTerm), PortfolioItems)
  {
    ShownIffMatches(PortfolioItems, activeFilter, searchTerm, i);
  }

  /** The first render, "all" with an empty term, shows every project. */
  lemma InitialShowsAll()
    ensures FilteredProjects("all", "") == PortfolioItems
  {
    forall i | 0 <= i < |PortfolioItems|
      ensures ProjectMatcher("all", "")(PortfolioItems[i])
    {
      EmptyTermMatches(PortfolioItems[i].title);
    }
    FilterAll(PortfolioItems, ProjectMatcher("all", ""));
  }

  /** The project's category is one of the three category buttons. */
  predicate HasButtonCategory(p: Project)
  {
    p.category == "Web Development" || p.category == "Web Application" || p.category == "UI/UX Design"
  }

  /** Every fixed project has one of the button categories. */
  lemma PortfolioCategories()
    ensures forall i :: 0 <= i < |PortfolioItems| ==> HasButtonCategory(PortfolioItems[i])
  {
  }

  /** A project with a button category is shown under "all" exactly when it
      is shown under one button, and never under two. */
  lemma ButtonsExclusive(x: Project, searchTerm: string)
    requires HasButtonCategory(x)
    ensures (ProjectMatcher("all", searchTerm)(x) <==>
               ProjectMatcher("Web Development", searchTerm)(x)
               || ProjectMatcher("Web Application", searchTerm)(x)
               || ProjectMatcher("UI/UX Design", searchTerm)(x))
      && !(ProjectMatcher("Web Development", searchTerm)(x) && ProjectMatcher("Web Application", searchTerm)(x))
      && !(ProjectMatcher("Web Development", searchTerm)(x) && ProjectMatcher("UI/UX Design", searchTerm)(x))
      && !(ProjectMatcher("Web Application", searchTerm)(x) && ProjectMatcher("UI/UX Design", searchTerm)(x))
  {
    assert "Web Development"[4] != "Web Application"[4];
  }

  /** With any term, over projects whose categories all have a button (as
      PortfolioItems does), the three category buttons split what "all"
      shows: each shown project appears under exactly one of them. */
  lemma CategoryButtonsSplitAll(s: seq<Project>, searchTerm: string)
    requires forall i :: 0 <= i < |s| ==> HasButtonCategory(s[i])
    ensures multiset(Filter(s, ProjectMatcher("Web Development", searchTerm)))
      + multiset(Filter(s, ProjectMatcher("Web Application", searchTerm)))
      + multiset(Filter(s, ProjectMatcher("UI/UX Design", searchTerm)))
      == multiset(Filter(s, ProjectMatcher("all", searchTerm)))
  {
    forall i | 0 <= i < |s|
      ensures (ProjectMatcher("all", searchTerm)(s[i]) <==>
                 ProjectMatcher("Web Development", searchTerm)(s[i])
                 || ProjectMatcher("Web Application", searchTerm)(s[i])
                 || ProjectMatcher("UI/UX Design", searchTerm)(s[i]))
        && !(ProjectMatcher("Web Development", searchTerm)(s[i]) && ProjectMatcher("Web Application", searchTerm)(s[i]))
        && !(ProjectMatcher("Web Development", searchTerm)(s[i]) && ProjectMatcher("UI/UX Design", searchTerm)(s[i]))
        && !(ProjectMatcher("Web Application", searchTerm)(s[i]) && ProjectMatcher("UI/UX Design", searchTerm)(s[i]))
    {
      ButtonsExclusive(s[i], searchTerm);
    }
    FilterSplit3(s, ProjectMatcher("Web Development", searchTerm), ProjectMatcher("Web Application", searchTerm),
                 ProjectMatcher("UI/UX Design", searchTerm), ProjectMatcher("all", searchTerm));
  }

  /** What a card shows of a project's technologies. */
  datatype TagRow = TagRow(shown: seq<string>, more: Option<nat>)

  /** `technologies.slice(0, 3)`, then `+{technologies.length - 3}` when there are more than 3. */
  function TechTags(technologies: seq<string>): (r: TagRow)
    ensures |r.shown| <= 3 && r.shown <= technologies
    ensures r.more.Some? <==> |technologies| > 3
    ensures |r.shown| + (if r.more.Some? then r.more.value else 0) == |technologies|
  {
    var shown := Take(technologies, 3);
    if |technologies| > 3 then TagRow(shown, Some(|technologies| - 3)) else TagRow(shown, None)
  }

  /** The tags name every technology up to three, and the "+N" tag counts
      exactly those left out; a card with three or fewer shows them all. */
  lemma TechTagsAccount(technologies: seq<string>)
    ensures var r := TechTags(technologies);
      r.shown + technologies[|r.shown|..] == technologies
      && (r.more.Some? ==> |r.shown| == 3 && r.more.value == |technologies[3..]|)
      && (r.more.None? ==> r.shown == technologies)
  {
  }

  /** Only the first project has a "+1" tag. */
  lemma PortfolioTags()
    ensures TechTags(PortfolioItems[0].technologies) == TagRow(["React", "Node.js", "MongoDB"], Some(1))
    ensures forall i :: 1 <= i < |PortfolioItems| ==> TechTags(PortfolioItems[i].technologies).more == None
  {
    assert PortfolioItems[0].technologies[..3] == ["React", "Node.js", "MongoDB"];
  }
}
