/** The project table of components/Portfolio.tsx and the category filter
    behind its tabs. The rendering is not modelled; `activeCategory` is the
    value the tab buttons select. */
module Portfolio {

  datatype Project = Project(
    id: nat,
    title: string,
    category: string,
    description: string,
    image: string,
    technologies: seq<string>,
    liveUrl: string,
    githubUrl: string)

  const Projects: seq<Project> := [
    Project(1, "E-commerce Platform", "Web Application",
      "A full-featured e-commerce platform with payment processing, inventory management, and admin dashboard.",
      "https://images.unsplash.com/photo-1556742049-0cfed4f6a45d?ixlib=rb-4.0.3&auto=format&fit=crop&w=800&q=80",
      ["Next.js", "TypeScript", "Stripe", "PostgreSQL"], "#", "#"),
    Project(2, "SaaS Dashboard", "Web Application",
      "Modern SaaS dashboard with real-time analytics, user management, and subscription handling.",
      "https://images.unsplash.com/photo-1551288049-bebda4e38f71?ixlib=rb-4.0.3&auto=format&fit=crop&w=800&q=80",
      ["React", "Node.js", "MongoDB", "Chart.js"], "#", "#"),
    Project(3, "Restaurant Website", "Website",
      "Elegant restaurant website with online reservation system and menu management.",
      "https://images.unsplash.com/photo-1517248135467-4c7edcad34c4?ixlib=rb-4.0.3&auto=format&fit=crop&w=800&q=80",
      ["Next.js", "Tailwind CSS", "Sanity CMS"], "#", "#"),
    Project(4, "Fitness App", "Mobile App",
      "Cross-platform fitness tracking app with workout plans and progress monitoring.",
      "https://images.unsplash.com/photo-1571019613454-1cb2f99b2d8b?ixlib=rb-4.0.3&auto=format&fit=crop&w=800&q=80",
      ["React Native", "Firebase", "Redux"], "#", "#"),
    Project(5, "Real Estate Platform", "Web Application",
      "Comprehensive real estate platform with property listings, virtual tours, and agent portal.",
      "https://images.unsplash.com/photo-1560518883-ce09059eeffa?ixlib=rb-4.0.3&auto=format&fit=crop&w=800&q=80",
      ["Vue.js", "Laravel", "MySQL", "Google Maps API"], "#", "#"),
    Project(6, "Learning Management System", "Web Application",
      "Educational platform with course management, video streaming, and progress tracking.",
      "https://images.unsplash.com/photo-1503676260728-1c00da094a0b?ixlib=rb-4.0.3&auto=format&fit=crop&w=800&q=80",
      ["Next.js", "Prisma", "PostgreSQL", "AWS S3"], "#", "#")
  ]

  const All: string := "All"
  const Categories: seq<string> := [All, "Web Application", "Website", "Mobile App"]

  // ---------------------------------------------------------------------------
  // The filter

  /** `ps.filter(project => project.category === category)`. */
  function FilterByCategory(ps: seq<Project>, category: string): (r: seq<Project>)
    ensures |r| <= |ps|
    // sound: only matching projects of `ps` are kept
    ensures forall p :: p in r ==> p in ps && p.category == category
    // complete: every matching project of `ps` is kept
    ensures forall p :: p in ps && p.category == category ==> p in r
    decreases |ps|
  {
    if ps == [] then
      []
    else if ps[0].category == category then
      [ps[0]] + FilterByCategory(ps[1..], category)
    else
      FilterByCategory(ps[1..], category)
  }

  /** `filteredProjects`: everything for "All", otherwise the projects of the
      chosen category, in table order. */
  function FilteredProjects(projects: seq<Project>, activeCategory: string): (r: seq<Project>)
    ensures activeCategory == All ==> r == projects
    ensures activeCategory != All ==>
              forall p :: p in r <==> p in projects && p.category == activeCategory
    ensures IsSubsequence(r, projects)
  {
    if activeCategory == All then
      IdentityIsSubsequence(projects);
      projects
    else
      FilterIsSubsequence(projects, activeCategory);
      FilterByCategory(projects, activeCategory)
  }

  // ---------------------------------------------------------------------------
  // Order and duplicates

  /** `idx` lists, in strictly increasing order, the positions in `b` of the
      elements of `a`. */
  ghost predicate Embeds(a: seq<Project>, b: seq<Project>, idx: seq<nat>) {
    && |idx| == |a|
    && (forall j :: 0 <= j < |idx| ==> idx[j] < |b| && b[idx[j]] == a[j])
    && (forall j, k :: 0 <= j < k < |idx| ==> idx[j] < idx[k])
  }

  /** `a` is `b` with some elements left out, the rest in their order. */
  ghost predicate IsSubsequence(a: seq<Project>, b: seq<Project>) {
    exists idx :: Embeds(a, b, idx)
  }

  ghost predicate Distinct(s: seq<Project>) {
    forall i, j :: 0 <= i < j < |s| ==> s[i] != s[j]
  }

  lemma IdentityIsSubsequence(ps: seq<Project>)
    ensures IsSubsequence(ps, ps)
  {
    var idx: seq<nat> := seq(|ps|, j requires 0 <= j < |ps| => j);
    assert Embeds(ps, ps, idx);
  }

  /** Skipping the head of `b` keeps a subsequence of its tail a subsequence. */
  lemma SubsequenceOfTail(a: seq<Project>, b: seq<Project>)
    requires b != [] && IsSubsequence(a, b[1..])
    ensures IsSubsequence(a, b)
  {
    var idx :| Embeds(a, b[1..], idx);
    var shifted: seq<nat> := seq(|idx|, j requires 0 <= j < |idx| => idx[j] + 1);
    forall j | 0 <= j < |shifted|
      ensures shifted[j] < |b| && b[shifted[j]] == a[j]
    {
      assert b[shifted[j]] == b[1..][idx[j]];
    }
    assert Embeds(a, b, shifted);
  }

  /** Keeping the head of `b` in front of a subsequence of its tail gives a
      subsequence of `b`. */
  lemma SubsequenceWithHead(a: seq<Project>, b: seq<Project>)
    requires b != [] && IsSubsequence(a, b[1..])
    ensures IsSubsequence([b[0]] + a, b)
  {
    var idx :| Embeds(a, b[1..], idx);
    var idx': seq<nat> := [0] + seq(|idx|, j requires 0 <= j < |idx| => idx[j] + 1);
    var r := [b[0]] + a;
    forall j | 0 <= j < |idx'|
      ensures idx'[j] < |b| && b[idx'[j]] == r[j]
    {
      if j > 0 {
        assert b[idx'[j]] == b[1..][idx[j - 1]] && r[j] == a[j - 1];
      }
    }
    assert Embeds(r, b, idx');
  }

  lemma {:induction false} FilterIsSubsequence(ps: seq<Project>, category: string)
    ensures IsSubsequence(FilterByCategory(ps, category), ps)
    decreases |ps|
  {
    if ps == [] {
      assert Embeds([], [], []);
    } else {
      FilterIsSubsequence(ps[1..], category);
      if ps[0].category == category {
        SubsequenceWithHead(FilterByCategory(ps[1..], category), ps);
      } else {
        SubsequenceOfTail(FilterByCategory(ps[1..], category), ps);
      }
    }
  }

  /** A subsequence of a table without duplicates has none either. */
  lemma SubsequenceKeepsDistinct(a: seq<Project>, b: seq<Project>)
    requires IsSubsequence(a, b) && Distinct(b)
    ensures Distinct(a)
  {
    var idx :| Embeds(a, b, idx);
    forall i, j | 0 <= i < j < |a|
      ensures a[i] != a[j]
    {
      assert b[idx[i]] == a[i] && b[idx[j]] == a[j] && idx[i] < idx[j];
    }
  }

  /** Every project of the table has its own id, so no project is listed twice. */
  lemma ProjectsDistinct()
    ensures Distinct(Projects)
  {
    forall i, j | 0 <= i < j < |Projects|
      ensures Projects[i] != Projects[j]
    {
      assert Projects[i].id == i + 1 && Projects[j].id == j + 1;
    }
  }

  /** The filtered list shows no project twice. */
  lemma FilteredProjectsDistinct(activeCategory: string)
    ensures Distinct(FilteredProjects(Projects, activeCategory))
  {
    ProjectsDistinct();
    SubsequenceKeepsDistinct(FilteredProjects(Projects, activeCategory), Projects);
  }

  // ---------------------------------------------------------------------------
  // Multiplicities and idempotence

  /** The filter keeps every copy of a matching project and no copy of any
      other. */
  lemma {:induction false} FilterMultiplicity(ps: seq<Project>, category: string, p: Project)
    ensures multiset(FilterByCategory(ps, category))[p] ==
            if p.category == category then multiset(ps)[p] else 0
    decreases |ps|
  {
    if ps != [] {
      FilterMultiplicity(ps[1..], category, p);
      assert ps == [ps[0]] + ps[1..];
    }
  }

  /** A filtered list is its own filter. */
  lemma {:induction false} FilterIdempotent(ps: seq<Project>, category: string)
    ensures FilterByCategory(FilterByCategory(ps, category), category) == FilterByCategory(ps, category)
    decreases |ps|
  {
    if ps != [] {
      FilterIdempotent(ps[1..], category);
      var rest := FilterByCategory(ps[1..], category);
      if ps[0].category == category {
        assert ([ps[0]] + rest)[1..] == rest;
      }
    }
  }

  /** Choosing the same tab twice shows the same list. */
  lemma FilteredProjectsIdempotent(projects: seq<Project>, activeCategory: string)
    ensures FilteredProjects(FilteredProjects(projects, activeCategory), activeCategory) ==
            FilteredProjects(projects, activeCategory)
  {
    if activeCategory != All {
      FilterIdempotent(projects, activeCategory);
    }
  }

  // ---------------------------------------------------------------------------
  // The shipped table

  /** One step of the filter over the suffix of `ps` from index `k`. */
  lemma FilterSuffixStep(ps: seq<Project>, k: nat, category: string)
    requires k < |ps|
    ensures |FilterByCategory(ps[k..], category)| ==
            (if ps[k].category == category then 1 else 0) + |FilterByCategory(ps[k + 1..], category)|
  {
    assert ps[k..][0] == ps[k] && ps[k..][1..] == ps[k + 1..];
  }

  /** The length of a category's list on the shipped table, counted one
      project at a time. */
  lemma CountOnTable(category: string)
    ensures |FilterByCategory(Projects, category)| ==
            (if category == "Web Application" then 4 else 0) +
            (if category == "Website" then 1 else 0) +
            (if category == "Mobile App" then 1 else 0)
  {
    assert Projects[0].category == "Web Application";
    assert Projects[1].category == "Web Application";
    assert Projects[2].category == "Website";
    assert Projects[3].category == "Mobile App";
    assert Projects[4].category == "Web Application";
    assert Projects[5].category == "Web Application";
    FilterSuffixStep(Projects, 5, category);
    FilterSuffixStep(Projects, 4, category);
    FilterSuffixStep(Projects, 3, category);
    FilterSuffixStep(Projects, 2, category);
    FilterSuffixStep(Projects, 1, category);
    FilterSuffixStep(Projects, 0, category);
    assert Projects[6..] == [] && Projects[0..] == Projects;
  }

  lemma ShippedCounts()
    ensures |FilteredProjects(Projects, "Web Application")| == 4
    ensures |FilteredProjects(Projects, "Website")| == 1
    ensures |FilteredProjects(Projects, "Mobile App")| == 1
    ensures |FilteredProjects(Projects, All)| == 6
  {
    CountOnTable("Web Application");
    CountOnTable("Website");
    CountOnTable("Mobile App");
  }

  /** Every project of the table carries one of the three categories other
      than "All". */
  lemma EveryProjectIsCategorised()
    ensures forall i :: 0 <= i < |Projects| ==> Projects[i].category in Categories[1..]
  {
    assert Categories[1..] == ["Web Application", "Website", "Mobile App"];
    assert Projects[0].category == "Web Application";
    assert Projects[1].category == "Web Application";
    assert Projects[2].category == "Website";
    assert Projects[3].category == "Mobile App";
    assert Projects[4].category == "Web Application";
    assert Projects[5].category == "Web Application";
  }

  /** Filtering by three different categories splits any list whose every
      project carries one of them. */
  lemma PartitionByCategories(ps: seq<Project>, c1: string, c2: string, c3: string)
    requires c1 != c2 && c2 != c3 && c1 != c3
    requires forall i :: 0 <= i < |ps| ==> ps[i].category == c1 || ps[i].category == c2 || ps[i].category == c3
    ensures multiset(FilterByCategory(ps, c1)) + multiset(FilterByCategory(ps, c2)) +
            multiset(FilterByCategory(ps, c3)) == multiset(ps)
  {
    var m := multiset(FilterByCategory(ps, c1)) + multiset(FilterByCategory(ps, c2)) + multiset(FilterByCategory(ps, c3));
    forall p: Project
      ensures m[p] == multiset(ps)[p]
    {
      FilterMultiplicity(ps, c1, p);
      FilterMultiplicity(ps, c2, p);
      FilterMultiplicity(ps, c3, p);
      if p in ps {
        var i :| 0 <= i < |ps| && ps[i] == p;
      }
    }
    assert m == multiset(ps);
  }

  /** The three categories other than "All" split the table: together their
      lists hold every project of the table exactly as often as the table
      does. */
  lemma CategoriesPartitionProjects()
    ensures multiset(FilteredProjects(Projects, Categories[1])) + multiset(FilteredProjects(Projects, Categories[2])) +
            multiset(FilteredProjects(Projects, Categories[3])) == multiset(Projects)
    ensures |FilteredProjects(Projects, Categories[1])| + |FilteredProjects(Projects, Categories[2])| +
            |FilteredProjects(Projects, Categories[3])| == |Projects|
  {
    assert Categories[1] == "Web Application" && Categories[2] == "Website" && Categories[3] == "Mobile App";
    assert Categories[1..] == [Categories[1], Categories[2], Categories[3]];
    EveryProjectIsCategorised();
    PartitionByCategories(Projects, Categories[1], Categories[2], Categories[3]);
    ShippedCounts();
  }
}
