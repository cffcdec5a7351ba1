/**
 * The tech-stack section: six constant stacks of technologies with skill
 * levels, a row of category buttons, and the filter the selected button applies.
 */
module TechStack {
  import opened Text
  import opened Buffers

  datatype Technology = Technology(name: string, level: int)

  datatype Stack = Stack(
    id: nat,
    category: string,
    title: string,
    projects: nat,
    experience: string,
    technologies: seq<Technology>)

  const Frontend: Stack := Stack(1, "Frontend", "Frontend Development", 25, "3+ years", FrontendTechnologies)
  const FrontendTechnologies: seq<Technology> := [
    Technology("React", 90), Technology("TypeScript", 85), Technology("Next.js", 80),
    Technology("Tailwind CSS", 95), Technology("Framer Motion", 85)]

  const Backend: Stack := Stack(2, "Backend", "Backend Development", 20, "3+ years", BackendTechnologies)
  const BackendTechnologies: seq<Technology> := [
    Technology("Node.js", 85), Technology("Express", 90), Technology("Python", 75),
    Technology("GraphQL", 70)]

  const Database: Stack := Stack(3, "Database", "Database Management", 18, "2+ years", DatabaseTechnologies)
  const DatabaseTechnologies: seq<Technology> := [
    Technology("MongoDB", 80), Technology("PostgreSQL", 75), Technology("MySQL", 75),
    Technology("Redis", 65), Technology("Prisma", 70)]

  const DevOps: Stack := Stack(4, "DevOps", "DevOps & Cloud", 15, "2+ years", DevOpsTechnologies)
  const DevOpsTechnologies: seq<Technology> := [
    Technology("Docker", 70), Technology("Kubernetes", 60), Technology("AWS", 65),
    Technology("Firebase", 75), Technology("Git", 90)]

  const AiMl: Stack := Stack(5, "AI/ML", "AI & Machine Learning", 8, "1+ years", AiMlTechnologies)
  const AiMlTechnologies: seq<Technology> := [
    Technology("Gemini AI", 85), Technology("TensorFlow", 60), Technology("OpenAI API", 75),
    Technology("LangChain", 65)]

  const Mobile: Stack := Stack(6, "Mobile", "Mobile Development", 5, "1+ years", MobileTechnologies)
  const MobileTechnologies: seq<Technology> := [
    Technology("React Native", 70), Technology("Flutter", 60), Technology("Expo", 75)]

  /** The stacks in display order. */
  const TechStacks: seq<Stack> := [Frontend, Backend, Database, DevOps, AiMl, Mobile]

  /** The filter buttons, in display order. */
  const Categories: seq<string> := ["all", "Frontend", "Backend", "Database", "DevOps", "AI/ML", "Mobile"]

  /** The category selected before any button is pressed. */
  const InitialCategory: string := "all"

  /** The keep test of the filter. */
  function InCategory(c: string): Stack -> bool
  {
    (s: Stack) => s.category == c
  }

  /**
   * `filteredStacks`: every stack for "all", otherwise exactly the stacks of
   * the selected category, in their original order.
   */
  function FilteredStacks(selected: string): (r: seq<Stack>)
    ensures selected == "all" ==> r == TechStacks
    ensures selected != "all" ==> forall s :: s in r <==> s in TechStacks && s.category == selected
  {
    if selected == "all" then TechStacks
    else
      KeptMembers(TechStacks, InCategory(selected));
      Kept(TechStacks, InCategory(selected))
  }

  /** Filtering keeps relative order: stacks before a split point are listed before those after it. */
  lemma FilterKeepsOrder(selected: string, k: nat)
    requires selected != "all" && k <= |TechStacks|
    ensures FilteredStacks(selected)
            == Kept(TechStacks[..k], InCategory(selected)) + Kept(TechStacks[k..], InCategory(selected))
  {
    assert TechStacks == TechStacks[..k] + TechStacks[k..];
    KeptAppend(TechStacks[..k], TechStacks[k..], InCategory(selected));
  }

  /** The stacks' categories are the buttons after "all", in order, each used once. */
  lemma CategoriesMatchStacks()
    ensures |TechStacks| == |Categories| - 1
    ensures forall i :: 0 <= i < |TechStacks| ==> TechStacks[i].category == Categories[i + 1]
    ensures forall i, j :: 0 <= i < j < |TechStacks| ==> TechStacks[i].category != TechStacks[j].category
    ensures "all" !in Categories[1..]
  {
  }

  /** A category owned by exactly one stack filters down to that one stack. */
  lemma {:induction false} KeptUnique(ps: seq<Stack>, c: string, i: nat)
    requires i < |ps| && ps[i].category == c
    requires forall j :: 0 <= j < |ps| && j != i ==> ps[j].category != c
    ensures Kept(ps, InCategory(c)) == [ps[i]]
  {
    if i == 0 {
      KeptNone(ps[1..], InCategory(c));
    } else {
      KeptUnique(ps[1..], c, i - 1);
    }
  }

  /** Each button other than "all" shows exactly one stack. */
  lemma EachCategoryOneStack(k: nat)
    requires 1 <= k < |Categories|
    ensures FilteredStacks(Categories[k]) == [TechStacks[k - 1]]
  {
    CategoriesMatchStacks();
    KeptUnique(TechStacks, Categories[k], k - 1);
  }

  /** A category that no button offers shows nothing. */
  lemma UnknownCategoryEmpty(c: string)
    requires c !in Categories
    ensures FilteredStacks(c) == []
  {
    CategoriesMatchStacks();
    assert forall i :: 0 <= i < |TechStacks| ==> TechStacks[i].category in Categories;
    KeptNone(TechStacks, InCategory(c));
  }

  /** A button's label: `category.charAt(0).toUpperCase() + category.slice(1)`. */
  function Label(category: string): (l: string)
    ensures |l| == |category|
    ensures |category| > 0 ==> l[0] == UpperChar(category[0]) && l[1..] == category[1..]
  {
    if category == "" then "" else [UpperChar(category[0])] + category[1..]
  }

  /** "all" is shown as "All"; the other labels are already capitalised and show as written. */
  lemma Labels()
    ensures Label("all") == "All"
    ensures forall k :: 1 <= k < |Categories| ==> Label(Categories[k]) == Categories[k]
  {
  }

  /** Every skill level is a valid bar width, between 0 and 100 percent. */
  lemma LevelsArePercentages()
    ensures forall k, j :: 0 <= k < |TechStacks| && 0 <= j < |TechStacks[k].technologies| ==>
              0 <= TechStacks[k].technologies[j].level <= 100
  {
  }
}
