/** The course catalogue page: the fixed catalogue, the filter that keeps the
    courses whose title contains the `query` search parameter ignoring case,
    what the list shows, and the search button's navigation. The router and
    `encodeURIComponent` (the parameter `encode`) are outside the model; the
    navigation is the returned value. */
module Courses {
  import opened Common

  /** A price is in rupees. */
  datatype Course = Course(id: string, title: string, image: string, price: nat)

  const Catalogue: seq<Course> := [
    Course("reactjs", "React Js", "/images/01.jpg", 2999),
    Course("full-stack", "Full Stack", "/images/02.jpg", 4999),
    Course("cloud-computing", "Cloud Computing", "/images/03.jpg", 1999),
    Course("data-structures", "Data Structures", "/images/04.jpg", 3999),
    Course("ai-ml", "AI & Machine Learning", "/images/05.jpg", 4999),
    Course("data-science", "Data Science & Analytics", "/images/06.jpg", 1999),
    Course("cybersecurity", "Cybersecurity", "/images/07.jpg", 3999),
    Course("blockchain", "Blockchain & Web3", "/images/08.jpg", 1999),
    Course("robotics", "Robotics & Automation", "/images/09.jpg", 3999)
  ]

  /** Every course has its own id, its key in the list and its link. */
  lemma CatalogueIdsDistinct()
    ensures |Catalogue| == 9
    ensures forall i, j :: 0 <= i < j < |Catalogue| ==> Catalogue[i].id != Catalogue[j].id
  {
  }

  /** `searchParams.get("query") || ""`. */
  function QueryOf(param: Option<string>): (q: string)
    ensures param.Some? ==> q == param.value
    ensures param.None? ==> q == ""
  {
    OrElse(param, "")
  }

  /** The filter's test: the lower-cased title contains the lower-cased query. */
  predicate Matches(course: Course, query: string)
  {
    Includes(Lower(course.title), Lower(query))
  }

  /** `a` is `b` with some elements dropped, the rest in their order. */
  ghost predicate IsSubsequence<T>(a: seq<T>, b: seq<T>)
  {
    if a == [] then true
    else if b == [] then false
    else (a[0] == b[0] && IsSubsequence(a[1..], b[1..])) || IsSubsequence(a, b[1..])
  }

  /** `courses.filter(course => Matches(course, query))`. */
  function Filter(courses: seq<Course>, query: string): (r: seq<Course>)
    ensures forall c :: c in r <==> c in courses && Matches(c, query)
    ensures IsSubsequence(r, courses)
    // each matching course is kept as often as it occurs, the others not at all
    ensures forall c :: multiset(r)[c] == if Matches(c, query) then multiset(courses)[c] else 0
    ensures |r| <= |courses|
  {
    if courses == [] then []
    else
      assert courses == [courses[0]] + courses[1..];
      if Matches(courses[0], query) then [courses[0]] + Filter(courses[1..], query)
      else Filter(courses[1..], query)
  }

  /** The effect: a non-empty query filters the catalogue; an empty one shows
      all of it. */
  function Visible(query: string): (r: seq<Course>)
    ensures query == "" ==> r == Catalogue
    ensures forall c :: c in r <==> c in Catalogue && Matches(c, query)
    ensures IsSubsequence(r, Catalogue)
  {
    if query != "" then Filter(Catalogue, query)
    else
      EmptyQueryKeepsAll(Catalogue);
      Catalogue
  }

  /** The empty query is contained in every title, so filtering with it would
      keep the whole list as well: the `else` branch is the filter's own
      answer. */
  lemma {:induction false} EmptyQueryKeepsAll(courses: seq<Course>)
    ensures Filter(courses, "") == courses
  {
    if courses != [] {
      assert OccursAt(Lower(courses[0].title), Lower(""), 0);
      EmptyQueryKeepsAll(courses[1..]);
    }
  }

  /** The filter only sees the query in lower case. */
  lemma {:induction false} FilterCaseIgnored(courses: seq<Course>, query: string)
    ensures Filter(courses, Upper(query)) == Filter(courses, query)
  {
    LowerOfUpper(query);
    if courses != [] {
      FilterCaseIgnored(courses[1..], query);
    }
  }

  /** Typing the query in capitals lists the same courses in the same order. */
  lemma QueryCaseIgnored(query: string)
    ensures Visible(Upper(query)) == Visible(query)
  {
    FilterCaseIgnored(Catalogue, query);
    assert |Upper(query)| == |query|;
  }

  datatype Listing = Cards(courses: seq<Course>) | NoCoursesFound

  /** The grid: one card per filtered course, or "No courses found." */
  function Render(filtered: seq<Course>): (v: Listing)
    ensures v == NoCoursesFound <==> |filtered| == 0
    ensures v.Cards? ==> v.courses == filtered
  {
    if |filtered| > 0 then Cards(filtered) else NoCoursesFound
  }

  /** "No courses found." is shown exactly when no catalogue title contains
      the query, ignoring case. */
  lemma NothingFoundIff(query: string)
    ensures Render(Visible(query)) == NoCoursesFound <==>
      forall c :: c in Catalogue ==> !Matches(c, query)
  {
    var r := Visible(query);
    if r != [] {
      assert r[0] in r;
    }
  }

  const SearchPrefix := "/courses?query="

  /** `handleSearch`: nothing for a term that is blank once trimmed; otherwise
      a navigation to the catalogue with the whole, untrimmed, encoded term as
      `query`. */
  function HandleSearch(term: string, encode: string -> string): (r: Option<string>)
    ensures r.None? <==> forall i :: 0 <= i < |term| ==> IsSpace(term[i])
    ensures r.Some? ==> SearchPrefix <= r.value && r.value[|SearchPrefix|..] == encode(term)
  {
    TrimEmptyIff(term);
    if Trim(term) == "" then None else Some(SearchPrefix + encode(term))
  }
}
