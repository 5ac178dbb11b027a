/**
 * The documents page: the course list filtered (recent, favourites) and shown
 * most recently updated first, favourite toggling, and the documents of the
 * course whose panel is open. Dates are millisecond timestamps; `now` is the
 * clock reading the getter takes.
 */
module Documents {
  import opened Wrappers
  import opened Lists

  /** Three days in milliseconds: 3 * 24 * 60 * 60 * 1000. */
  const ThreeDaysMs: int := 259200000

  datatype Document = Document(id: string, name: string, addedDate: string, addedDateObj: int, courseId: string)

  datatype Course = Course(
    id: string,
    name: string,
    professor: string,
    icon: string,
    color: string,
    lastUpdate: string,
    lastUpdateDate: int,
    documentsCount: int,
    progress: int,
    isFavorite: bool)

  /** The comparator `(a, b) => b.lastUpdateDate - a.lastUpdateDate`: most recent first. */
  predicate UpdatedNoEarlier(a: Course, b: Course) {
    a.lastUpdateDate >= b.lastUpdateDate
  }

  /** The comparator `(a, b) => b.addedDateObj - a.addedDateObj`: newest first. */
  predicate AddedNoEarlier(a: Document, b: Document) {
    a.addedDateObj >= b.addedDateObj
  }

  lemma DateOrdersAreTotalPreorders()
    ensures TotalPreorder(UpdatedNoEarlier)
    ensures TotalPreorder(AddedNoEarlier)
  {
  }

  /** Kept by the filter: updated in the last three days, favourite, or (any other filter) every course. */
  predicate Kept(c: Course, filter: string, now: int) {
    if filter == "recent" then c.lastUpdateDate >= now - ThreeDaysMs
    else if filter == "favorites" then c.isFavorite
    else true
  }

  /** The `filteredCourses` getter: the kept courses, each as often as held, most recent first. */
  function FilteredCourses(courses: seq<Course>, filter: string, now: int): (r: seq<Course>)
    ensures forall c :: multiset(r)[c] == if Kept(c, filter, now) then multiset(courses)[c] else 0
    ensures filter != "recent" && filter != "favorites" ==> multiset(r) == multiset(courses)
    ensures SortedBy(UpdatedNoEarlier, r)
  {
    DateOrdersAreTotalPreorders();
    var kept :=
      if filter == "recent" then Filter((c: Course) => c.lastUpdateDate >= now - ThreeDaysMs, courses)
      else if filter == "favorites" then Filter((c: Course) => c.isFavorite, courses)
      else courses;
    SortBy(UpdatedNoEarlier, kept)
  }

  /** `find(c => c.id === id)`, as an index: the first course with that id, or -1. */
  function FirstWithId(courses: seq<Course>, id: string): (k: int)
    ensures -1 <= k < |courses|
    ensures 0 <= k ==> courses[k].id == id && forall j :: 0 <= j < k ==> courses[j].id != id
    ensures k == -1 ==> forall j :: 0 <= j < |courses| ==> courses[j].id != id
  {
    FirstIndex(courses, (c: Course) => c.id == id)
  }

  /** The list after `toggleFavorite(id)`. */
  function FavoriteToggled(courses: seq<Course>, id: string): (r: seq<Course>)
    ensures |r| == |courses|
    ensures forall j :: 0 <= j < |r| ==>
      r[j] == if j == FirstWithId(courses, id) then courses[j].(isFavorite := !courses[j].isFavorite) else courses[j]
  {
    var k := FirstWithId(courses, id);
    if k == -1 then courses else courses[k := courses[k].(isFavorite := !courses[k].isFavorite)]
  }

  /** Toggling twice restores the list; an unknown id changes nothing. */
  lemma FavoriteToggledProperties(courses: seq<Course>, id: string)
    ensures FavoriteToggled(FavoriteToggled(courses, id), id) == courses
    ensures (forall j :: 0 <= j < |courses| ==> courses[j].id != id) ==> FavoriteToggled(courses, id) == courses
  {
    var once := FavoriteToggled(courses, id);
    var k := FirstWithId(courses, id);
    if k != -1 {
      assert FirstWithId(once, id) == k by {
        assert forall j :: 0 <= j < k ==> once[j].id == courses[j].id;
      }
      assert FavoriteToggled(once, id) == courses;
    }
  }

  /** `getSelectedCourse`: the first course whose id is the selected one; none when nothing is selected. */
  function SelectedCourse(courses: seq<Course>, selectedCourseId: Option<string>): (r: Option<Course>)
    ensures r.Some? <==> selectedCourseId.Some? && exists j :: 0 <= j < |courses| && courses[j].id == selectedCourseId.value
    ensures r.Some? ==> r.value == courses[FirstWithId(courses, selectedCourseId.value)]
  {
    if selectedCourseId.None? then None
    else
      var k := FirstWithId(courses, selectedCourseId.value);
      if k == -1 then None else Some(courses[k])
  }

  /**
   * `getCourseDocuments`: nothing without a selected course (an empty id counts
   * as none); otherwise exactly that course's documents, newest first.
   */
  function CourseDocuments(documents: seq<Document>, selectedCourseId: Option<string>): (r: seq<Document>)
    ensures !Truthy(selectedCourseId) ==> r == []
    ensures Truthy(selectedCourseId) ==>
      forall d :: multiset(r)[d] == if d.courseId == selectedCourseId.value then multiset(documents)[d] else 0
    ensures SortedBy(AddedNoEarlier, r)
  {
    DateOrdersAreTotalPreorders();
    if !Truthy(selectedCourseId) then []
    else
      var id := selectedCourseId.value;
      SortBy(AddedNoEarlier, Filter((d: Document) => d.courseId == id, documents))
  }

  class DocumentPage {
    var selectedFilter: string
    var selectedCourseId: Option<string>
    var documents: seq<Document>
    var courses: seq<Course>

    constructor (initialDocuments: seq<Document>, initialCourses: seq<Course>)
      ensures selectedFilter == "all" && selectedCourseId == None
      ensures documents == initialDocuments && courses == initialCourses
    {
      selectedFilter := "all";
      selectedCourseId := None;
      documents := initialDocuments;
      courses := initialCourses;
    }

    /** `sortCoursesByDate`: reorders the held courses, most recent first. */
    method SortCoursesByDate()
      modifies this`courses
      ensures multiset(courses) == multiset(old(courses))
      ensures SortedBy(UpdatedNoEarlier, courses)
    {
      DateOrdersAreTotalPreorders();
      courses := SortBy(UpdatedNoEarlier, courses);
    }

    /** `toggleFavorite` */
    method ToggleFavorite(courseId: string)
      modifies this`courses
      ensures courses == FavoriteToggled(old(courses), courseId)
    {
      var k := FirstWithId(courses, courseId);
      if k != -1 {
        courses := courses[k := courses[k].(isFavorite := !courses[k].isFavorite)];
      }
    }

    /** `openCourseDocuments` */
    method OpenCourseDocuments(courseId: string)
      modifies this`selectedCourseId
      ensures selectedCourseId == Some(courseId)
    {
      selectedCourseId := Some(courseId);
    }

    /** `closeDocumentsModal` */
    method CloseDocumentsModal()
      modifies this`selectedCourseId
      ensures selectedCourseId == None
      ensures SelectedCourse(courses, selectedCourseId) == None && CourseDocuments(documents, selectedCourseId) == []
    {
      selectedCourseId := None;
    }
  }
}
