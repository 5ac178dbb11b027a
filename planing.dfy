/**
 * The weekly schedule page: a Monday-first week of seven days, day-by-day
 * navigation that rolls the week over at its ends, and the courses of the
 * selected day in start-time order.
 *
 * Calendar dates are day numbers: day 0 is Thursday 1 January 1970.
 */
module Planing {
  import opened Wrappers
  import opened Lists
  import opened SessionStore

  const DaysFull: seq<string> := ["Lundi", "Mardi", "Mercredi", "Jeudi", "Vendredi", "Samedi", "Dimanche"]
  const DaysShort: seq<string> := ["Lun", "Mardi", "Mer", "Jeu", "Ven", "Sam", "Dim"]
  /** The table of `getTodayName`, indexed by `Date.getDay()` (0 = Sunday). */
  const DaysBySundayIndex: seq<string> := ["Dimanche", "Lundi", "Mardi", "Mercredi", "Jeudi", "Vendredi", "Samedi"]

  /** `Date.getDay()` of a day number: 0 is Sunday, 1 is Monday, ... */
  function DayOfWeek(d: int): (w: int)
    ensures 0 <= w < 7
  {
    (d + 4) % 7
  }

  /** How far back the week's Monday is: Sunday belongs to the week that began six days before. */
  function MondayOffset(dayOfWeek: int): (k: int)
    requires 0 <= dayOfWeek < 7
    ensures -6 <= k <= 0
    ensures (dayOfWeek + k + 7) % 7 == 1
  {
    if dayOfWeek == 0 then -6 else 1 - dayOfWeek
  }

  /** The Monday on or before `today`. */
  function MondayOf(today: int): (monday: int)
    ensures DayOfWeek(monday) == 1
    ensures today - 6 <= monday <= today
  {
    var d := DayOfWeek(today);
    var k := MondayOffset(d);
    var q := (today + 4) / 7;
    assert today + 4 == 7 * q + d;
    assert today + k + 4 == 7 * (q - 1) + (d + k + 7);
    today + k
  }

  /** `getTodayName`: the French name of the weekday of `today`. */
  function TodayName(today: int): (name: string)
    ensures name in DaysFull
    ensures name == DaysFull[(DayOfWeek(today) + 6) % 7]
  {
    DaysBySundayIndex[DayOfWeek(today)]
  }

  datatype DayShort = DayShort(name: string, shortName: string, date: int)

  /** Seven entries named Lundi to Dimanche in order, on consecutive dates. */
  predicate IsWeek(w: seq<DayShort>) {
    && |w| == 7
    && (forall i :: 0 <= i < 7 ==> w[i].name == DaysFull[i] && w[i].shortName == DaysShort[i])
    && (forall i :: 0 <= i < 7 ==> w[i].date == w[0].date + i)
  }

  /** Each entry of a week that starts on a Monday carries the name of its own weekday. */
  lemma WeekNamesMatchCalendar(w: seq<DayShort>)
    requires IsWeek(w) && DayOfWeek(w[0].date) == 1
    ensures forall i :: 0 <= i < 7 ==> TodayName(w[i].date) == w[i].name
  {
    forall i | 0 <= i < 7
      ensures TodayName(w[i].date) == w[i].name
    {
      assert DayOfWeek(w[i].date) == (1 + i) % 7;
    }
  }

  /** `findIndex(day => day.name === name)`: the first entry with that name, or -1. */
  function FindIndex(week: seq<DayShort>, name: string): (k: int)
    ensures -1 <= k < |week|
    ensures 0 <= k ==> week[k].name == name && forall j :: 0 <= j < k ==> week[j].name != name
    ensures k == -1 ==> forall j :: 0 <= j < |week| ==> week[j].name != name
  {
    FirstIndex(week, (d: DayShort) => d.name == name)
  }

  /** In a week, every name is found at its own position. */
  lemma FindIndexInWeek(w: seq<DayShort>, k: int)
    requires IsWeek(w) && 0 <= k < 7
    ensures FindIndex(w, w[k].name) == k
  {
    assert forall i, j :: 0 <= i < j < 7 ==> DaysFull[i] != DaysFull[j];
  }

  /** `shiftWeekDays`: the same entries, every date moved by `days`. */
  function ShiftWeekDays(week: seq<DayShort>, days: int): (r: seq<DayShort>)
    ensures |r| == |week|
    ensures forall i :: 0 <= i < |week| ==>
      r[i].name == week[i].name && r[i].shortName == week[i].shortName && r[i].date == week[i].date + days
  {
    seq(|week|, i requires 0 <= i < |week| => week[i].(date := week[i].date + days))
  }

  /** Shifting preserves the week shape and, by whole weeks, the weekdays. */
  lemma ShiftKeepsWeek(w: seq<DayShort>, k: int)
    requires IsWeek(w)
    ensures IsWeek(ShiftWeekDays(w, k))
    ensures DayOfWeek(ShiftWeekDays(w, 7 * k)[0].date) == DayOfWeek(w[0].date)
  {
  }

  lemma ShiftRoundTrip(w: seq<DayShort>, k: int)
    ensures ShiftWeekDays(ShiftWeekDays(w, k), -k) == w
  {
    var r := ShiftWeekDays(ShiftWeekDays(w, k), -k);
    assert forall i :: 0 <= i < |w| ==> r[i] == w[i];
  }

  /** The navigation part of the page: the week shown and the selected day. */
  datatype NavState = NavState(week: seq<DayShort>, selectedDay: string, selectedDate: int)

  /** A well-formed week whose selected name and date belong to the same entry. */
  predicate Consistent(n: NavState) {
    && IsWeek(n.week)
    && 0 <= FindIndex(n.week, n.selectedDay)
    && n.week[FindIndex(n.week, n.selectedDay)].date == n.selectedDate
  }

  /** `previousDay`: the entry before the selected one, or the last entry of the previous week. */
  function Previous(n: NavState): (r: NavState)
    requires n.week != []
    ensures r.week == n.week || r.week == ShiftWeekDays(n.week, -7)
    ensures 0 <= FindIndex(r.week, r.selectedDay)
    ensures 0 < FindIndex(n.week, n.selectedDay) ==>
      var k := FindIndex(n.week, n.selectedDay);
      r == NavState(n.week, n.week[k - 1].name, n.week[k - 1].date)
    ensures FindIndex(n.week, n.selectedDay) <= 0 ==>
      && r.week == ShiftWeekDays(n.week, -7)
      && r.selectedDay == n.week[|n.week| - 1].name
      && r.selectedDate == n.week[|n.week| - 1].date - 7
  {
    var k := FindIndex(n.week, n.selectedDay);
    if k > 0 then
      NavState(n.week, n.week[k - 1].name, n.week[k - 1].date)
    else
      var w := ShiftWeekDays(n.week, -7);
      NavState(w, w[|w| - 1].name, w[|w| - 1].date)
  }

  /** `nextDay`: the entry after the selected one, or the first entry of the next week. */
  function Next(n: NavState): (r: NavState)
    requires n.week != []
    ensures r.week == n.week || r.week == ShiftWeekDays(n.week, 7)
    ensures 0 <= FindIndex(r.week, r.selectedDay)
    ensures FindIndex(n.week, n.selectedDay) < |n.week| - 1 ==>
      var k := FindIndex(n.week, n.selectedDay);
      r == NavState(n.week, n.week[k + 1].name, n.week[k + 1].date)
    ensures FindIndex(n.week, n.selectedDay) == |n.week| - 1 ==>
      && r.week == ShiftWeekDays(n.week, 7)
      && r.selectedDay == n.week[0].name
      && r.selectedDate == n.week[0].date + 7
  {
    var k := FindIndex(n.week, n.selectedDay);
    if k < |n.week| - 1 then
      NavState(n.week, n.week[k + 1].name, n.week[k + 1].date)
    else
      var w := ShiftWeekDays(n.week, 7);
      NavState(w, w[0].name, w[0].date)
  }

  /** `selectDay`: selects the entry with that name; an unknown name changes nothing. */
  function Select(n: NavState, name: string): (r: NavState)
    ensures FindIndex(n.week, name) == -1 ==> r == n
    ensures FindIndex(n.week, name) != -1 ==>
      r.week == n.week && r.selectedDay == name && r.selectedDate == n.week[FindIndex(n.week, name)].date
  {
    var k := FindIndex(n.week, name);
    if k == -1 then n else NavState(n.week, name, n.week[k].date)
  }

  /**
   * From any well-formed week, one step back or forward selects a consistent day,
   * one calendar day before or after a consistent selection; within the week the
   * dates stay, at its ends the whole week moves by seven days.
   */
  lemma {:induction false} StepsMoveOneDay(n: NavState)
    requires IsWeek(n.week)
    ensures Consistent(Previous(n)) && Consistent(Next(n))
    ensures Consistent(n) ==> Previous(n).selectedDate == n.selectedDate - 1
    ensures Consistent(n) ==> Next(n).selectedDate == n.selectedDate + 1
    ensures Previous(n).week == n.week || Previous(n).week == ShiftWeekDays(n.week, -7)
    ensures Next(n).week == n.week || Next(n).week == ShiftWeekDays(n.week, 7)
  {
    var k := FindIndex(n.week, n.selectedDay);
    ShiftKeepsWeek(n.week, -7);
    ShiftKeepsWeek(n.week, 7);
    if k > 0 {
      FindIndexInWeek(n.week, k - 1);
    } else {
      FindIndexInWeek(ShiftWeekDays(n.week, -7), 6);
    }
    if k < 6 {
      FindIndexInWeek(n.week, k + 1);
    } else {
      FindIndexInWeek(ShiftWeekDays(n.week, 7), 0);
    }
  }

  /** `nextDay` undoes `previousDay`. */
  lemma {:induction false} NextUndoesPrevious(n: NavState)
    requires Consistent(n)
    ensures Next(Previous(n)) == n
  {
    var k := FindIndex(n.week, n.selectedDay);
    if k > 0 {
      FindIndexInWeek(n.week, k - 1);
    } else {
      var w := ShiftWeekDays(n.week, -7);
      ShiftKeepsWeek(n.week, -7);
      FindIndexInWeek(w, 6);
      ShiftRoundTrip(n.week, -7);
      assert Previous(n) == NavState(w, w[6].name, w[6].date);
      assert Next(Previous(n)) == NavState(n.week, n.week[0].name, n.week[0].date);
    }
  }

  /** `previousDay` undoes `nextDay`. */
  lemma {:induction false} PreviousUndoesNext(n: NavState)
    requires Consistent(n)
    ensures Previous(Next(n)) == n
  {
    var k := FindIndex(n.week, n.selectedDay);
    if k < 6 {
      FindIndexInWeek(n.week, k + 1);
    } else {
      var w := ShiftWeekDays(n.week, 7);
      ShiftKeepsWeek(n.week, 7);
      FindIndexInWeek(w, 0);
      ShiftRoundTrip(n.week, 7);
      assert Next(n) == NavState(w, w[0].name, w[0].date);
      assert Previous(Next(n)) == NavState(n.week, n.week[6].name, n.week[6].date);
    }
  }

  /** In a week that starts on a Monday, the selected name is the weekday of the selected date. */
  lemma SelectedNameMatchesDate(n: NavState)
    requires Consistent(n) && DayOfWeek(n.week[0].date) == 1
    ensures n.selectedDay == TodayName(n.selectedDate)
  {
    WeekNamesMatchCalendar(n.week);
  }

  /** The week built for `now`, with today selected, is a consistent navigation state. */
  lemma InitialSelectionConsistent(w: seq<DayShort>, now: int)
    requires IsWeek(w) && w[0].date == MondayOf(now)
    ensures Consistent(NavState(w, TodayName(now), now))
  {
    var k := now - MondayOf(now);
    assert w[k].date == now;
    WeekNamesMatchCalendar(w);
    assert w[k].name == TodayName(now);
    FindIndexInWeek(w, k);
    assert FindIndex(w, TodayName(now)) == k;
  }

  /** A course as the page holds it: backend fields and sample-data fields, all optional. */
  datatype Course = Course(
    localId: Option<string>,
    matiereName: Option<string>,
    day: Option<string>,
    jour: Option<string>,
    startTime: Option<string>,
    heureDebut: Option<string>,
    heureFin: Option<string>,
    salleName: Option<string>,
    profNom: Option<string>,
    profPrenom: Option<string>)

  /** `course.day || course.jour` */
  function CourseDay(c: Course): Option<string> {
    if Truthy(c.day) then c.day else c.jour
  }

  /** `heureDebut || startTime || '00:00'` */
  function StartKey(c: Course): string {
    if Truthy(c.heureDebut) then c.heureDebut.value
    else if Truthy(c.startTime) then c.startTime.value
    else "00:00"
  }

  /** The comparator of `getCoursesForSelectedDay`. */
  predicate StartsNoLater(a: Course, b: Course) {
    StrLe(StartKey(a), StartKey(b))
  }

  lemma StartOrderIsTotalPreorder()
    ensures TotalPreorder(StartsNoLater)
  {
    forall a: Course, b: Course
      ensures StartsNoLater(a, b) || StartsNoLater(b, a)
    {
      StrLeTotal(StartKey(a), StartKey(b));
    }
    forall a: Course, b: Course, c: Course | StartsNoLater(a, b) && StartsNoLater(b, c)
      ensures StartsNoLater(a, c)
    {
      StrLeTransitive(StartKey(a), StartKey(b), StartKey(c));
    }
  }

  /**
   * `getCoursesForSelectedDay`: exactly the courses held for `day`, each as often
   * as it occurs, in non-decreasing start time.
   */
  function CoursesForDay(all: seq<Course>, day: string): (r: seq<Course>)
    ensures forall c :: multiset(r)[c] == if CourseDay(c) == Some(day) then multiset(all)[c] else 0
    ensures SortedBy(StartsNoLater, r)
  {
    StartOrderIsTotalPreorder();
    SortBy(StartsNoLater, Filter((c: Course) => CourseDay(c) == Some(day), all))
  }

  /** `getProfName` */
  function ProfName(c: Course): (name: string)
    ensures name != ""
    ensures Truthy(c.profNom) && Truthy(c.profPrenom) ==> name == c.profPrenom.value + " " + c.profNom.value
    ensures Truthy(c.profNom) && !Truthy(c.profPrenom) ==> name == c.profNom.value
    ensures !Truthy(c.profNom) ==> name == "Professeur"
  {
    if Truthy(c.profNom) && Truthy(c.profPrenom) then c.profPrenom.value + " " + c.profNom.value
    else if Truthy(c.profNom) then c.profNom.value
    else "Professeur"
  }

  /** The day-name table of `convertJourToDayName`. */
  const DayMapping: map<string, string> := map[
    "Lundi" := "Lundi", "Mardi" := "Mardi", "Mercredi" := "Mercredi", "Jeudi" := "Jeudi",
    "Vendredi" := "Vendredi", "Samedi" := "Samedi", "Dimanche" := "Dimanche"]

  /** `convertJourToDayName` with own-key lookup: every day name, and any other text, maps to itself. */
  function ConvertJourToDayName(jour: string): (day: string)
    ensures day == jour
  {
    if jour in DayMapping then DayMapping[jour] else jour
  }

  /** What a property read on a plain JavaScript object literal can yield. */
  datatype JsValue = JsString(s: string) | JsFunction | JsObject | JsUndefined

  /** The methods every object literal inherits from `Object.prototype`. */
  const ObjectPrototypeMethods: set<string> := {
    "constructor", "hasOwnProperty", "isPrototypeOf", "propertyIsEnumerable",
    "toLocaleString", "toString", "valueOf",
    "__defineGetter__", "__defineSetter__", "__lookupGetter__", "__lookupSetter__"}

  /** `mapping[jour]` on the object literal: own keys first, then the inherited ones. */
  function MappingLookup(jour: string): JsValue {
    if jour in DayMapping then JsString(DayMapping[jour])
    else if jour in ObjectPrototypeMethods then JsFunction
    else if jour == "__proto__" then JsObject
    else JsUndefined
  }

  /** `convertJourToDayName` as written: `mapping[jour] || jour`. */
  function ConvertJourAsWritten(jour: string): (v: JsValue)
    ensures v.JsString? <==> jour !in ObjectPrototypeMethods && jour != "__proto__"
    ensures v.JsString? ==> v.s == jour
  {
    var v := MappingLookup(jour);
    if v.JsUndefined? then JsString(jour) else v
  }

  /** As written, an inherited key escapes the table: "toString" yields a function, not a string. */
  lemma ConvertJourAsWrittenLeaksPrototype()
    ensures ConvertJourAsWritten("toString") == JsFunction
    ensures ConvertJourAsWritten("toString") != JsString(ConvertJourToDayName("toString"))
  {
  }

  /** Away from the inherited keys, the code as written and the own-key lookup agree. */
  lemma ConvertJourAgrees(jour: string)
    requires jour !in ObjectPrototypeMethods && jour != "__proto__"
    ensures ConvertJourAsWritten(jour) == JsString(ConvertJourToDayName(jour))
  {
  }

  /** A `ProgrammeJourDTO` from the backend. */
  datatype ProgrammeJour = ProgrammeJour(
    localId: string,
    jour: string,
    heureDebut: string,
    heureFin: string,
    matiereName: string,
    profNom: string,
    profPrenom: string,
    salleName: string)

  /** The conversion in `loadCourses` from a programme to a course. */
  function ToCourse(p: ProgrammeJour): (c: Course)
    ensures CourseDay(c) == Some(p.jour)
    ensures p.heureDebut != "" ==> StartKey(c) == p.heureDebut
  {
    Course(
      localId := Some(p.localId),
      matiereName := Some(p.matiereName),
      day := Some(ConvertJourToDayName(p.jour)),
      jour := Some(p.jour),
      startTime := None,
      heureDebut := Some(p.heureDebut),
      heureFin := Some(p.heureFin),
      salleName := Some(p.salleName),
      profNom := Some(p.profNom),
      profPrenom := Some(p.profPrenom))
  }

  class PlaningPage {
    var today: int
    var selectedDate: int
    var selectedDay: string
    var weekDaysShort: seq<DayShort>
    var courses: seq<Course>
    var allCourses: seq<Course>
    var isLoadingCourses: bool
    var studentLocalId: string

    /** The field initialisers; `now` is the clock reading at construction. */
    constructor (now: int)
      ensures today == now && selectedDate == now && selectedDay == "Lundi"
      ensures weekDaysShort == [] && courses == [] && allCourses == []
      ensures !isLoadingCourses && studentLocalId == ""
    {
      today := now;
      selectedDate := now;
      selectedDay := "Lundi";
      weekDaysShort := [];
      courses := [];
      allCourses := [];
      isLoadingCourses := false;
      studentLocalId := "";
    }

    function Navigation(): NavState
      reads this
    {
      NavState(weekDaysShort, selectedDay, selectedDate)
    }

    /** `initializeWeekDays`: the week of `now`, Monday first. */
    method InitializeWeekDays(now: int)
      modifies this`weekDaysShort
      ensures IsWeek(weekDaysShort)
      ensures weekDaysShort[0].date == MondayOf(now)
      ensures DayOfWeek(weekDaysShort[0].date) == 1
      ensures exists i :: 0 <= i < 7 && weekDaysShort[i].date == now
    {
      var monday := MondayOf(now);
      weekDaysShort := [];
      for i := 0 to 7
        invariant |weekDaysShort| == i
        invariant forall j :: 0 <= j < i ==>
          weekDaysShort[j] == DayShort(DaysFull[j], DaysShort[j], monday + j)
      {
        weekDaysShort := weekDaysShort + [DayShort(DaysFull[i], DaysShort[i], monday + i)];
      }
      assert weekDaysShort[now - monday].date == now;
    }

    /** `updateCoursesForSelectedDay` */
    method UpdateCoursesForSelectedDay()
      modifies this`courses
      ensures courses == CoursesForDay(allCourses, selectedDay)
    {
      courses := CoursesForDay(allCourses, selectedDay);
    }

    /** `selectToday`: the name comes from `today`, the date from the clock reading `now`. */
    method SelectToday(now: int)
      modifies this`selectedDay, this`selectedDate, this`courses
      ensures selectedDay == TodayName(today) && selectedDate == now
      ensures courses == CoursesForDay(allCourses, selectedDay)
    {
      selectedDay := TodayName(today);
      selectedDate := now;
      UpdateCoursesForSelectedDay();
    }

    /**
     * `ngOnInit`: starts loading the courses when the stored session is logged in
     * and has a local id, then shows the current week and today.
     */
    method OnInit(now: int, storage: Storage) returns (requested: bool)
      modifies this`studentLocalId, this`isLoadingCourses, this`weekDaysShort
      modifies this`selectedDay, this`selectedDate, this`courses
      ensures requested <==>
        storage.studentDetail.Parsed? && storage.studentDetail.detail.isLoggedIn && storage.studentDetail.detail.localId != ""
      ensures requested ==> studentLocalId == storage.studentDetail.detail.localId && isLoadingCourses
      ensures !requested ==> studentLocalId == old(studentLocalId) && isLoadingCourses == old(isLoadingCourses)
      ensures today == old(today)
      ensures today == now ==> Consistent(Navigation())
      ensures IsWeek(weekDaysShort) && weekDaysShort[0].date == MondayOf(now)
      ensures selectedDay == TodayName(today) && selectedDate == now
      ensures courses == CoursesForDay(allCourses, selectedDay) && allCourses == old(allCourses)
    {
      requested := false;
      var stored := storage.studentDetail;
      if stored.Parsed? && stored.detail.isLoggedIn && stored.detail.localId != "" {
        studentLocalId := stored.detail.localId;
        requested := LoadCourses();
      }
      InitializeWeekDays(now);
      SelectToday(now);
      if today == now {
        InitialSelectionConsistent(weekDaysShort, now);
      }
    }

    /** `previousDay` */
    method PreviousDay()
      requires weekDaysShort != []
      modifies this`selectedDay, this`selectedDate, this`weekDaysShort, this`courses
      ensures Navigation() == Previous(old(Navigation()))
      ensures courses == CoursesForDay(allCourses, selectedDay)
    {
      var currentIndex := FindIndex(weekDaysShort, selectedDay);
      if currentIndex > 0 {
        var previous := weekDaysShort[currentIndex - 1];
        selectedDay := previous.name;
        selectedDate := previous.date;
      } else {
        weekDaysShort := ShiftWeekDays(weekDaysShort, -7);
        selectedDay := weekDaysShort[|weekDaysShort| - 1].name;
        selectedDate := weekDaysShort[|weekDaysShort| - 1].date;
      }
      UpdateCoursesForSelectedDay();
    }

    /** `nextDay` */
    method NextDay()
      requires weekDaysShort != []
      modifies this`selectedDay, this`selectedDate, this`weekDaysShort, this`courses
      ensures Navigation() == Next(old(Navigation()))
      ensures courses == CoursesForDay(allCourses, selectedDay)
    {
      var currentIndex := FindIndex(weekDaysShort, selectedDay);
      if currentIndex < |weekDaysShort| - 1 {
        var next := weekDaysShort[currentIndex + 1];
        selectedDay := next.name;
        selectedDate := next.date;
      } else {
        weekDaysShort := ShiftWeekDays(weekDaysShort, 7);
        selectedDay := weekDaysShort[0].name;
        selectedDate := weekDaysShort[0].date;
      }
      UpdateCoursesForSelectedDay();
    }

    /** `selectDay`: an unknown name changes nothing, not even the course list. */
    method SelectDay(dayName: string)
      modifies this`selectedDay, this`selectedDate, this`courses
      ensures Navigation() == Select(old(Navigation()), dayName)
      ensures FindIndex(weekDaysShort, dayName) == -1 ==> courses == old(courses)
      ensures FindIndex(weekDaysShort, dayName) != -1 ==> courses == CoursesForDay(allCourses, selectedDay)
    {
      var k := FindIndex(weekDaysShort, dayName);
      if k != -1 {
        selectedDay := dayName;
        selectedDate := weekDaysShort[k].date;
        UpdateCoursesForSelectedDay();
      }
    }

    /** `loadCourses` up to the request: nothing is asked without a student id. */
    method LoadCourses() returns (requested: bool)
      modifies this`isLoadingCourses
      ensures requested <==> studentLocalId != ""
      ensures isLoadingCourses == (if requested then true else old(isLoadingCourses))
    {
      if studentLocalId == "" {
        return false;
      }
      isLoadingCourses := true;
      return true;
    }

    /** The `next` callback of `loadCourses`; a null payload reads as no programme. */
    method OnProgrammes(data: Option<seq<ProgrammeJour>>)
      modifies this`allCourses, this`courses, this`isLoadingCourses
      ensures |allCourses| == |data.GetOr([])|
      ensures forall i :: 0 <= i < |allCourses| ==> allCourses[i] == ToCourse(data.GetOr([])[i])
      ensures courses == CoursesForDay(allCourses, selectedDay)
      ensures !isLoadingCourses
    {
      var programmes := data.GetOr([]);
      allCourses := seq(|programmes|, i requires 0 <= i < |programmes| => ToCourse(programmes[i]));
      UpdateCoursesForSelectedDay();
      isLoadingCourses := false;
    }

    /** The `error` callback of `loadCourses`: falls back to the page's sample courses. */
    method OnProgrammesError(sampleCourses: seq<Course>)
      modifies this`allCourses, this`courses, this`isLoadingCourses
      ensures !isLoadingCourses && allCourses == sampleCourses
      ensures courses == CoursesForDay(allCourses, selectedDay)
    {
      isLoadingCourses := false;
      allCourses := sampleCourses;
      UpdateCoursesForSelectedDay();
    }
  }
}
