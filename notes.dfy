/**
 * The grades page: letter grades and colour tiers from fixed thresholds, and
 * the per-subject note lists reordered by the selected filter.
 * Scores are exact reals out of 20.
 */
module Notes {
  import opened Lists

  datatype Note = Note(id: string, title: string, date: string, score: real)

  datatype Subject = Subject(name: string, icon: string, color: string, average: real, notes: seq<Note>)

  /** `getGradeLetter`: a score exactly on a threshold gets the higher letter. */
  function GradeLetter(score: real): (letter: string)
    ensures letter == "A+" <==> score >= 18.0
    ensures letter == "A" <==> 16.0 <= score < 18.0
    ensures letter == "B" <==> 14.0 <= score < 16.0
    ensures letter == "C" <==> 12.0 <= score < 14.0
    ensures letter == "D" <==> 10.0 <= score < 12.0
    ensures letter == "E" <==> score < 10.0
  {
    if score >= 18.0 then "A+"
    else if score >= 16.0 then "A"
    else if score >= 14.0 then "B"
    else if score >= 12.0 then "C"
    else if score >= 10.0 then "D"
    else "E"
  }

  /** The rank of a letter, 5 for A+ down to 0 for E. */
  function LetterRank(letter: string): nat {
    if letter == "A+" then 5
    else if letter == "A" then 4
    else if letter == "B" then 3
    else if letter == "C" then 2
    else if letter == "D" then 1
    else 0
  }

  /** A higher score never gets a worse letter. */
  lemma GradeLetterMonotone(a: real, b: real)
    requires a <= b
    ensures LetterRank(GradeLetter(a)) <= LetterRank(GradeLetter(b))
  {
  }

  /** `getGradeClass`: the colour tier, with thresholds 16, 14 and 12. */
  function GradeClass(score: real): (tier: string)
    ensures tier == "green" <==> score >= 16.0
    ensures tier == "orange" <==> 14.0 <= score < 16.0
    ensures tier == "yellow" <==> 12.0 <= score < 14.0
    ensures tier == "red" <==> score < 12.0
  {
    if score >= 16.0 then "green"
    else if score >= 14.0 then "orange"
    else if score >= 12.0 then "yellow"
    else "red"
  }

  /** `getScoreClass`: the badge variant of the same tier. */
  function ScoreClass(score: real): (badge: string)
    ensures badge == GradeClass(score) + "-badge"
  {
    if score >= 16.0 then "green-badge"
    else if score >= 14.0 then "orange-badge"
    else if score >= 12.0 then "yellow-badge"
    else "red-badge"
  }

  /** The comparator `(a, b) => b.score - a.score`: higher scores first. */
  predicate ScoresNoLower(a: Note, b: Note) {
    a.score >= b.score
  }

  lemma ScoreOrderIsTotalPreorder()
    ensures TotalPreorder(ScoresNoLower)
  {
  }

  /** A subject with its notes in the 'best' order. */
  function BestFirst(s: Subject): (r: Subject)
    ensures r.name == s.name && r.icon == s.icon && r.color == s.color && r.average == s.average
    ensures multiset(r.notes) == multiset(s.notes)
    ensures SortedBy(ScoresNoLower, r.notes)
  {
    ScoreOrderIsTotalPreorder();
    s.(notes := SortBy(ScoresNoLower, s.notes))
  }

  /**
   * The `filteredSubjects` getter for every filter but 'recent': with 'best' each
   * subject's notes come out best score first; any other filter leaves the list as it is.
   */
  function FilteredSubjects(subjects: seq<Subject>, filter: string): (r: seq<Subject>)
    requires filter != "recent"
    ensures |r| == |subjects|
    ensures filter != "best" ==> r == subjects
    ensures filter == "best" ==> forall i :: 0 <= i < |r| ==>
      && r[i] == subjects[i].(notes := r[i].notes)
      && multiset(r[i].notes) == multiset(subjects[i].notes)
      && SortedBy(ScoresNoLower, r[i].notes)
  {
    if filter == "best" then
      seq(|subjects|, i requires 0 <= i < |subjects| => BestFirst(subjects[i]))
    else
      subjects
  }
}
