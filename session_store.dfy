/**
 * The `studentDetail` entry of the browser's local storage: the session record
 * written at login and read back by the route guards.
 */
module SessionStore {

  /** The accepted spellings of the student role. */
  const StudentRoles: set<string> := {"STUDENT", "ÉTUDIANT", "ETUDIANT"}

  /** The `roles` field as JavaScript sees it after `JSON.parse`. */
  datatype RolesValue =
    | Falsy                        // missing, null, false, 0 or "": `roles || []` yields []
    | RoleList(list: seq<string>)  // an array of role names
    | NotAList                     // any other truthy value: `roles.some` throws

  /** The session record; `isLoggedIn` is the truthiness of the stored field. */
  datatype StudentDetail = StudentDetail(
    isLoggedIn: bool,
    email: string,
    localId: string,
    nom: string,
    prenom: string,
    userType: string,
    roles: RolesValue,
    token: string,
    username: string)

  /**
   * What `JSON.parse(localStorage.getItem('studentDetail'))` gives: no entry (or an
   * empty string), text that does not parse to an object, or a parsed record.
   */
  datatype Stored = Absent | Unreadable | Parsed(detail: StudentDetail)

  /** Exact, case-sensitive comparison with one of the accepted spellings. */
  predicate IsStudentRole(role: string) {
    role == "STUDENT" || role == "ÉTUDIANT" || role == "ETUDIANT"
  }

  /** `roles.some(isStudentRole)`: scans the list from the front. */
  function HasStudentRole(roles: seq<string>): (b: bool)
    ensures b <==> exists i :: 0 <= i < |roles| && roles[i] in StudentRoles
  {
    if roles == [] then false
    else if IsStudentRole(roles[0]) then true
    else
      var rest := HasStudentRole(roles[1..]);
      assert forall i :: 1 <= i < |roles| ==> roles[i] == roles[1..][i - 1];
      rest
  }

  /** The browser's key-value store, reduced to the one key the core uses. */
  class Storage {
    var studentDetail: Stored

    constructor (initial: Stored)
      ensures studentDetail == initial
    {
      studentDetail := initial;
    }
  }
}
