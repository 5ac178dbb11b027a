/**
 * The two route guards: `authGuard` protects the student pages and `loginGuard`
 * keeps an already signed-in student away from the login page. Both read the
 * stored session record and both remove it when it is unusable.
 */
module Guards {
  import opened SessionStore

  /** The record admits its holder: it parses, is logged in and lists a student role. */
  predicate Admitted(s: Stored) {
    && s.Parsed?
    && s.detail.isLoggedIn
    && s.detail.roles.RoleList?
    && HasStudentRole(s.detail.roles.list)
  }

  /**
   * A guard pass removes the record: it does not parse, or it is logged in
   * without a usable student role.
   */
  predicate Rejected(s: Stored) {
    s.Unreadable? || (s.Parsed? && s.detail.isLoggedIn && !Admitted(s))
  }

  /** The store after one guard pass. */
  function AfterGuard(s: Stored): (t: Stored)
    ensures t == s || t == Absent
    ensures t == Absent <==> s.Absent? || Rejected(s)
    ensures Admitted(s) ==> t == s
  {
    if Rejected(s) then Absent else s
  }

  /** `authGuard`: may the current session enter a protected page? */
  method AuthGuard(storage: Storage) returns (allow: bool)
    modifies storage
    ensures allow == Admitted(old(storage.studentDetail))
    ensures storage.studentDetail == AfterGuard(old(storage.studentDetail))
  {
    var stored := storage.studentDetail;
    if stored.Absent? {
      return false;
    }
    if stored.Unreadable? {
      // JSON.parse threw: the catch block clears the record
      storage.studentDetail := Absent;
      return false;
    }
    var detail := stored.detail;
    if !detail.isLoggedIn {
      return false;
    }
    var hasStudentRole: bool;
    match detail.roles {
      case Falsy =>
        hasStudentRole := HasStudentRole([]);
      case RoleList(list) =>
        hasStudentRole := HasStudentRole(list);
      case NotAList =>
        // `roles.some` is not a function: the catch block clears the record
        storage.studentDetail := Absent;
        return false;
    }
    if !hasStudentRole {
      storage.studentDetail := Absent;
      return false;
    }
    return true;
  }

  /** `loginGuard`: may the current session see the login page? */
  method LoginGuard(storage: Storage) returns (allow: bool)
    modifies storage
    ensures allow == !Admitted(old(storage.studentDetail))
    ensures storage.studentDetail == AfterGuard(old(storage.studentDetail))
  {
    var stored := storage.studentDetail;
    if stored.Parsed? {
      var detail := stored.detail;
      if detail.isLoggedIn {
        match detail.roles {
          case NotAList =>
            // `roles.some` is not a function: the catch block clears the record
            storage.studentDetail := Absent;
          case Falsy =>
            storage.studentDetail := Absent;
          case RoleList(list) =>
            if HasStudentRole(list) {
              return false;
            } else {
              storage.studentDetail := Absent;
            }
        }
      }
    } else if stored.Unreadable? {
      storage.studentDetail := Absent;
    }
    return true;
  }

  /** The guards' verdicts case by case; role names are matched exactly. */
  lemma GuardCases(s: Stored)
    ensures s.Absent? ==> !Admitted(s) && AfterGuard(s) == s
    ensures s.Unreadable? ==> !Admitted(s) && AfterGuard(s) == Absent
    ensures s.Parsed? && !s.detail.isLoggedIn ==> !Admitted(s) && AfterGuard(s) == s
    ensures s.Parsed? && s.detail.isLoggedIn && s.detail.roles.Falsy? ==> !Admitted(s) && AfterGuard(s) == Absent
    ensures s.Parsed? && s.detail.isLoggedIn && s.detail.roles == RoleList(["student"]) ==> !Admitted(s) && AfterGuard(s) == Absent
  {
    if s.Parsed? && s.detail.roles == RoleList(["student"]) {
      assert !IsStudentRole("student");
    }
  }
}
