/** The academic domain as the site builder sees it: the execution course record,
    the competence courses it draws its objectives from, users, and the access
    groups that are combined with `or`. */
module Academic {

  /** A localized text: one string per locale. Its contents are never inspected. */
  datatype LocalizedText = LocalizedText(byLocale: map<string, string>)

  datatype ExecutionPeriod = ExecutionPeriod(name: string)

  datatype User = User(username: string)

  /** A competence course. `objectives` holds the objectives text per execution
      period; a period without an entry is one for which the source answers null. */
  datatype CompetenceCourse = CompetenceCourse(objectives: map<ExecutionPeriod, LocalizedText>)

  /** An execution course: its code (the "sigla"), its persistent external id,
      its localized name, the period it runs in, and its competence courses in
      their enumeration order. */
  datatype ExecutionCourse = ExecutionCourse(
    code: string,
    externalId: string,
    name: LocalizedText,
    period: ExecutionPeriod,
    competenceCourses: seq<CompetenceCourse>)

  datatype AcademicOperationType = ManageAuthorizations | OtherOperation(operation: string)

  /** Access groups: the three role groups the builder uses, the default "anyone"
      group of a page, and the union built by `Group.or`. */
  datatype Group =
    | Anyone
    | TeacherGroup(course: ExecutionCourse)
    | StudentGroup(course: ExecutionCourse)
    | AcademicAuthorizationGroup(operation: AcademicOperationType)
    | Union(left: Group, right: Group)

  /** Who teaches, who attends, and who holds which academic authorization.
      Group membership is evaluated against it. */
  datatype Directory = Directory(
    teaches: set<(User, ExecutionCourse)>,
    attends: set<(User, ExecutionCourse)>,
    authorized: set<(User, AcademicOperationType)>)

  /** Whether user `u` belongs to group `g`. */
  predicate IsMember(g: Group, u: User, d: Directory) {
    match g
    case Anyone => true
    case TeacherGroup(c) => (u, c) in d.teaches
    case StudentGroup(c) => (u, c) in d.attends
    case AcademicAuthorizationGroup(op) => (u, op) in d.authorized
    case Union(a, b) => IsMember(a, u, d) || IsMember(b, u, d)
  }

  /** `Group.or`: the group of users in either operand. */
  function Or(a: Group, b: Group): (r: Group)
    ensures forall u, d :: IsMember(r, u, d) <==> IsMember(a, u, d) || IsMember(b, u, d)
  {
    Union(a, b)
  }

  /** The members of `g` among a finite population of users. */
  function Members(g: Group, population: set<User>, d: Directory): set<User> {
    set u | u in population && IsMember(g, u, d)
  }

  /** The members of a union are the union of the members: `or` is set union. */
  lemma OrIsUnion(a: Group, b: Group, population: set<User>, d: Directory)
    ensures Members(Or(a, b), population, d) == Members(a, population, d) + Members(b, population, d)
  {
  }

  /** The group of everyone who belongs to the course: its teachers, its students,
      and the staff allowed to manage academic authorizations. */
  function CourseMembersGroup(course: ExecutionCourse): (g: Group)
    ensures g != Anyone
    ensures forall u, d :: IsMember(g, u, d) <==>
      (u, course) in d.teaches || (u, course) in d.attends || (u, ManageAuthorizations) in d.authorized
  {
    Or(Or(TeacherGroup(course), StudentGroup(course)), AcademicAuthorizationGroup(ManageAuthorizations))
  }
}
