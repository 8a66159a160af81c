/**
 * The project lookup `issues[project] || []` as JavaScript evaluates it on
 * the plain object `issues = {}`: a name the store does not hold is looked
 * up on `Object.prototype`, so a project called "constructor", "toString",
 * "__proto__", ... finds an inherited function or object instead of
 * `undefined`. That value is truthy and is not an array, so the next array
 * call (`filter`, `find`, `findIndex`, `push`) throws a TypeError and the
 * request fails. `IssueStore.Lookup` reads only the store's own keys, which
 * is the behaviour the handlers evidently intend.
 */
module PrototypeLookup {
  import opened Values
  import opened Issues
  import opened IssueStore

  /** The property names every plain object inherits from `Object.prototype`. */
  const InheritedNames: set<string> :=
    {"constructor", "hasOwnProperty", "isPrototypeOf", "propertyIsEnumerable",
     "toLocaleString", "toString", "valueOf", "__proto__",
     "__defineGetter__", "__defineSetter__", "__lookupGetter__", "__lookupSetter__"}

  /**
   * `issues[project] || []` as written: `Some` of the project's array, or
   * `None` when the lookup reaches an inherited non-array value, on which
   * the following array method call throws.
   */
  function ProjectIssuesAsWritten(st: map<string, seq<Issue>>, project: string): (r: Option<seq<Issue>>)
    ensures r.Some? <==> project in st || project !in InheritedNames
    ensures r.Some? ==> r.value == Lookup(st, project)
  {
    if project in st then Some(st[project])
    else if project in InheritedNames then None
    else Some([])
  }

  /** The list handler as written: `None` when it throws instead of answering. */
  function ListAsWritten(st: map<string, seq<Issue>>, project: string, filters: Filters): (r: Option<seq<Issue>>)
    ensures r.None? <==> project !in st && project in InheritedNames
    ensures r.Some? ==> r.value == Filter(Lookup(st, project), filters)
  {
    match ProjectIssuesAsWritten(st, project)
    case None => None
    case Some(s) => Some(Filter(s, filters))
  }

  /**
   * On the empty store, listing project "constructor" throws as written,
   * while the own-key lookup lists it as empty like any other unknown project.
   */
  lemma ConstructorProjectThrows(st: Store)
    requires st.issues == map[]
    ensures ListAsWritten(st.issues, "constructor", map[]) == None
    ensures st.List("constructor", map[]) == []
  {
  }

  /** The two lookups agree on every name that is a store key or not inherited. */
  lemma AsWrittenAgreesElsewhere(st: Store, project: string, filters: Filters)
    requires project in st.issues || project !in InheritedNames
    ensures ListAsWritten(st.issues, project, filters) == Some(st.List(project, filters))
  {
  }
}
