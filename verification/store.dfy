/**
 * The in-memory issue store and its four request handlers. The store maps
 * a project name to that project's issues in insertion order; the handlers
 * list (GET), create (POST), update (PUT) and delete (DELETE) issues of one
 * project and answer with a JSON payload, modelled as `Response`.
 */
module IssueStore {
  import opened Values
  import opened Issues

  const RequiredMissing := "required field(s) missing"
  const MissingId := "missing _id"
  const NoUpdateFields := "no update field(s) sent"
  const CouldNotUpdate := "could not update"
  const CouldNotDelete := "could not delete"
  const SuccessfullyUpdated := "successfully updated"
  const SuccessfullyDeleted := "successfully deleted"

  /** The payload a handler answers with. */
  datatype Response =
    | ErrorReply(error: string, errorId: Option<Value>)   // { error, _id? }
    | ResultReply(result: string, resultId: Value)        // { result, _id }
    | IssueReply(issue: Issue)                        // the created issue

  /** `issues[project] || []`, reading only the store's own keys. */
  function Lookup(st: map<string, seq<Issue>>, project: string): seq<Issue>
  {
    if project in st then st[project] else []
  }

  /** Every stored issue has an `_id`, and no two stored issues share one, across all projects. */
  ghost predicate StoreUnique(st: map<string, seq<Issue>>)
  {
    && (forall p, i :: p in st && 0 <= i < |st[p]| ==> IdKey in st[p][i])
    && (forall p, q, i, j ::
          p in st && q in st && 0 <= i < |st[p]| && 0 <= j < |st[q]| && (p != q || i != j) &&
          IdKey in st[p][i] && IdKey in st[q][j] ==>
          st[p][i][IdKey] != st[q][j][IdKey])
  }

  /** No stored issue carries this `_id` (what `uuidv4()` is trusted to deliver). */
  ghost predicate IdFresh(st: map<string, seq<Issue>>, id: Value)
  {
    forall p, i :: p in st && 0 <= i < |st[p]| ==> !HasId(st[p][i], id)
  }

  lemma StoreUniqueProject(st: map<string, seq<Issue>>, project: string)
    requires StoreUnique(st)
    ensures UniqueIds(Lookup(st, project))
  {
  }

  /**
   * Lookup is scoped to the project: an `_id` held by an issue of another
   * project is not found in this one.
   */
  lemma LookupIsScoped(st: map<string, seq<Issue>>, project: string, other: string, j: nat, id: Value)
    requires StoreUnique(st)
    requires other in st && other != project && j < |st[other]| && HasId(st[other][j], id)
    ensures FirstMatch(Lookup(st, project), id) == -1
  {
  }

  /** Appending an issue with a fresh `_id` keeps the store's ids unique. */
  lemma AppendKeepsUnique(st: map<string, seq<Issue>>, project: string, issue: Issue)
    requires StoreUnique(st)
    requires IdKey in issue && IdFresh(st, issue[IdKey])
    ensures StoreUnique(st[project := Lookup(st, project) + [issue]])
  {
  }

  /** Replacing an issue by one with the same `_id` keeps the store's ids unique. */
  lemma ReplaceKeepsUnique(st: map<string, seq<Issue>>, project: string, k: nat, issue: Issue)
    requires StoreUnique(st)
    requires project in st && k < |st[project]|
    requires IdKey in issue && issue[IdKey] == st[project][k][IdKey]
    ensures StoreUnique(st[project := st[project][k := issue]])
  {
  }

  /** Removing an issue keeps the store's ids unique. */
  lemma RemoveKeepsUnique(st: map<string, seq<Issue>>, project: string, k: nat)
    requires StoreUnique(st)
    requires project in st && k < |st[project]|
    ensures StoreUnique(st[project := Removed(st[project], k)])
  {
  }

  /**
   * Deleting the issue just created undoes the create: it is found at the
   * end of the project's sequence, and splicing it out gives back the
   * sequence the project had before.
   */
  lemma DeleteUndoesCreate(st: map<string, seq<Issue>>, project: string, issue: Issue)
    requires IdKey in issue && IdFresh(st, issue[IdKey])
    ensures var s := Lookup(st, project) + [issue];
            FirstMatch(s, issue[IdKey]) == |s| - 1 && Removed(s, |s| - 1) == Lookup(st, project)
  {
    var before := Lookup(st, project);
    var s := before + [issue];
    forall k | 0 <= k < |before|
      ensures !HasId(s[k], issue[IdKey])
    {
      assert s[k] == st[project][k];
    }
    assert HasId(s[|s| - 1], issue[IdKey]);
    assert Removed(s, |s| - 1) == before;
  }

  class Store {
    /** The module-level `issues` object: project name to issues in insertion order. */
    var issues: map<string, seq<Issue>>

    ghost predicate Valid()
      reads this
    {
      StoreUnique(issues)
    }

    /** The store starts empty when the process starts. */
    constructor ()
      ensures Valid() && issues == map[]
    {
      issues := map[];
    }

    /**
     * GET: the project's issues for which every filter key strictly equals
     * the issue's field, in insertion order; an unknown project lists as
     * empty, and an empty filter lists everything.
     */
    function List(project: string, filters: Filters): (r: seq<Issue>)
      reads this
      ensures forall x :: x in r ==> x in Lookup(issues, project) && Matches(x, filters)
      ensures forall i :: 0 <= i < |Lookup(issues, project)| && Matches(Lookup(issues, project)[i], filters) ==>
                Lookup(issues, project)[i] in r
      ensures |r| == |MatchingIndices(Lookup(issues, project), filters)|
      ensures forall k :: 0 <= k < |r| ==> r[k] == Lookup(issues, project)[MatchingIndices(Lookup(issues, project), filters)[k]]
      ensures filters == map[] ==> r == Lookup(issues, project)
      ensures project !in issues ==> r == []
    {
      var s := Lookup(issues, project);
      FilterIsMatchingSubsequence(s, filters);
      if filters == map[] then FilterWithoutKeys(s, filters); Filter(s, filters)
      else Filter(s, filters)
    }

    /**
     * POST: with `issue_title`, `issue_text` and `created_by` all truthy,
     * appends a new issue with the supplied id to the end of the project's
     * sequence (creating it if needed) and answers with that issue;
     * otherwise answers "required field(s) missing" and stores nothing.
     * `id` stands for `uuidv4()`, `createdOn` and `updatedOn` for the two
     * `new Date()` readings.
     */
    method Create(project: string, body: map<string, Value>, id: string, createdOn: nat, updatedOn: nat)
      returns (r: Response)
      requires Valid()
      requires IdFresh(issues, Str(id))
      modifies this
      ensures Valid()
      ensures !RequiredPresent(body) ==> r == ErrorReply(RequiredMissing, None) && issues == old(issues)
      ensures RequiredPresent(body) ==>
                && r == IssueReply(NewIssue(body, id, createdOn, updatedOn))
                && issues == old(issues)[project := Lookup(old(issues), project) + [r.issue]]
    {
      if !RequiredPresent(body) {
        return ErrorReply(RequiredMissing, None);
      }
      var issue := NewIssue(body, id, createdOn, updatedOn);
      AppendKeepsUnique(issues, project, issue);
      if project !in issues {
        issues := issues[project := []];
      }
      issues := issues[project := issues[project] + [issue]];
      r := IssueReply(issue);
    }

    /**
     * PUT: checks, in this order, for a truthy `_id`, for at least one other
     * body key, and for an issue of this project with that `_id`; each failure
     * answers with its error and changes nothing. Otherwise the first such
     * issue gets every other body key merged in and `updated_on` set to `now`.
     */
    method Update(project: string, body: map<string, Value>, now: nat) returns (r: Response)
      requires Valid()
      modifies this
      ensures Valid()
      ensures !Truthy(body, IdKey) ==> r == ErrorReply(MissingId, None) && issues == old(issues)
      ensures Truthy(body, IdKey) && body.Keys == {IdKey} ==>
                r == ErrorReply(NoUpdateFields, Some(body[IdKey])) && issues == old(issues)
      ensures Truthy(body, IdKey) && body.Keys != {IdKey} &&
              FirstMatch(Lookup(old(issues), project), body[IdKey]) == -1 ==>
                r == ErrorReply(CouldNotUpdate, Some(body[IdKey])) && issues == old(issues)
      ensures Truthy(body, IdKey) && body.Keys != {IdKey} ==>
                var s := Lookup(old(issues), project);
                var k := FirstMatch(s, body[IdKey]);
                k >= 0 ==>
                  && r == ResultReply(SuccessfullyUpdated, body[IdKey])
                  && issues == old(issues)[project := s[k := Merged(s[k], body - {IdKey}, now)]]
    {
      if !Truthy(body, IdKey) {
        return ErrorReply(MissingId, None);
      }
      var id := body[IdKey];
      var fields := body - {IdKey};
      if fields.Keys == {} {
        assert body.Keys == {IdKey};
        return ErrorReply(NoUpdateFields, Some(id));
      }
      assert body.Keys != {IdKey} by {
        var k :| k in fields.Keys;
      }
      var projectIssues := Lookup(issues, project);
      var k := FirstMatch(projectIssues, id);
      if k == -1 {
        return ErrorReply(CouldNotUpdate, Some(id));
      }
      var merged := Merged(projectIssues[k], fields, now);
      MergeKeepsId(projectIssues[k], fields, now);
      ReplaceKeepsUnique(issues, project, k, merged);
      issues := issues[project := projectIssues[k := merged]];
      r := ResultReply(SuccessfullyUpdated, id);
    }

    /**
     * DELETE: a falsy `_id` answers "missing _id"; an `_id` no issue of this
     * project carries answers "could not delete"; both change nothing.
     * Otherwise the first issue with that `_id` is spliced out, the others
     * keep their order, and no issue of the project has that `_id` any more.
     */
    method Delete(project: string, body: map<string, Value>) returns (r: Response)
      requires Valid()
      modifies this
      ensures Valid()
      ensures !Truthy(body, IdKey) ==> r == ErrorReply(MissingId, None) && issues == old(issues)
      ensures Truthy(body, IdKey) && FirstMatch(Lookup(old(issues), project), body[IdKey]) == -1 ==>
                r == ErrorReply(CouldNotDelete, Some(body[IdKey])) && issues == old(issues)
      ensures Truthy(body, IdKey) ==>
                var s := Lookup(old(issues), project);
                var k := FirstMatch(s, body[IdKey]);
                k >= 0 ==>
                  && r == ResultReply(SuccessfullyDeleted, body[IdKey])
                  && issues == old(issues)[project := Removed(s, k)]
                  && FirstMatch(issues[project], body[IdKey]) == -1
    {
      if !Truthy(body, IdKey) {
        return ErrorReply(MissingId, None);
      }
      var id := body[IdKey];
      var projectIssues := Lookup(issues, project);
      var index := FirstMatch(projectIssues, id);
      if index == -1 {
        return ErrorReply(CouldNotDelete, Some(id));
      }
      StoreUniqueProject(issues, project);
      RemovedFirstMatchIsGone(projectIssues, id);
      RemoveKeepsUnique(issues, project, index);
      issues := issues[project := Removed(projectIssues, index)];
      r := ResultReply(SuccessfullyDeleted, id);
    }
  }
}
