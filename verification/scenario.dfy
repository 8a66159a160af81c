/**
 * The functional test suite's fourteen requests against project "test",
 * in the suite's order, replayed on a fresh store: what each handler
 * answers follows from the handlers' contracts alone. The two POSTs that
 * succeed draw the ids `first` and `second`; the clock readings are
 * arbitrary.
 */
module FunctionalScenario {
  import opened Values
  import opened Issues
  import opened IssueStore

  /** The suite's request sequence from start to end. */
  method TestSuiteSession(first: string, second: string, unused: string, t0: nat, t1: nat, t2: nat)
    returns (postAll: Response, postRequired: Response, postEmpty: Response,
             getAll: seq<Issue>, getOpen: seq<Issue>, getOpenAssigned: seq<Issue>,
             putTitle: Response, putInvalid: Response, putIdOnly: Response,
             putTwo: Response, putEmpty: Response,
             deleteIt: Response, deleteInvalid: Response, deleteEmpty: Response)
    requires first != "" && second != "" && first != second
    requires unused != first && unused != second
    requires first != "invalid_id" && second != "invalid_id"
    // POST: every field; only the required fields; no field.
    ensures postAll.IssueReply? && postAll.issue.Keys == IssueKeys && postAll.issue[IdKey] == Str(first)
    ensures postAll.issue[AssignedToKey] == Str("Someone") && postAll.issue[StatusTextKey] == Str("Open")
    ensures postRequired.IssueReply? && postRequired.issue.Keys == IssueKeys
    ensures postRequired.issue[AssignedToKey] == Str("") && postRequired.issue[StatusTextKey] == Str("")
    ensures postRequired.issue[OpenKey] == Bool(true)
    ensures postEmpty == ErrorReply(RequiredMissing, None)
    // GET: both issues in creation order; the string "true" never equals the boolean `open`.
    ensures getAll == [postAll.issue, postRequired.issue]
    ensures getOpen == [] && getOpenAssigned == []
    // PUT: one field; unknown _id; _id only; two fields; empty body.
    ensures putTitle == ResultReply(SuccessfullyUpdated, Str(first))
    ensures putInvalid == ErrorReply(CouldNotUpdate, Some(Str("invalid_id")))
    ensures putIdOnly == ErrorReply(NoUpdateFields, Some(Str(first)))
    ensures putTwo == ResultReply(SuccessfullyUpdated, Str(first))
    ensures putEmpty == ErrorReply(MissingId, None)
    // DELETE: the issue; unknown _id; empty body.
    ensures deleteIt == ResultReply(SuccessfullyDeleted, Str(first))
    ensures deleteInvalid == ErrorReply(CouldNotDelete, Some(Str("invalid_id")))
    ensures deleteEmpty == ErrorReply(MissingId, None)
  {
    var st := new Store();
    postAll, postRequired, postEmpty := PostRequests(st, first, second, unused, t0);
    getAll, getOpen, getOpenAssigned := GetRequests(st, postAll.issue, postRequired.issue);
    putTitle, putInvalid, putIdOnly, putTwo, putEmpty := PutRequests(st, first, second, t1, t2);
    deleteIt, deleteInvalid, deleteEmpty := DeleteRequests(st, first, second);
  }

  /**
   * The three POSTs: every field, only the required fields, no field. The
   * id `unused` is offered to the rejected POST, which stores nothing.
   */
  method PostRequests(st: Store, first: string, second: string, unused: string, t0: nat)
    returns (postAll: Response, postRequired: Response, postEmpty: Response)
    requires first != second && unused != first && unused != second
    requires st.Valid() && st.issues == map[]
    modifies st
    ensures st.Valid()
    ensures postAll.IssueReply? && postAll.issue.Keys == IssueKeys && postAll.issue[IdKey] == Str(first)
    ensures postAll.issue[AssignedToKey] == Str("Someone") && postAll.issue[StatusTextKey] == Str("Open")
    ensures postAll.issue[OpenKey] == Bool(true)
    ensures postRequired.IssueReply? && postRequired.issue.Keys == IssueKeys
    ensures postRequired.issue[IdKey] == Str(second)
    ensures postRequired.issue[AssignedToKey] == Str("") && postRequired.issue[StatusTextKey] == Str("")
    ensures postRequired.issue[OpenKey] == Bool(true)
    ensures postEmpty == ErrorReply(RequiredMissing, None)
    ensures st.issues == map["test" := [postAll.issue, postRequired.issue]]
  {
    postAll := PostEveryField(st, first, t0);
    postRequired := PostRequiredFields(st, first, second, postAll.issue, t0);
    assert !RequiredPresent(map[]);
    assert st.issues["test"][0][IdKey] == Str(first) && st.issues["test"][1][IdKey] == Str(second);
    postEmpty := st.Create("test", map[], unused, t0, t0);
  }

  /** POST with every field, on the empty store. */
  method PostEveryField(st: Store, first: string, t0: nat) returns (r: Response)
    requires st.Valid() && st.issues == map[]
    modifies st
    ensures st.Valid()
    ensures r.IssueReply? && r.issue.Keys == IssueKeys && r.issue[IdKey] == Str(first)
    ensures r.issue[AssignedToKey] == Str("Someone") && r.issue[StatusTextKey] == Str("Open")
    ensures r.issue[OpenKey] == Bool(true)
    ensures st.issues == map["test" := [r.issue]]
  {
    var everyField := map[TitleKey := Str("Title"), TextKey := Str("Text"), CreatedByKey := Str("Tester"),
                          AssignedToKey := Str("Someone"), StatusTextKey := Str("Open")];
    assert RequiredPresent(everyField);
    assert AssignedToKey in everyField && StatusTextKey in everyField;
    ghost var issue := NewIssue(everyField, first, t0, t0);
    assert Lookup(st.issues, "test") + [issue] == [issue];
    r := st.Create("test", everyField, first, t0, t0);
  }

  /** POST with only the required fields, after the first issue. */
  method PostRequiredFields(st: Store, first: string, second: string, one: Issue, t0: nat) returns (r: Response)
    requires first != second && HasId(one, Str(first))
    requires st.Valid() && st.issues == map["test" := [one]]
    modifies st
    ensures st.Valid()
    ensures r.IssueReply? && r.issue.Keys == IssueKeys && r.issue[IdKey] == Str(second)
    ensures r.issue[AssignedToKey] == Str("") && r.issue[StatusTextKey] == Str("")
    ensures r.issue[OpenKey] == Bool(true)
    ensures st.issues == map["test" := [one, r.issue]]
  {
    var required := map[TitleKey := Str("Title"), TextKey := Str("Text"), CreatedByKey := Str("Tester")];
    assert RequiredPresent(required);
    assert AssignedToKey !in required && StatusTextKey !in required;
    assert IdFresh(st.issues, Str(second)) by {
      assert st.issues["test"] == [one];
    }
    assert Lookup(st.issues, "test") == [one];
    r := st.Create("test", required, second, t0, t0);
    assert [one] + [r.issue] == [one, r.issue];
    assert st.issues.Keys == {"test"};
  }

  /** The three GETs: no filter, `open=true`, `open=true&assigned_to=Someone`. */
  method GetRequests(st: Store, one: Issue, two: Issue)
    returns (getAll: seq<Issue>, getOpen: seq<Issue>, getOpenAssigned: seq<Issue>)
    requires st.issues == map["test" := [one, two]]
    requires OpenKey in one && one[OpenKey] == Bool(true)
    requires OpenKey in two && two[OpenKey] == Bool(true)
    ensures getAll == [one, two]
    ensures getOpen == [] && getOpenAssigned == []
  {
    assert Lookup(st.issues, "test") == [one, two];
    getAll := st.List("test", map[]);
    var openTrue := map[OpenKey := "true"];
    StringFilterSkipsNonStrings(one, openTrue, OpenKey);
    StringFilterSkipsNonStrings(two, openTrue, OpenKey);
    FilterNoneMatch([one, two], openTrue);
    getOpen := st.List("test", openTrue);
    var openAssigned := map[OpenKey := "true", AssignedToKey := "Someone"];
    StringFilterSkipsNonStrings(one, openAssigned, OpenKey);
    StringFilterSkipsNonStrings(two, openAssigned, OpenKey);
    FilterNoneMatch([one, two], openAssigned);
    getOpenAssigned := st.List("test", openAssigned);
  }

  /** The five PUTs: one field, unknown `_id`, `_id` only, two fields, empty body. */
  method PutRequests(st: Store, first: string, second: string, t1: nat, t2: nat)
    returns (putTitle: Response, putInvalid: Response, putIdOnly: Response,
             putTwo: Response, putEmpty: Response)
    requires first != "" && first != "invalid_id" && second != "invalid_id"
    requires st.Valid() && st.issues.Keys == {"test"} && |st.issues["test"]| == 2
    requires HasId(st.issues["test"][0], Str(first)) && HasId(st.issues["test"][1], Str(second))
    modifies st
    ensures st.Valid() && st.issues.Keys == {"test"} && |st.issues["test"]| == 2
    ensures HasId(st.issues["test"][0], Str(first)) && HasId(st.issues["test"][1], Str(second))
    ensures putTitle == ResultReply(SuccessfullyUpdated, Str(first))
    ensures putInvalid == ErrorReply(CouldNotUpdate, Some(Str("invalid_id")))
    ensures putIdOnly == ErrorReply(NoUpdateFields, Some(Str(first)))
    ensures putTwo == ResultReply(SuccessfullyUpdated, Str(first))
    ensures putEmpty == ErrorReply(MissingId, None)
  {
    var title := map[IdKey := Str(first), TitleKey := Str("New Title")];
    assert TitleKey in title.Keys;
    putTitle := UpdateFirst(st, first, second, title, t1);

    var invalid := map[IdKey := Str("invalid_id"), TitleKey := Str("New Title")];
    assert Truthy(invalid, IdKey) && invalid.Keys != {IdKey} by { assert TitleKey in invalid.Keys; }
    assert FirstMatch(st.issues["test"], Str("invalid_id")) == -1 by {
      assert st.issues["test"][0][IdKey] != Str("invalid_id");
      assert st.issues["test"][1][IdKey] != Str("invalid_id");
    }
    putInvalid := st.Update("test", invalid, t1);

    var idOnly := map[IdKey := Str(first)];
    assert Truthy(idOnly, IdKey) && idOnly.Keys == {IdKey};
    putIdOnly := st.Update("test", idOnly, t1);

    var two := map[IdKey := Str(first), TitleKey := Str("Updated Title"), TextKey := Str("Updated Text")];
    assert TitleKey in two.Keys;
    putTwo := UpdateFirst(st, first, second, two, t2);

    assert !Truthy(map[], IdKey);
    putEmpty := st.Update("test", map[], t2);
  }

  /** A PUT that reaches the first issue with at least one field besides `_id`. */
  method UpdateFirst(st: Store, first: string, second: string, body: map<string, Value>, now: nat)
    returns (r: Response)
    requires first != ""
    requires IdKey in body && body[IdKey] == Str(first) && body.Keys != {IdKey}
    requires st.Valid() && st.issues.Keys == {"test"} && |st.issues["test"]| == 2
    requires HasId(st.issues["test"][0], Str(first)) && HasId(st.issues["test"][1], Str(second))
    modifies st
    ensures st.Valid() && st.issues.Keys == {"test"} && |st.issues["test"]| == 2
    ensures HasId(st.issues["test"][0], Str(first)) && HasId(st.issues["test"][1], Str(second))
    ensures r == ResultReply(SuccessfullyUpdated, Str(first))
  {
    assert Truthy(body, IdKey);
    assert FirstMatch(st.issues["test"], Str(first)) == 0;
    ghost var before := st.issues["test"];
    MergeKeepsId(before[0], body - {IdKey}, now);
    r := st.Update("test", body, now);
    assert st.issues["test"] == before[0 := Merged(before[0], body - {IdKey}, now)];
  }

  /** The three DELETEs: the issue, an unknown `_id`, an empty body. */
  method DeleteRequests(st: Store, first: string, second: string)
    returns (deleteIt: Response, deleteInvalid: Response, deleteEmpty: Response)
    requires first != "" && second != "invalid_id"
    requires st.Valid() && st.issues.Keys == {"test"} && |st.issues["test"]| == 2
    requires HasId(st.issues["test"][0], Str(first)) && HasId(st.issues["test"][1], Str(second))
    modifies st
    ensures st.Valid() && st.issues.Keys == {"test"} && |st.issues["test"]| == 1
    ensures HasId(st.issues["test"][0], Str(second))
    ensures deleteIt == ResultReply(SuccessfullyDeleted, Str(first))
    ensures deleteInvalid == ErrorReply(CouldNotDelete, Some(Str("invalid_id")))
    ensures deleteEmpty == ErrorReply(MissingId, None)
  {
    var idOnly := map[IdKey := Str(first)];
    assert Truthy(idOnly, IdKey);
    assert FirstMatch(st.issues["test"], Str(first)) == 0;
    ghost var before := st.issues["test"];
    deleteIt := st.Delete("test", idOnly);
    assert st.issues["test"] == [before[1]];

    var invalid := map[IdKey := Str("invalid_id")];
    assert Truthy(invalid, IdKey);
    assert FirstMatch(st.issues["test"], Str("invalid_id")) == -1;
    deleteInvalid := st.Delete("test", invalid);

    assert !Truthy(map[], IdKey);
    deleteEmpty := st.Delete("test", map[]);
  }
}
