/**
 * Issue records and the pure operations the handlers apply to one
 * project's sequence of issues: the strict-equality filter of the list
 * handler, the lookup of an issue by `_id`, the field merge of the update
 * handler and the removal of the delete handler.
 */
module Issues {
  import opened Values

  /**
   * An issue record is a JavaScript object: a map from field name to value.
   * It starts with the nine fields below, but the update handler merges
   * arbitrary body keys into it, so it is not a fixed record type.
   */
  type Issue = map<string, Value>

  /** The query of the list handler: field name to string value. */
  type Filters = map<string, string>

  const IdKey := "_id"
  const TitleKey := "issue_title"
  const TextKey := "issue_text"
  const CreatedByKey := "created_by"
  const AssignedToKey := "assigned_to"
  const StatusTextKey := "status_text"
  const CreatedOnKey := "created_on"
  const UpdatedOnKey := "updated_on"
  const OpenKey := "open"

  /** The fields every freshly created issue carries. */
  const IssueKeys: set<string> :=
    {IdKey, TitleKey, TextKey, CreatedByKey, AssignedToKey, StatusTextKey,
     CreatedOnKey, UpdatedOnKey, OpenKey}

  /** `issue._id === id` */
  predicate HasId(issue: Issue, id: Value)
  {
    IdKey in issue && issue[IdKey] == id
  }

  // ---------------------------------------------------------------------
  // Creation
  // ---------------------------------------------------------------------

  /** The three fields the create handler requires to be truthy. */
  predicate RequiredPresent(body: map<string, Value>)
  {
    Truthy(body, TitleKey) && Truthy(body, TextKey) && Truthy(body, CreatedByKey)
  }

  /** A destructuring default: `key = ''` applies only when the key is absent. */
  function OrEmpty(body: map<string, Value>, key: string): Value
  {
    if key in body then body[key] else Str("")
  }

  /**
   * The record the create handler builds from a body whose required fields
   * are present: the supplied id, the three required fields as given,
   * `assigned_to` and `status_text` defaulted to "", the two clock readings
   * and `open = true`. Other body keys are ignored.
   */
  function NewIssue(body: map<string, Value>, id: string, createdOn: nat, updatedOn: nat): (r: Issue)
    requires RequiredPresent(body)
    ensures r.Keys == IssueKeys
    ensures r[IdKey] == Str(id) && r[OpenKey] == Bool(true)
    ensures r[TitleKey] == body[TitleKey] && r[TextKey] == body[TextKey]
    ensures r[CreatedByKey] == body[CreatedByKey]
    ensures AssignedToKey !in body ==> r[AssignedToKey] == Str("")
    ensures StatusTextKey !in body ==> r[StatusTextKey] == Str("")
    ensures AssignedToKey in body ==> r[AssignedToKey] == body[AssignedToKey]
    ensures StatusTextKey in body ==> r[StatusTextKey] == body[StatusTextKey]
    ensures r[CreatedOnKey] == Time(createdOn) && r[UpdatedOnKey] == Time(updatedOn)
  {
    map[IdKey := Str(id),
        TitleKey := body[TitleKey],
        TextKey := body[TextKey],
        CreatedByKey := body[CreatedByKey],
        AssignedToKey := OrEmpty(body, AssignedToKey),
        StatusTextKey := OrEmpty(body, StatusTextKey),
        CreatedOnKey := Time(createdOn),
        UpdatedOnKey := Time(updatedOn),
        OpenKey := Bool(true)]
  }

  // ---------------------------------------------------------------------
  // Listing
  // ---------------------------------------------------------------------

  /**
   * `Object.keys(filters).every(key => issue[key] === filters[key])`:
   * every filter key names a field of the issue holding exactly that
   * string. A missing field reads as `undefined` and never equals a string.
   */
  predicate Matches(issue: Issue, filters: Filters)
  {
    forall key :: key in filters ==> key in issue && issue[key] == Str(filters[key])
  }

  /** `projectIssues.filter(issue => Matches(issue, filters))`, in order. */
  function Filter(s: seq<Issue>, filters: Filters): (r: seq<Issue>)
    ensures |r| <= |s|
    ensures forall x :: x in r ==> x in s && Matches(x, filters)
    ensures forall i :: 0 <= i < |s| && Matches(s[i], filters) ==> s[i] in r
  {
    if s == [] then []
    else
      var init := Filter(s[..|s| - 1], filters);
      assert forall i :: 0 <= i < |s| - 1 ==> s[..|s| - 1][i] == s[i];
      if Matches(s[|s| - 1], filters) then init + [s[|s| - 1]] else init
  }

  /**
   * The positions of `s` whose issue matches, in increasing order: the
   * index view of what `Filter` keeps.
   */
  function MatchingIndices(s: seq<Issue>, filters: Filters): (ix: seq<nat>)
    ensures forall k :: 0 <= k < |ix| ==> ix[k] < |s|
    ensures forall k, l :: 0 <= k < l < |ix| ==> ix[k] < ix[l]
    ensures forall i :: 0 <= i < |s| ==> (i in ix <==> Matches(s[i], filters))
  {
    if s == [] then []
    else
      var init := MatchingIndices(s[..|s| - 1], filters);
      assert forall i :: 0 <= i < |s| - 1 ==> s[..|s| - 1][i] == s[i];
      if Matches(s[|s| - 1], filters) then init + [|s| - 1] else init
  }

  /**
   * The list handler returns exactly the matching issues, in their original
   * order: the k-th result is the issue at the k-th matching position.
   */
  lemma {:induction false} FilterIsMatchingSubsequence(s: seq<Issue>, filters: Filters)
    ensures |Filter(s, filters)| == |MatchingIndices(s, filters)|
    ensures forall k :: 0 <= k < |Filter(s, filters)| ==>
              Filter(s, filters)[k] == s[MatchingIndices(s, filters)[k]]
  {
    if s != [] {
      var init := s[..|s| - 1];
      FilterIsMatchingSubsequence(init, filters);
      var f, ix := Filter(init, filters), MatchingIndices(init, filters);
      var f', ix' := Filter(s, filters), MatchingIndices(s, filters);
      var extra := Matches(s[|s| - 1], filters);
      assert f' == if extra then f + [s[|s| - 1]] else f;
      assert ix' == if extra then ix + [|s| - 1] else ix;
      forall k | 0 <= k < |f'|
        ensures f'[k] == s[ix'[k]]
      {
        if k < |f| {
          assert f'[k] == f[k] && ix'[k] == ix[k];
          assert init[ix[k]] == s[ix[k]];
        }
      }
    }
  }

  /** When no issue matches, the list handler returns nothing. */
  lemma {:induction false} FilterNoneMatch(s: seq<Issue>, filters: Filters)
    requires forall i :: 0 <= i < |s| ==> !Matches(s[i], filters)
    ensures Filter(s, filters) == []
  {
    if s != [] {
      var init := s[..|s| - 1];
      assert forall i :: 0 <= i < |init| ==> init[i] == s[i];
      FilterNoneMatch(init, filters);
    }
  }

  /** With no filter keys every issue matches, so the whole sequence comes back. */
  lemma {:induction false} FilterWithoutKeys(s: seq<Issue>, filters: Filters)
    requires filters == map[]
    ensures Filter(s, filters) == s
  {
    if s != [] {
      FilterWithoutKeys(s[..|s| - 1], filters);
      assert s[..|s| - 1] + [s[|s| - 1]] == s;
    }
  }

  /**
   * Strict equality: a string filter never selects an issue whose field
   * holds a non-string value, such as the boolean `open` or a timestamp.
   */
  lemma StringFilterSkipsNonStrings(issue: Issue, filters: Filters, key: string)
    requires key in filters && key in issue && !issue[key].Str?
    ensures !Matches(issue, filters)
  {
  }

  // ---------------------------------------------------------------------
  // Lookup by _id
  // ---------------------------------------------------------------------

  /**
   * `projectIssues.findIndex(i => i._id === id)`: the first position whose
   * issue has that `_id`, or -1 when there is none.
   */
  function FirstMatch(s: seq<Issue>, id: Value): (r: int)
    ensures -1 <= r < |s|
    ensures r == -1 <==> forall k :: 0 <= k < |s| ==> !HasId(s[k], id)
    ensures r >= 0 ==> HasId(s[r], id) && forall k :: 0 <= k < r ==> !HasId(s[k], id)
  {
    if s == [] then -1
    else if HasId(s[0], id) then 0
    else
      var t := FirstMatch(s[1..], id);
      if t == -1 then -1 else t + 1
  }

  /** No two issues of the sequence share an `_id`. */
  ghost predicate UniqueIds(s: seq<Issue>)
  {
    forall i, j :: 0 <= i < |s| && 0 <= j < |s| && i != j && IdKey in s[i] && IdKey in s[j] ==>
      s[i][IdKey] != s[j][IdKey]
  }

  // ---------------------------------------------------------------------
  // Update
  // ---------------------------------------------------------------------

  /**
   * `Object.assign(issue, fields); issue.updated_on = now`: every supplied
   * field overwrites (or adds) its key, the other fields stay, and
   * `updated_on` ends as the clock reading even if `fields` carried one.
   */
  function Merged(issue: Issue, fields: map<string, Value>, now: nat): (r: Issue)
    ensures r.Keys == issue.Keys + fields.Keys + {UpdatedOnKey}
    ensures r[UpdatedOnKey] == Time(now)
    ensures forall k :: k in fields && k != UpdatedOnKey ==> r[k] == fields[k]
    ensures forall k :: k in issue && k !in fields && k != UpdatedOnKey ==> r[k] == issue[k]
  {
    (issue + fields)[UpdatedOnKey := Time(now)]
  }

  /** Merging a body from which `_id` was taken out never changes the issue's `_id`. */
  lemma MergeKeepsId(issue: Issue, fields: map<string, Value>, now: nat)
    requires IdKey in issue && IdKey !in fields
    ensures IdKey in Merged(issue, fields, now) && Merged(issue, fields, now)[IdKey] == issue[IdKey]
  {
  }

  // ---------------------------------------------------------------------
  // Delete
  // ---------------------------------------------------------------------

  /** `s.splice(i, 1)`: position `i` removed, the rest kept in order. */
  function Removed(s: seq<Issue>, i: nat): (r: seq<Issue>)
    requires i < |s|
    ensures |r| == |s| - 1
    ensures forall j :: 0 <= j < i ==> r[j] == s[j]
    ensures forall j :: i <= j < |r| ==> r[j] == s[j + 1]
  {
    s[..i] + s[i + 1..]
  }

  /**
   * Removing the first issue with a given `_id` from a sequence whose ids
   * are unique leaves no issue with that `_id`: a second delete fails.
   */
  lemma RemovedFirstMatchIsGone(s: seq<Issue>, id: Value)
    requires UniqueIds(s)
    requires FirstMatch(s, id) >= 0
    ensures FirstMatch(Removed(s, FirstMatch(s, id)), id) == -1
  {
  }

  /** Removal keeps the remaining ids unique. */
  lemma RemovedKeepsUnique(s: seq<Issue>, i: nat)
    requires i < |s| && UniqueIds(s)
    ensures UniqueIds(Removed(s, i))
  {
  }
}
