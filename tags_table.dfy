/** The navigation logic of the tags table (ui/app/components/utils/TagsTable.tsx).

    The table shows one row per tag. Some tag keys are navigable: clicking
    their row navigates to the page of the evaluation, dataset, datapoint or
    inference the tag names. The navigation effect of a click is modelled as
    the route it would navigate to, or `None` for no navigation. */
module TagsTable {
  import opened Wrappers

  const EvaluationName := "tensorzero::evaluation_name"
  const DatasetName := "tensorzero::dataset_name"
  const EvaluatorInferenceId := "tensorzero::evaluator_inference_id"
  const EvaluationRunId := "tensorzero::evaluation_run_id"
  const DatapointId := "tensorzero::datapoint_id"

  /** The keys that are navigable whatever the other tags are. */
  const AlwaysNavigable: seq<string> := [EvaluationName, DatasetName, EvaluatorInferenceId]

  /** JavaScript truthiness of `tags[key]`: the key is present and its value
      is not the empty string. */
  predicate Present(tags: map<string, string>, key: string)
  {
    key in tags && tags[key] != ""
  }

  /** A key is navigable when it is always navigable, or when it is a run id
      (a datapoint id) and the evaluation name (the dataset name) it needs for
      its route is present. */
  predicate IsNavigable(tags: map<string, string>, key: string)
  {
    key in AlwaysNavigable
    || (key == EvaluationRunId && Present(tags, EvaluationName))
    || (key == DatapointId && Present(tags, DatasetName))
  }

  /** The `navigableKeys` array: the three fixed keys, then a push for each
      companion tag that is present. */
  method NavigableKeys(tags: map<string, string>) returns (keys: seq<string>)
    ensures forall key :: key in keys <==> IsNavigable(tags, key)
    ensures |keys| >= 3 && keys[..3] == AlwaysNavigable
    ensures forall i, j :: 0 <= i < j < |keys| ==> keys[i] != keys[j]
  {
    keys := AlwaysNavigable;
    if Present(tags, EvaluationName) {
      keys := keys + [EvaluationRunId];
    }
    if Present(tags, DatasetName) {
      keys := keys + [DatapointId];
    }
  }

  /** handleRowClick: the route a click on the row `(key, value)` navigates
      to, or `None` when it does not navigate. */
  function NavTarget(tags: map<string, string>, key: string, value: string): (r: Option<string>)
    ensures r.Some? <==> IsNavigable(tags, key)
  {
    if !IsNavigable(tags, key) then None
    else if key == EvaluationRunId then
      if !Present(tags, EvaluationName) then None
      else Some("/evaluations/" + tags[EvaluationName] + "?evaluation_run_ids=" + value)
    else if key == DatapointId then
      if !Present(tags, DatasetName) then None
      else Some("/datasets/" + tags[DatasetName] + "/datapoint/" + value)
    else if key == EvaluationName then Some("/evaluations/" + value)
    else if key == DatasetName then Some("/datasets/" + value)
    else if key == EvaluatorInferenceId then Some("/observability/inferences/" + value)
    else None
  }

  /** The route of each navigable key. */
  lemma Routes(tags: map<string, string>, value: string)
    ensures NavTarget(tags, EvaluationName, value) == Some("/evaluations/" + value)
    ensures NavTarget(tags, DatasetName, value) == Some("/datasets/" + value)
    ensures NavTarget(tags, EvaluatorInferenceId, value) == Some("/observability/inferences/" + value)
    ensures Present(tags, EvaluationName) ==>
              NavTarget(tags, EvaluationRunId, value)
              == Some("/evaluations/" + tags[EvaluationName] + "?evaluation_run_ids=" + value)
    ensures !Present(tags, EvaluationName) ==> NavTarget(tags, EvaluationRunId, value) == None
    ensures Present(tags, DatasetName) ==>
              NavTarget(tags, DatapointId, value)
              == Some("/datasets/" + tags[DatasetName] + "/datapoint/" + value)
    ensures !Present(tags, DatasetName) ==> NavTarget(tags, DatapointId, value) == None
  {
  }

  /** A row of the table: its key and value, whether it has the clickable
      style, and what clicking it does. */
  datatype Row = Row(key: string, value: string, clickable: bool, onClick: Option<string>)

  /** The table body: the empty state, or one row per entry. */
  datatype Body = EmptyState(message: string) | Rows(rows: seq<Row>)

  /** `entries` is `Object.entries(tags)`: each key once, with its value. */
  predicate IsEntriesOf(entries: seq<(string, string)>, tags: map<string, string>)
  {
    (forall i :: 0 <= i < |entries| ==> entries[i].0 in tags && tags[entries[i].0] == entries[i].1)
    && (forall key :: key in tags ==> exists i :: 0 <= i < |entries| && entries[i].0 == key)
    && (forall i, j :: 0 <= i < j < |entries| ==> entries[i].0 != entries[j].0)
  }

  function MakeRow(tags: map<string, string>, key: string, value: string): Row
  {
    Row(key, value, IsNavigable(tags, key), NavTarget(tags, key, value))
  }

  /** The rendered body: "No tags found" for an empty tag map, otherwise a row
      per entry, in entry order, clickable exactly when its key is navigable. */
  function TableBody(tags: map<string, string>, entries: seq<(string, string)>): (b: Body)
    requires IsEntriesOf(entries, tags)
    ensures b.EmptyState? <==> |tags| == 0
    ensures b.EmptyState? ==> b.message == "No tags found" && entries == []
    ensures b.Rows? ==> |b.rows| == |entries| == |tags|
    ensures b.Rows? ==> forall i :: 0 <= i < |b.rows| ==>
              b.rows[i].key == entries[i].0 && b.rows[i].value == entries[i].1
              && (b.rows[i].clickable <==> IsNavigable(tags, entries[i].0))
              && b.rows[i].onClick == NavTarget(tags, entries[i].0, entries[i].1)
              && (b.rows[i].clickable <==> b.rows[i].onClick.Some?)
  {
    EntriesCount(entries, tags);
    if |tags| == 0 then EmptyState("No tags found")
    else Rows(seq(|entries|, i requires 0 <= i < |entries| => MakeRow(tags, entries[i].0, entries[i].1)))
  }

  /** `Object.entries` has exactly one entry per key. */
  lemma {:induction false} EntriesCount(entries: seq<(string, string)>, tags: map<string, string>)
    requires IsEntriesOf(entries, tags)
    ensures |entries| == |tags|
  {
    if entries == [] {
      assert tags.Keys == {};
    } else {
      var key := entries[0].0;
      var rest := tags - {key};
      assert IsEntriesOf(entries[1..], rest) by {
        forall k | k in rest ensures exists i :: 0 <= i < |entries[1..]| && entries[1..][i].0 == k {
          var i :| 0 <= i < |entries| && entries[i].0 == k;
          assert i != 0;
          assert entries[1..][i - 1].0 == k;
        }
      }
      EntriesCount(entries[1..], rest);
      assert rest.Keys == tags.Keys - {key};
    }
  }
}
