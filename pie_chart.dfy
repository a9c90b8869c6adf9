/** The category pie chart of the upload companion app
    (react-websocket-file-upload/src/MyPieChart.js): the backend's JSON maps
    each category name to a record holding a "Questions Covered" list, and
    the chart shows one slice per category sized by that list's length. The
    HTTP fetch is left out; its outcome is a parameter. */
module PieChart {
  import opened Types

  /** One key of the `Categories` object, in `Object.keys` order, with its
      "Questions Covered" list (None when the record has no such list). */
  datatype CategoryEntry = CategoryEntry(name: string, questionsCovered: Option<seq<string>>)

  /** One slice of the chart. */
  datatype Datum = Datum(id: string, value: nat)

  /** The transform of a `Categories` object: None when some category has
      no "Questions Covered" list, since reading its length throws. */
  function Transform(categories: seq<CategoryEntry>): (r: Option<seq<Datum>>)
    ensures r.None? <==> exists i :: 0 <= i < |categories| && categories[i].questionsCovered.None?
    ensures r.Some? ==> |r.value| == |categories|
    ensures r.Some? ==> forall i :: 0 <= i < |categories| ==>
              r.value[i].id == categories[i].name && r.value[i].value == |categories[i].questionsCovered.value|
  {
    if categories == [] then Some([])
    else
      var last := categories[|categories| - 1];
      match Transform(categories[..|categories| - 1])
      case None => None
      case Some(init) =>
        if last.questionsCovered.None? then None
        else Some(init + [Datum(last.name, |last.questionsCovered.value|)])
  }

  /** The component's state: the slices currently shown. */
  class Chart {
    var data: seq<Datum>

    /** The chart starts with no slices. */
    constructor ()
      ensures data == []
    {
      data := [];
    }

    /** The fetch handler. `response` is the fetch-and-parse outcome:
        Failure when the request or the JSON parse failed, Success(None)
        when the parsed value is falsy or has no truthy `Categories`, and
        Success(Some(c)) otherwise. Only a transform that succeeds replaces
        the data; every other case leaves it as it was. */
    method OnFetch(response: Result<Option<seq<CategoryEntry>>>)
      modifies this
      ensures response.Success? && response.value.Some? && Transform(response.value.value).Some?
              ==> data == Transform(response.value.value).value
      ensures !(response.Success? && response.value.Some? && Transform(response.value.value).Some?)
              ==> data == old(data)
    {
      if response.Success? && response.value.Some? {
        var transformed := Transform(response.value.value);
        if transformed.Some? {
          data := transformed.value;
        }
      }
    }
  }
}
