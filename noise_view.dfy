/** The sound-sensor table (src/app/views/noise/noise.view.ts): rows built
    from the feed's data points, edited and deleted by data-point id. The
    dialog, the alerts and the remote calls are parameters or recorded
    effects. */
module NoiseView {
  import opened Common
  import opened FeedModels

  /** One table row. `index` is the 1-based position at load time. */
  datatype Row = Row(index: int, id: string, value: Number, createdAt: int, rawData: DataPoint)

  /** The toasts the view shows. */
  datatype Alert = ShowSuccess(text: string) | ShowError(text: string)

  const FEED_KEY: string := "sound-sensor"
  const INVALID_VALUE: string := "Valor inválido."
  const UPDATED: string := "Registro actualizado."
  const UPDATE_FAILED: string := "Error al actualizar el registro."
  const DELETED: string := "Registro eliminado."
  const DELETE_FAILED: string := "Error al eliminar el registro."

  function RowOf(d: DataPoint, i: nat): Row
  {
    Row(i + 1, d.id, ParseFloatOf(d.value), d.createdAt, d)
  }

  /** loadRows' map: one row per data point, in order, numbered from 1. */
  function BuildRows(data: seq<DataPoint>): (rows: seq<Row>)
    ensures |rows| == |data|
    ensures forall i :: 0 <= i < |data| ==> rows[i] == RowOf(data[i], i)
  {
    if data == [] then [] else BuildRows(data[..|data| - 1]) + [RowOf(data[|data| - 1], |data| - 1)]
  }

  /** The raw data points of the rows. */
  function RawData(rows: seq<Row>): (data: seq<DataPoint>)
    ensures |data| == |rows|
    ensures forall i :: 0 <= i < |rows| ==> data[i] == rows[i].rawData
  {
    if rows == [] then [] else RawData(rows[..|rows| - 1]) + [rows[|rows| - 1].rawData]
  }

  /** The rows keep the data points they were built from. */
  lemma RowsKeepTheirData(data: seq<DataPoint>)
    ensures RawData(BuildRows(data)) == data
  {
  }

  /** A row after a successful update: new value and time, merged raw data. */
  function Updated(r: Row, updated: DataPoint): Row
  {
    r.(value := ParseFloatOf(updated.value), createdAt := updated.createdAt, rawData := updated)
  }

  /** onEdit's map: update the rows whose data-point id matches. */
  function ReplaceById(rows: seq<Row>, id: string, updated: DataPoint): (r: seq<Row>)
    ensures |r| == |rows|
    ensures forall i :: 0 <= i < |rows| && rows[i].rawData.id != id ==> r[i] == rows[i]
    ensures forall i :: 0 <= i < |rows| && rows[i].rawData.id == id ==> r[i] == Updated(rows[i], updated)
  {
    if rows == [] then []
    else
      var last := rows[|rows| - 1];
      ReplaceById(rows[..|rows| - 1], id, updated) + [if last.rawData.id != id then last else Updated(last, updated)]
  }

  /** onDelete's filter: the rows whose data-point id differs, in order. */
  function RemoveById(rows: seq<Row>, id: string): (r: seq<Row>)
    ensures |r| <= |rows|
    ensures forall x :: x in r <==> x in rows && x.rawData.id != id
  {
    if rows == [] then []
    else
      var last := rows[|rows| - 1];
      assert forall x :: x in rows <==> x in rows[..|rows| - 1] || x == last;
      RemoveById(rows[..|rows| - 1], id) + (if last.rawData.id != id then [last] else [])
  }

  /** Removal works segment by segment, so the kept rows stay in order. */
  lemma {:induction false} RemoveByIdAppend(a: seq<Row>, b: seq<Row>, id: string)
    ensures RemoveById(a + b, id) == RemoveById(a, id) + RemoveById(b, id)
  {
    if b == [] {
      assert a + b == a;
    } else {
      assert (a + b)[..|a + b| - 1] == a + b[..|b| - 1];
      RemoveByIdAppend(a, b[..|b| - 1], id);
    }
  }

  /** Rows with an id are removed exactly; removing again removes nothing. */
  lemma {:induction false} RemoveByIdIdempotent(rows: seq<Row>, id: string)
    ensures RemoveById(RemoveById(rows, id), id) == RemoveById(rows, id)
  {
    if rows != [] {
      var init := rows[..|rows| - 1];
      var last := rows[|rows| - 1];
      var kept := if last.rawData.id != id then [last] else [];
      assert RemoveById(rows, id) == RemoveById(init, id) + kept;
      RemoveByIdIdempotent(init, id);
      RemoveByIdAppend(RemoveById(init, id), kept, id);
      if kept != [] {
        assert [last][..0] == [];
        assert RemoveById(kept, id) == RemoveById([], id) + kept;
      }
    }
  }

  /** Editing changes no row's position, index or id. */
  lemma ReplaceKeepsLayout(rows: seq<Row>, id: string, updated: DataPoint)
    ensures forall i :: 0 <= i < |rows| ==>
              ReplaceById(rows, id, updated)[i].index == rows[i].index &&
              ReplaceById(rows, id, updated)[i].id == rows[i].id
  {
  }

  class NoiseTable {
    var rows: seq<Row>
    var alerts: seq<Alert>

    constructor ()
      ensures rows == [] && alerts == []
    {
      rows := [];
      alerts := [];
    }

    /** loadRows: the rows of the fetched points (none when the service
        answers null), or no rows at all when the fetch fails. */
    method LoadRows(fetched: Result<Option<seq<DataPoint>>, string>)
      modifies this
      ensures fetched.Ok? && fetched.value.Some? ==> rows == BuildRows(fetched.value.value)
      ensures fetched.Ok? && fetched.value.None? ==> rows == []
      ensures fetched.Err? ==> rows == []
      ensures alerts == old(alerts)
    {
      match fetched
      case Ok(data) =>
        rows := BuildRows(if data.Some? then data.value else []);
      case Err(_) =>
        rows := [];
    }

    /** onEdit after the dialog closes: a cancelled dialog does nothing; a
        NaN entry is refused without calling the service; otherwise the
        update's outcome decides. `entered` is `Number(result.value)`. */
    method OnEdit(row: Row, entered: Option<Number>, update: (string, string, Number) -> Result<DataPoint, string>)
      returns (called: bool)
      modifies this
      ensures called <==> entered.Some? && !entered.value.NaN?
      ensures !called ==> rows == old(rows)
      ensures entered.Some? && entered.value.NaN? ==> alerts == old(alerts) + [ShowError(INVALID_VALUE)]
      ensures entered.None? ==> alerts == old(alerts)
      ensures called && update(FEED_KEY, row.rawData.id, entered.value).Ok? ==>
                rows == ReplaceById(old(rows), row.rawData.id, update(FEED_KEY, row.rawData.id, entered.value).value)
                && alerts == old(alerts) + [ShowSuccess(UPDATED)]
      ensures called && update(FEED_KEY, row.rawData.id, entered.value).Err? ==>
                rows == old(rows) && alerts == old(alerts) + [ShowError(UPDATE_FAILED)]
    {
      if entered.None? {
        return false;
      }
      var newValue := entered.value;
      if newValue.NaN? {
        alerts := alerts + [ShowError(INVALID_VALUE)];
        return false;
      }
      called := true;
      var outcome := update(FEED_KEY, row.rawData.id, newValue);
      match outcome
      case Ok(updated) =>
        rows := ReplaceById(rows, row.rawData.id, updated);
        alerts := alerts + [ShowSuccess(UPDATED)];
      case Err(_) =>
        alerts := alerts + [ShowError(UPDATE_FAILED)];
    }

    /** onDelete: drop the rows with the row's data-point id once the
        service confirms; a failure leaves the rows as they were. */
    method OnDelete(row: Row, outcome: Result<(), string>)
      modifies this
      ensures outcome.Ok? ==> rows == RemoveById(old(rows), row.rawData.id) && alerts == old(alerts) + [ShowSuccess(DELETED)]
      ensures outcome.Err? ==> rows == old(rows) && alerts == old(alerts) + [ShowError(DELETE_FAILED)]
    {
      if outcome.Ok? {
        rows := RemoveById(rows, row.rawData.id);
        alerts := alerts + [ShowSuccess(DELETED)];
      } else {
        alerts := alerts + [ShowError(DELETE_FAILED)];
      }
    }
  }
}
