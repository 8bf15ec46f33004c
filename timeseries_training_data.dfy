/** The training-data reader of the time-series example: the rows of a CSV
    file, the first taken as the header and the rest as data. The file is
    given as its parsed rows. */
module TimeseriesTrainingData {
  import opened Basics

  /** One parsed CSV row: its fields, as text. */
  type CsvRow = seq<string>

  /** `get_training_data()`: the data rows and the header row. An empty file
      never assigns the header, so the return raises UnboundLocalError. */
  method GetTrainingData(rows: seq<CsvRow>) returns (r: Result<(seq<CsvRow>, CsvRow), PyError>)
    ensures r.Err? <==> rows == []
    ensures r.Err? ==> r.error == UnboundHeader
    ensures r.Ok? ==> [r.value.1] + r.value.0 == rows
    ensures r.Ok? ==> r.value.1 == rows[0] && |r.value.0| == |rows| - 1
  {
    var first := true;
    var data: seq<CsvRow> := [];
    var header: Option<CsvRow> := None;
    var i := 0;
    while i < |rows|
      invariant 0 <= i <= |rows|
      invariant first <==> i == 0
      invariant first <==> header.None?
      invariant !first ==> header.value == rows[0] && data == rows[1..i]
      invariant first ==> data == []
    {
      if first {
        header := Some(rows[i]);
        first := false;
      } else {
        data := data + [rows[i]];
      }
      i := i + 1;
    }
    if header.None? {
      return Err(UnboundHeader);
    }
    assert [header.value] + data == rows;
    r := Ok((data, header.value));
  }
}
