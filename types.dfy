/** The error aggregator and the counter of types.go. The mutex around each is left out. */
module Types {
  import opened Wrappers

  /** One failure: where it happened, the error (None for a nil error, otherwise the text its
      Error() method gives) and the device it concerns. */
  datatype ErrorLog = ErrorLog(context: string, error: Option<string>, deviceId: string)

  /** The zero value ErrorLog{}: the per-device tasks send it to mean "success". */
  const NoError := ErrorLog("", None, "")

  predicate HasError(l: ErrorLog)
  {
    l.error.Some?
  }

  /** The text written for an error cell: empty for a nil error. */
  function ErrorText(e: Option<string>): string
  {
    match e
    case None => ""
    case Some(msg) => msg
  }

  const Header: seq<string> := ["context", "error", "deviceId"]

  /** The CSV record written for one log entry. */
  function Row(l: ErrorLog): seq<string>
  {
    [l.context, ErrorText(l.error), l.deviceId]
  }

  function Rows(logs: seq<ErrorLog>): seq<seq<string>>
  {
    if |logs| == 0 then [] else Rows(logs[..|logs| - 1]) + [Row(logs[|logs| - 1])]
  }

  /** The records of the failed-devices CSV: the header, then one row per entry. */
  function CsvRows(logs: seq<ErrorLog>): seq<seq<string>>
  {
    [Header] + Rows(logs)
  }

  /** The CSV has the header first and then, at position i + 1, the row of entry i. */
  lemma {:induction false} CsvRowsShape(logs: seq<ErrorLog>)
    ensures |CsvRows(logs)| == |logs| + 1
    ensures CsvRows(logs)[0] == Header
    ensures forall i :: 0 <= i < |logs| ==> CsvRows(logs)[i + 1] == Row(logs[i])
  {
    RowsShape(logs);
  }

  lemma {:induction false} RowsShape(logs: seq<ErrorLog>)
    ensures |Rows(logs)| == |logs|
    ensures forall i :: 0 <= i < |logs| ==> Rows(logs)[i] == Row(logs[i])
  {
    if |logs| > 0 {
      RowsShape(logs[..|logs| - 1]);
    }
  }

  /** Logging one more failure adds exactly one row, at the end, and changes no earlier row. */
  lemma RowsAppend(logs: seq<ErrorLog>, l: ErrorLog)
    ensures CsvRows(logs + [l]) == CsvRows(logs) + [Row(l)]
  {
    assert (logs + [l])[..|logs + [l]| - 1] == logs;
  }

  /** ErrorLogger: an append-only list of failures. */
  class ErrorLogger {
    var logs: seq<ErrorLog>

    constructor ()
      ensures logs == []
    {
      logs := [];
    }

    method AddError(context: string, deviceId: string, e: Option<string>)
      modifies this
      ensures logs == old(logs) + [ErrorLog(context, e, deviceId)]
    {
      AddErrorLog(ErrorLog(context, e, deviceId));
    }

    method AddErrorLog(l: ErrorLog)
      modifies this
      ensures logs == old(logs) + [l]
    {
      logs := logs + [l];
    }

    /** The records WriteToFile sends to its CSV writer: none at all (no file is opened) when
        the log is empty, otherwise the header and one row per entry in order. Opening the file
        and the writer's own failures are left out. */
    method WriteToFile() returns (written: Option<seq<seq<string>>>)
      ensures logs == [] <==> written.None?
      ensures written.Some? ==> written.value == CsvRows(logs)
    {
      if |logs| == 0 {
        return None;
      }
      var records := [Header];
      var i := 0;
      while i < |logs|
        invariant 0 <= i <= |logs|
        invariant records == CsvRows(logs[..i])
      {
        var l := logs[i];
        var errMsg := "";
        if l.error.Some? {
          errMsg := l.error.value;
        }
        assert logs[..i + 1][..i] == logs[..i];
        records := records + [[l.context, errMsg, l.deviceId]];
        i := i + 1;
      }
      assert logs[..i] == logs;
      return Some(records);
    }
  }

  /** counter: a lock-guarded integer (Go's int is 64 bits; the model's is unbounded). */
  class Counter {
    var count: int

    constructor ()
      ensures count == 0
    {
      count := 0;
    }

    method Increment()
      modifies this
      ensures count == old(count) + 1
    {
      count := count + 1;
    }

    method Count() returns (n: int)
      ensures n == count
    {
      n := count;
    }

    method SetCount(n: int)
      modifies this
      ensures count == n
    {
      count := n;
    }
  }
}
