/**
 The request history of the HydroDS client (`_ServiceLog` and
 `ServiceRequest`): an append-only sequence of records, its newest-first
 lookup, the selection that `print_log` prints, and its persistence to a
 single file. The file is abstracted as `Option<seq<Record>>`: `None` when
 no file exists, otherwise the sequence it holds.
 */
module ServiceLog {

  import opened Errors

  /**
   One `ServiceRequest`: the operation, the name and value of the
   correlating identifier, the status reported by the service and the
   produced file, if any. An absent identifier or filter is the empty
   string, as every test on them in the source is a truthiness test.
   */
  datatype Record = Record(
    serviceName: string,
    idName: string,
    idValue: string,
    status: string,
    filePath: Option<string>)

  type Log = seq<Record>

  type Disk = Option<Log>

  /** `_ServiceLog.add`: the record goes at the end and every earlier record stays where it was. */
  function Add(log: Log, r: Record): (log': Log)
    ensures |log'| == |log| + 1
    ensures log'[..|log|] == log && log'[|log|] == r
    ensures forall i :: 0 <= i < |log| ==> log'[i] == log[i]
  {
    log + [r]
  }

  /** `_ServiceLog.save`: a non-empty log is written whole; an empty one deletes the file. */
  function Save(log: Log, disk: Disk): (disk': Disk)
    ensures disk'.Some? <==> |log| > 0
    ensures disk'.Some? ==> disk'.value == log
  {
    if |log| > 0 then Some(log) else None
  }

  /** `_ServiceLog.load`: the stored log replaces the in-memory one only when memory is empty and a file exists. */
  function Load(log: Log, disk: Disk): (log': Log)
    ensures |log| > 0 ==> log' == log
    ensures |log| == 0 && disk.Some? ==> log' == disk.value
    ensures |log| == 0 && disk.None? ==> log' == []
  {
    if |log| == 0 && disk.Some? then disk.value else log
  }

  /** `_ServiceLog.delete_all`: both memory and disk are emptied. */
  function DeleteAll(log: Log, disk: Disk): (r: (Log, Disk))
    ensures |r.0| == 0 && r.1.None?
  {
    ([], None)
  }

  /** Saving, then loading into a fresh (empty) log, gives back the saved log. */
  lemma SaveLoadRoundTrip(log: Log, disk: Disk)
    ensures Load([], Save(log, disk)) == log
  {
  }

  /** Saving an unchanged log again leaves the stored state as it was. */
  lemma SaveIdempotent(log: Log, disk: Disk)
    ensures Save(log, Save(log, disk)) == Save(log, disk)
  {
  }

  /** After `delete_all`, nothing is loaded back. */
  lemma DeleteAllThenLoad(log: Log, disk: Disk)
    ensures var (l, d) := DeleteAll(log, disk); Load(l, d) == []
  {
  }

  // ---------------------------------------------------------------------
  // Newest-first lookup
  // ---------------------------------------------------------------------

  /**
   Whether the scan of `get_most_recent_request` keeps `item`. The source
   first selects on the service name, then lets the identifier test
   overwrite that choice whenever an identifier name is given.
   */
  predicate Selected(item: Record, serviceName: string, idName: string, idValue: string)
  {
    var byName := serviceName != "" && item.serviceName == serviceName;
    if idName == "" then byName
    else if item.idName == idName then (if idValue != "" then item.idValue == idValue else true)
    else false
  }

  /** The newest record of `log` that the scan keeps, scanning from the end. */
  function NewestSelected(log: Log, serviceName: string, idName: string, idValue: string): (r: Option<Record>)
    ensures r.None? <==> forall i :: 0 <= i < |log| ==> !Selected(log[i], serviceName, idName, idValue)
    ensures r.Some? ==> exists i :: 0 <= i < |log| && log[i] == r.value
                                    && Selected(log[i], serviceName, idName, idValue)
                                    && forall j :: i < j < |log| ==> !Selected(log[j], serviceName, idName, idValue)
  {
    if |log| == 0 then None
    else if Selected(log[|log| - 1], serviceName, idName, idValue) then Some(log[|log| - 1])
    else
      var r := NewestSelected(log[..|log| - 1], serviceName, idName, idValue);
      assert forall i :: 0 <= i < |log| - 1 ==> log[..|log| - 1][i] == log[i];
      r
  }

  /**
   `_ServiceLog.get_most_recent_request`: None on an empty log; the last
   record when neither a service name nor an identifier name is given;
   otherwise the newest record the scan keeps, or None.
   */
  function MostRecent(log: Log, serviceName: string, idName: string, idValue: string): (r: Option<Record>)
    ensures |log| == 0 ==> r.None?
    ensures |log| > 0 && serviceName == "" && idName == "" ==> r == Some(log[|log| - 1])
    ensures serviceName != "" || idName != "" ==> r == NewestSelected(log, serviceName, idName, idValue)
  {
    if |log| == 0 then None
    else if serviceName == "" && idName == "" then Some(log[|log| - 1])
    else NewestSelected(log, serviceName, idName, idValue)
  }

  /** The filter as a reference predicate: by identifier (and value, if given) when an identifier name is given, otherwise by service name. */
  predicate Matches(item: Record, serviceName: string, idName: string, idValue: string) {
    if idName != "" then item.idName == idName && (idValue == "" || item.idValue == idValue)
    else serviceName != "" && item.serviceName == serviceName
  }

  /** The scan keeps exactly the records the reference filter matches. */
  lemma SelectedIsMatches(item: Record, serviceName: string, idName: string, idValue: string)
    ensures Selected(item, serviceName, idName, idValue) <==> Matches(item, serviceName, idName, idValue)
  {
  }

  /** Once an identifier name is given, the service name plays no part in the lookup. */
  lemma {:induction false} MostRecentIgnoresNameWithId(log: Log, name1: string, name2: string, idName: string, idValue: string)
    requires idName != ""
    ensures MostRecent(log, name1, idName, idValue) == MostRecent(log, name2, idName, idValue)
  {
    NewestSelectedIgnoresName(log, name1, name2, idName, idValue);
  }

  lemma {:induction false} NewestSelectedIgnoresName(log: Log, name1: string, name2: string, idName: string, idValue: string)
    requires idName != ""
    ensures NewestSelected(log, name1, idName, idValue) == NewestSelected(log, name2, idName, idValue)
  {
    if |log| > 0 {
      NewestSelectedIgnoresName(log[..|log| - 1], name1, name2, idName, idValue);
    }
  }

  /** A record just added is what an unfiltered lookup returns next. */
  lemma AddThenMostRecent(log: Log, r: Record)
    ensures MostRecent(Add(log, r), "", "", "") == Some(r)
  {
  }

  // ---------------------------------------------------------------------
  // print_log
  // ---------------------------------------------------------------------

  function Reverse(log: Log): (r: Log)
    ensures |r| == |log|
    ensures forall i :: 0 <= i < |log| ==> r[i] == log[|log| - 1 - i]
  {
    if |log| == 0 then [] else [log[|log| - 1]] + Reverse(log[..|log| - 1])
  }

  /** Python's `seq[0:count]` for an int `count` (a negative end counts from the back). */
  function SliceEnd(n: nat, count: int): (e: nat)
    ensures e <= n
  {
    if count >= 0 then (if count > n then n else count)
    else if n + count > 0 then n + count
    else 0
  }

  /**
   The records `_ServiceLog.print_log(order, count)` prints, in print
   order: nothing for an empty log; oldest first, or newest first when
   `order` is 'last'; the first `count` of them when `count` is a non-zero
   int (capped at the log's length, and counting from the back when
   negative, as Python slicing does), all of them otherwise.
   */
  function PrintSelection(log: Log, order: string, count: Option<int>): (r: Log)
    ensures |log| == 0 ==> r == []
    ensures |r| == (if count.Some? && count.value != 0 then SliceEnd(|log|, count.value) else |log|)
    ensures order == "last" ==> forall i :: 0 <= i < |r| ==> r[i] == log[|log| - 1 - i]
    ensures order != "last" ==> forall i :: 0 <= i < |r| ==> r[i] == log[i]
  {
    if |log| == 0 then []
    else
      var ordered := if order == "last" then Reverse(log) else log;
      var n := if count.Some? && count.value != 0 then SliceEnd(|log|, count.value) else |log|;
      ordered[0..n]
  }

  /** A positive count selects the first `min(count, length)` records in print order. */
  lemma PrintSelectionPositiveCount(log: Log, order: string, count: int)
    requires count > 0
    ensures |PrintSelection(log, order, Some(count))| == if count < |log| then count else |log|
  {
  }
}
