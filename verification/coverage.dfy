/**
 The coverage metadata read by `model_run_load_metadata`: the bounding
 box and the time period of a model-instance resource, taken from the
 `dcterms:box` and `dcterms:period` values of its coverage list, and the
 reply assembled from them.

 A coverage value is a `;`-separated list of parts such as
 `northlimit=43.5`. Each part is tested against the field names in a
 fixed order; the first field it mentions receives the text between its
 first and second `=` (for the period, up to the first `T`), later parts
 overwriting earlier ones. A mentioning part without `=` raises an
 `IndexError`, which turns the whole reply into an error.
 */
module Coverage {

  import opened Errors
  import opened Text

  /** One entry of the coverage list: a box value, a period value, or neither (a box takes precedence). */
  datatype CoverageItem = CoverageItem(box: Option<string>, period: Option<string>)

  /** A part of a split coverage value, tagged with the kind of value it came from. */
  datatype Part = BoxPart(text: string) | PeriodPart(text: string)

  datatype FieldKey = North | South | East | West | Start | End

  /** The six coverage fields of the reply. */
  datatype Fields = Fields(north: string, south: string, east: string, west: string, start: string, end: string)

  const Unknown := "unknown"

  /** Every field before any part is read. */
  const NoFields := Fields(Unknown, Unknown, Unknown, Unknown, Unknown, Unknown)

  function Get(f: Fields, k: FieldKey): string {
    match k
    case North => f.north
    case South => f.south
    case East => f.east
    case West => f.west
    case Start => f.start
    case End => f.end
  }

  function Set(f: Fields, k: FieldKey, v: string): (g: Fields)
    ensures Get(g, k) == v
    ensures forall other: FieldKey :: other != k ==> Get(g, other) == Get(f, other)
  {
    match k
    case North => f.(north := v)
    case South => f.(south := v)
    case East => f.(east := v)
    case West => f.(west := v)
    case Start => f.(start := v)
    case End => f.(end := v)
  }

  /**
   The field a part sets, if any: for a box part the first of
   'northlimit', 'southlimit', 'eastlimit', 'westlimit' that occurs in it;
   for a period part 'start', else 'end'.
   */
  function Key(p: Part): (k: Option<FieldKey>)
    ensures p.BoxPart? && k.Some? ==> k.value in {North, South, East, West}
    ensures p.PeriodPart? && k.Some? ==> k.value in {Start, End}
  {
    match p
    case BoxPart(t) =>
      if Contains(t, "northlimit") then Some(North)
      else if Contains(t, "southlimit") then Some(South)
      else if Contains(t, "eastlimit") then Some(East)
      else if Contains(t, "westlimit") then Some(West)
      else None
    case PeriodPart(t) =>
      if Contains(t, "start") then Some(Start)
      else if Contains(t, "end") then Some(End)
      else None
  }

  /**
   The value a part carries: `part.split('=')[1]`, cut before the first
   'T' for a period part. None when the part has no `=`.
   */
  function Extract(p: Part): (v: Option<string>)
    ensures v.Some? <==> '=' in p.text
    ensures v.Some? ==> '=' !in v.value
    ensures v.Some? && p.PeriodPart? ==> 'T' !in v.value
  {
    match SecondField(p.text, '=')
    case None => None
    case Some(field) => if p.PeriodPart? then Some(Before(field, 'T')) else Some(field)
  }

  /** A part that sets a field but carries no value: reading it raises. */
  predicate Broken(p: Part) {
    Key(p).Some? && '=' !in p.text
  }

  /** Reading one part into the fields. */
  function Update(f: Fields, p: Part): (r: Result<Fields>)
    ensures r.Err? <==> Broken(p)
    ensures r.Err? ==> r.error == IndexError("list index out of range")
    ensures r.Ok? && Key(p).None? ==> r.value == f
  {
    match Key(p)
    case None => Ok(f)
    case Some(k) =>
      match Extract(p)
      case None => Err(IndexError("list index out of range"))
      case Some(v) => Ok(Set(f, k, v))
  }

  /** Reading the parts in order, stopping at the first that raises. */
  function Read(f: Fields, parts: seq<Part>): Result<Fields>
    decreases |parts|
  {
    if |parts| == 0 then Ok(f)
    else
      var g :- Read(f, parts[..|parts| - 1]);
      Update(g, parts[|parts| - 1])
  }

  /** The parts of one coverage item, in order: the box text or the period text split at `;`. */
  function ItemParts(item: CoverageItem): seq<Part> {
    if item.box.Some? then
      var texts := Split(item.box.value, ';');
      seq(|texts|, j requires 0 <= j < |texts| => BoxPart(texts[j]))
    else if item.period.Some? then
      var texts := Split(item.period.value, ';');
      seq(|texts|, j requires 0 <= j < |texts| => PeriodPart(texts[j]))
    else []
  }

  /** All parts of the coverage list, item after item. */
  function AllParts(items: seq<CoverageItem>): seq<Part> {
    if |items| == 0 then [] else AllParts(items[..|items| - 1]) + ItemParts(items[|items| - 1])
  }

  /** The coverage fields of a resource: every part of every item read in order, from all fields unknown. */
  function ParseCoverage(items: seq<CoverageItem>): Result<Fields> {
    Read(NoFields, AllParts(items))
  }

  /** The index of the last part that sets field `k`, or -1 when none does. */
  function LastSetting(parts: seq<Part>, k: FieldKey): (i: int)
    ensures -1 <= i < |parts|
    ensures i >= 0 ==> Key(parts[i]) == Some(k)
    ensures forall j :: i < j < |parts| ==> Key(parts[j]) != Some(k)
  {
    if |parts| == 0 then -1
    else if Key(parts[|parts| - 1]) == Some(k) then |parts| - 1
    else LastSetting(parts[..|parts| - 1], k)
  }

  /** Reading raises exactly when some part sets a field but has no `=`. */
  lemma {:induction false} ReadFailsIff(f: Fields, parts: seq<Part>)
    ensures Read(f, parts).Err? <==> exists j :: 0 <= j < |parts| && Broken(parts[j])
    ensures Read(f, parts).Err? ==> Read(f, parts).error == IndexError("list index out of range")
    decreases |parts|
  {
    if |parts| > 0 {
      var init := parts[..|parts| - 1];
      ReadFailsIff(f, init);
      if exists j :: 0 <= j < |init| && Broken(init[j]) {
        var j :| 0 <= j < |init| && Broken(init[j]);
        assert parts[j] == init[j];
      }
      if exists j :: 0 <= j < |parts| && Broken(parts[j]) {
        var j :| 0 <= j < |parts| && Broken(parts[j]);
        if j < |init| {
          assert init[j] == parts[j];
        }
      }
    }
  }

  /**
   When reading succeeds, each field holds the value of the last part that
   sets it, or what it held before when no part sets it.
   */
  lemma {:induction false} ReadLastWins(f: Fields, parts: seq<Part>, k: FieldKey)
    requires Read(f, parts).Ok?
    ensures var i := LastSetting(parts, k);
            && (i >= 0 ==> Extract(parts[i]).Some? && Get(Read(f, parts).value, k) == Extract(parts[i]).value)
            && (i < 0 ==> Get(Read(f, parts).value, k) == Get(f, k))
    decreases |parts|
  {
    if |parts| > 0 {
      var init := parts[..|parts| - 1];
      var last := parts[|parts| - 1];
      ReadLastWins(f, init, k);
      if Key(last) != Some(k) {
        assert LastSetting(parts, k) == LastSetting(init, k);
        if LastSetting(init, k) >= 0 {
          assert init[LastSetting(init, k)] == parts[LastSetting(init, k)];
        }
      }
    }
  }

  /** With no part setting a field, it stays 'unknown'. */
  lemma UnsetFieldsUnknown(items: seq<CoverageItem>, k: FieldKey)
    requires ParseCoverage(items).Ok?
    requires forall j :: 0 <= j < |AllParts(items)| ==> Key(AllParts(items)[j]) != Some(k)
    ensures Get(ParseCoverage(items).value, k) == Unknown
  {
    ReadLastWins(NoFields, AllParts(items), k);
  }

  /** The answer of `model_run_load_metadata`: a status and either the metadata or a message. */
  datatype Metadata = Metadata(
    resId: string,
    northLat: string, southLat: string, eastLon: string, westLon: string,
    outletX: string, outletY: string, outletPoint: string,
    startTime: string, endTime: string,
    cellXSize: string, cellYSize: string, epsgCode: string)

  datatype Payload = Found(metadata: Metadata) | Message(text: string)

  datatype Reply = Reply(status: string, result: Payload)

  /** The HydroShare session of the request: connected, or not, with the error it reports. */
  datatype Session = Connected | NotConnected(error: string)

  /**
   `model_run_load_metadata` once the science metadata has been fetched:
   without a session the session's error is returned; a coverage part that
   raises turns into an error message; otherwise the coverage fields are
   sent with a fixed outlet and 'unknown' for everything else.
   */
  function LoadMetadata(session: Session, resId: string, items: seq<CoverageItem>): (r: Reply)
    ensures r.status == "Success" <==> session.Connected? && ParseCoverage(items).Ok?
    ensures r.status != "Success" ==> r.status == "Error" && r.result.Message?
    ensures session.NotConnected? ==> r.result == Message(session.error)
    ensures session.Connected? && ParseCoverage(items).Err? ==> r.result == Message(LoadFailure)
    ensures r.status == "Success" ==> r.result.Found? && r.result.metadata.resId == resId
    ensures r.status == "Success" ==>
              var m := r.result.metadata;
              && m.outletX == "-109.9" && m.outletY == "43.3"
              && m.outletPoint == Unknown && m.cellXSize == Unknown && m.cellYSize == Unknown && m.epsgCode == Unknown
  {
    if session.NotConnected? then Reply("Error", Message(session.error))
    else
      match ParseCoverage(items)
      case Err(e) =>
        ReadFailsIff(NoFields, AllParts(items));
        Reply("Error", Message(LoadFailurePrefix + e.message))
      case Ok(f) =>
        Reply("Success", Found(Metadata(resId, f.north, f.south, f.east, f.west, "-109.9", "43.3", "unknown",
                                        f.start, f.end, "unknown", "unknown", "unknown")))
  }

  const LoadFailurePrefix := "Failed to retrieve the model instance resource metadata. "

  /** The message of a coverage part that raises. */
  const LoadFailure := LoadFailurePrefix + "list index out of range"

  /** The field of the reply's metadata that carries coverage field `k`. */
  function Reported(m: Metadata, k: FieldKey): string {
    match k
    case North => m.northLat
    case South => m.southLat
    case East => m.eastLon
    case West => m.westLon
    case Start => m.startTime
    case End => m.endTime
  }

  /** The reply reports an error for a connected session exactly when some coverage part sets a field but has no `=`. */
  lemma LoadFailsIff(resId: string, items: seq<CoverageItem>)
    ensures LoadMetadata(Connected, resId, items).status == "Error"
            <==> exists j :: 0 <= j < |AllParts(items)| && Broken(AllParts(items)[j])
  {
    var r := LoadMetadata(Connected, resId, items);
    assert r.status == "Error" <==> ParseCoverage(items).Err?;
    assert ParseCoverage(items) == Read(NoFields, AllParts(items));
    ReadFailsIff(NoFields, AllParts(items));
  }

  /** In a successful reply each coverage field is the value of the last part setting it, and 'unknown' if none does. */
  lemma LoadFieldValues(resId: string, items: seq<CoverageItem>, k: FieldKey)
    requires LoadMetadata(Connected, resId, items).status == "Success"
    ensures var parts := AllParts(items);
            var i := LastSetting(parts, k);
            var v := Reported(LoadMetadata(Connected, resId, items).result.metadata, k);
            && (i >= 0 ==> Extract(parts[i]) == Some(v))
            && (i < 0 ==> v == Unknown)
  {
    ReadLastWins(NoFields, AllParts(items), k);
  }
}
