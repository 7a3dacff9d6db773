/**
 The data-service operations of the HydroDS client. Each validates its
 arguments in the order the client does, raising at the first failure,
 and otherwise builds the request it sends: the service endpoint (a name
 under the data-service base URL) and the query parameters. `Perform`
 then sends it and classifies the reply.
 */
module Operations {

  import opened Errors
  import opened Text
  import opened PyValues
  import opened Validation
  import opened Responses
  import opened Dates

  /**
   A GET request to the data service: the service name (None for a
   request with no URL at all) and the query parameters in the order the
   client's payload dictionary holds them.
   */
  datatype Request = Request(service: Option<string>, params: seq<(string, PyValue)>)

  /** The file-name check every operation runs on its output names. */
  function NameCheck(name: string, ext: string, message: string): (c: Check)
    ensures c.Pass? <==> FileNameValid(name, ext)
    ensures c.Fail? ==> c.error == ArgumentError(name + message)
  {
    Need(FileNameValid(name, ext), ArgumentError(name + message))
  }

  /** `isinstance(v, int)` for a named argument, raising the client's message. */
  function IntCheck(v: PyValue, message: string): (c: Check)
    ensures c.Pass? <==> IsInt(v)
    ensures c.Fail? ==> c.error == ArgumentError(message)
  {
    Need(IsInt(v), ArgumentError(message))
  }

  // ---------------------------------------------------------------------
  // Choosing the projection
  // ---------------------------------------------------------------------

  /** The presence checks on `utm_zone` and `epsg_code`: at least one is given, and not both are truthy. */
  function ProjectionPresent(utmZone: PyValue, epsgCode: PyValue): (c: Check)
    ensures c.Pass? <==> !(utmZone.PyNone? && epsgCode.PyNone?) && !(Truthy(utmZone) && Truthy(epsgCode))
    ensures c.Fail? ==> c.error.ArgumentError?
  {
    if utmZone.PyNone? && epsgCode.PyNone? then
      Fail(ArgumentError("A value for either utm_zone or epsg_code is required"))
    else if Truthy(utmZone) && Truthy(epsgCode) then
      Fail(ArgumentError("A value for either utm_zone or epsg_code is needed and not both"))
    else Pass
  }

  /**
   The endpoint choice: a truthy `utm_zone` must be an int and selects the
   UTM service, then a truthy `epsg_code` must be an int and selects the
   EPSG service; each adds its own parameter. With neither truthy (a zone
   or code of 0, say) no service is selected and the URL stays None.
   */
  function ProjectionChoice(utmZone: PyValue, epsgCode: PyValue, utmService: string, epsgService: string)
    : (r: Result<(Option<string>, seq<(string, PyValue)>)>)
    ensures r.Ok? <==> (Truthy(utmZone) ==> IsInt(utmZone)) && (Truthy(epsgCode) ==> IsInt(epsgCode))
    ensures r.Ok? ==> (r.value.0.None? <==> !Truthy(utmZone) && !Truthy(epsgCode))
    ensures r.Ok? && Truthy(epsgCode) ==> r.value.0 == Some(epsgService)
    ensures r.Ok? && Truthy(utmZone) && !Truthy(epsgCode) ==> r.value.0 == Some(utmService)
    ensures r.Ok? ==> r.value.1 == (if Truthy(utmZone) then [("utm_zone", utmZone)] else [])
                                   + (if Truthy(epsgCode) then [("epsg_code", epsgCode)] else [])
    ensures r.Err? ==> r.error.ArgumentError?
  {
    if Truthy(utmZone) && !IsInt(utmZone) then Err(ArgumentError("utm_zone value must be an integer"))
    else if Truthy(epsgCode) && !IsInt(epsgCode) then Err(ArgumentError("epsg_code value must be an integer"))
    else
      var (url1, extra1) := if Truthy(utmZone) then (Some(utmService), [("utm_zone", utmZone)]) else (None, []);
      if Truthy(epsgCode) then Ok((Some(epsgService), extra1 + [("epsg_code", epsgCode)]))
      else Ok((url1, extra1))
  }

  /** Once the presence checks pass and some projection is truthy, exactly one projection parameter is sent, with its own service. */
  lemma ProjectionExactlyOne(utmZone: PyValue, epsgCode: PyValue, utmService: string, epsgService: string)
    requires ProjectionPresent(utmZone, epsgCode).Pass?
    requires Truthy(utmZone) || Truthy(epsgCode)
    requires ProjectionChoice(utmZone, epsgCode, utmService, epsgService).Ok?
    ensures var (url, extra) := ProjectionChoice(utmZone, epsgCode, utmService, epsgService).value;
            || (url == Some(utmService) && extra == [("utm_zone", utmZone)])
            || (url == Some(epsgService) && extra == [("epsg_code", epsgCode)])
  {
  }

  /** A zero zone and no EPSG code pass every check, yet select no service. */
  lemma ZeroZoneSelectsNoService(utmService: string, epsgService: string)
    ensures ProjectionPresent(PyInt(0), PyNone).Pass?
    ensures ProjectionChoice(PyInt(0), PyNone, utmService, epsgService) == Ok((None, []))
  {
  }

  // ---------------------------------------------------------------------
  // Operations
  // ---------------------------------------------------------------------

  /**
   `subset_raster(left, top, right, bottom, input_raster, output_raster, save_as)`:
   the save-as path, the output name (`.tif`) and the float-only bounding
   box are checked, then the box is sent as xmin/ymin/xmax/ymax.
   */
  function SubsetRaster(left: PyValue, top: PyValue, right: PyValue, bottom: PyValue,
                        inputRaster: string, outputRaster: string, saveAs: string, fs: FileSystem): (r: Result<Request>)
    ensures r.Ok? <==>
              && CheckSaveAs(saveAs, fs).Pass?
              && FileNameValid(outputRaster, ".tif")
              && IsFloat(left) && IsFloat(top) && IsFloat(right) && IsFloat(bottom)
    ensures r.Ok? ==> r.value == Request(Some("subsetrastertobbox"),
                                         [("xmin", left), ("ymin", bottom), ("xmax", right), ("ymax", top),
                                          ("input_raster", PyStr(inputRaster)), ("output_raster", PyStr(outputRaster))])
    ensures r.Err? ==> r.error.ArgumentError?
  {
    var saved := CheckSaveAs(saveAs, fs);
    :- saved;
    :- NameCheck(outputRaster, ".tif", " is not a valid raster file name.");
    :- ValidateBoundaryBox(bottom, left, right, top);
    Ok(Request(Some("subsetrastertobbox"),
               [("xmin", left), ("ymin", bottom), ("xmax", right), ("ymax", top),
                ("input_raster", PyStr(inputRaster)), ("output_raster", PyStr(outputRaster))]))
  }

  /** A bounding box with any integer coordinate is refused, even one that is numerically a valid coordinate. */
  lemma SubsetRasterRefusesIntegerCoordinate(left: PyValue, top: PyValue, right: PyValue, bottom: PyValue,
                                              inputRaster: string, outputRaster: string, saveAs: string, fs: FileSystem)
    requires IsInt(left) || IsInt(top) || IsInt(right) || IsInt(bottom)
    ensures SubsetRaster(left, top, right, bottom, inputRaster, outputRaster, saveAs, fs).Err?
  {
  }

  /**
   `get_daymet_mosaic(start_year, end_year, save_as)`. With a save-as path
   the call returns None once the path is valid (the validation returns
   nothing, which the client takes as a failure). Otherwise both years
   must convert with `int()`; they are then sent as given, in increasing
   order under Python 2's `>`, which puts every text after every number.
   */
  function DaymetMosaic(startYear: PyValue, endYear: PyValue, saveAs: string, fs: FileSystem): (r: Result<Option<Request>>)
    ensures saveAs != "" ==> (r == Ok(None) <==> ValidateSaveAs(saveAs, "", fs).Pass?)
    ensures saveAs != "" ==> r.Err? || r == Ok(None)
    ensures saveAs == "" && ToInt(startYear) != Converted ==>
              r == Err(GenericError("Error:Invalid start year. Year must be an integer value."))
    ensures saveAs == "" && ToInt(startYear) == Converted && ToInt(endYear) != Converted ==>
              r == Err(GenericError("Error:Invalid end year. Year must be an integer value."))
    ensures saveAs == "" && ToInt(startYear) == Converted && ToInt(endYear) == Converted ==> r.Ok? && r.value.Some?
    ensures r.Ok? && r.value.Some? ==>
              var p := r.value.value.params;
              && r.value.value.service == Some("downloaddaymetmosaic")
              && |p| == 2 && p[0].0 == "startyear" && p[1].0 == "endyear"
              && multiset{p[0].1, p[1].1} == multiset{startYear, endYear}
              && !Greater(p[0].1, p[1].1)
              && (IsNumber(startYear) && IsNumber(endYear) ==> Num(p[0].1) <= Num(p[1].1))
  {
    if saveAs != "" then
      match ValidateSaveAs(saveAs, "", fs)
      case Fail(e) => Err(e)
      case Pass => Ok(None)
    else if ToInt(startYear) != Converted then
      Err(GenericError("Error:Invalid start year. Year must be an integer value."))
    else if ToInt(endYear) != Converted then
      Err(GenericError("Error:Invalid end year. Year must be an integer value."))
    else
      var later := Greater(endYear, startYear);
      GreaterAsymmetric(endYear, startYear);
      var (first, last) := if later then (startYear, endYear) else (endYear, startYear);
      Ok(Some(Request(Some("downloaddaymetmosaic"), [("startyear", first), ("endyear", last)])))
  }

  /**
   A year given as a number and one given as text are both accepted, and
   the number is always sent as the start year, whatever the two values:
   Python 2 ranks every text above every number.
   */
  lemma DaymetMixedYearsNumberFirst(number: PyValue, text: PyValue, numberFirst: bool, fs: FileSystem)
    requires IsNumber(number) && text.PyStr? && IntLiteral(text.s)
    ensures var r := if numberFirst then DaymetMosaic(number, text, "", fs) else DaymetMosaic(text, number, "", fs);
            r == Ok(Some(Request(Some("downloaddaymetmosaic"), [("startyear", number), ("endyear", text)])))
  {
  }

  /**
   `subset_netcdf_by_time(input_netcdf_url_path, time_dimension_name,
   start_date, end_date, output_netcdf, save_as)`: both dates must parse
   as `mm/dd/yyyy`, the start must not be after the end, and the output
   name must end in `.nc`. The time indices sent are the start date's day
   of the month and that day plus the number of days to the end date.
   */
  function SubsetNetcdfByTime(inputNetcdf: string, timeDimension: string, startDate: string, endDate: string,
                              outputNetcdf: string, saveAs: string, fs: FileSystem): (r: Result<Request>)
    ensures r.Ok? <==>
              && CheckSaveAs(saveAs, fs).Pass?
              && ParseDate(startDate).Some? && ParseDate(endDate).Some?
              && !Earlier(ParseDate(endDate).value, ParseDate(startDate).value)
              && FileNameValid(outputNetcdf, ".nc")
    ensures r.Ok? ==>
              var s := ParseDate(startDate).value;
              var e := ParseDate(endDate).value;
              r.value == NetcdfRequest(inputNetcdf, timeDimension, s.day, s.day + (Ordinal(e) - Ordinal(s)), outputNetcdf)
    ensures r.Err? ==> r.error.ArgumentError?
  {
    var saved := CheckSaveAs(saveAs, fs);
    var start := ParseDate(startDate);
    var end := ParseDate(endDate);
    if saved.Fail? then Err(saved.error)
    else if start.None? then Err(ArgumentError("start_date must be a string in the format of 'mm/dd/yyyy'"))
    else if end.None? then Err(ArgumentError("end_date must be a string in the format of 'mm/dd/yyyy'"))
    else if Earlier(end.value, start.value) then Err(ArgumentError("start_date must be a date before the end_date"))
    else NetcdfIndices(inputNetcdf, timeDimension, start.value, end.value, outputNetcdf)
  }

  /** The last steps of `subset_netcdf_by_time`, once the dates are read: the indices, then the output name. */
  function NetcdfIndices(inputNetcdf: string, timeDimension: string, start: Date, end: Date, outputNetcdf: string)
    : (r: Result<Request>)
    requires ValidDate(start) && ValidDate(end)
    ensures r.Ok? <==> FileNameValid(outputNetcdf, ".nc")
    ensures r.Ok? ==> r.value == NetcdfRequest(inputNetcdf, timeDimension, start.day,
                                               start.day + (Ordinal(end) - Ordinal(start)), outputNetcdf)
    ensures r.Err? ==> r.error.ArgumentError?
  {
    var startIndex := start.day;
    var endIndex := start.day + (Ordinal(end) - Ordinal(start));
    :- NameCheck(outputNetcdf, ".nc", " is not a valid NetCDF file name.");
    Ok(NetcdfRequest(inputNetcdf, timeDimension, startIndex, endIndex, outputNetcdf))
  }

  function NetcdfRequest(inputNetcdf: string, timeDimension: string, startIndex: int, endIndex: int,
                         outputNetcdf: string): Request
  {
    Request(Some("subsetnetcdfbytime"),
            [("input_netcdf", PyStr(inputNetcdf)), ("time_dim_name", PyStr(timeDimension)),
             ("start_time_index", PyInt(startIndex)), ("end_time_index", PyInt(endIndex)),
             ("output_netcdf", PyStr(outputNetcdf))])
  }

  /**
   For any accepted range, the start index is a day of the month and the
   end index is never below it: it exceeds the start index by exactly the
   number of days from start to end, so a one-day range gives equal
   indices.
   */
  lemma NetcdfIndicesOrdered(inputNetcdf: string, timeDimension: string, startDate: string, endDate: string,
                             outputNetcdf: string, saveAs: string, fs: FileSystem)
    requires SubsetNetcdfByTime(inputNetcdf, timeDimension, startDate, endDate, outputNetcdf, saveAs, fs).Ok?
    ensures var p := SubsetNetcdfByTime(inputNetcdf, timeDimension, startDate, endDate, outputNetcdf, saveAs, fs).value.params;
            && 1 <= p[2].1.i <= 31
            && p[3].1.i >= p[2].1.i
            && (startDate == endDate ==> p[3].1.i == p[2].1.i)
  {
    var s := ParseDate(startDate).value;
    var e := ParseDate(endDate).value;
    OrdinalOrder(s, e);
  }

  /** Dates written out in full are read back as written: the indices are the start day and the start day plus the days between. */
  lemma NetcdfFormattedDates(inputNetcdf: string, timeDimension: string, s: Date, e: Date, outputNetcdf: string)
    requires ValidDate(s) && ValidDate(e) && !Earlier(e, s)
    requires FileNameValid(outputNetcdf, ".nc")
    ensures SubsetNetcdfByTime(inputNetcdf, timeDimension, Format(s), Format(e), outputNetcdf, "", FileSystem({}, {}))
            == Ok(NetcdfRequest(inputNetcdf, timeDimension, s.day, s.day + (Ordinal(e) - Ordinal(s)), outputNetcdf))
  {
    ParseFormat(s);
    ParseFormat(e);
    FormattedRequest(inputNetcdf, timeDimension, Format(s), Format(e), s, e, outputNetcdf);
  }

  lemma FormattedRequest(inputNetcdf: string, timeDimension: string, startDate: string, endDate: string,
                         s: Date, e: Date, outputNetcdf: string)
    requires ValidDate(s) && ValidDate(e) && !Earlier(e, s)
    requires ParseDate(startDate) == Some(s) && ParseDate(endDate) == Some(e)
    requires FileNameValid(outputNetcdf, ".nc")
    ensures SubsetNetcdfByTime(inputNetcdf, timeDimension, startDate, endDate, outputNetcdf, "", FileSystem({}, {}))
            == Ok(NetcdfRequest(inputNetcdf, timeDimension, s.day, s.day + (Ordinal(e) - Ordinal(s)), outputNetcdf))
  {
    var fs := FileSystem({}, {});
    assert CheckSaveAs("", fs).Pass?;
    var r := SubsetNetcdfByTime(inputNetcdf, timeDimension, startDate, endDate, outputNetcdf, "", fs);
    assert r.Ok?;
    assert ParseDate(startDate).value == s && ParseDate(endDate).value == e;
  }

  /**
   `project_shapefile(input_shapefile_url_path, output_shape_file,
   utm_zone, epsg_code, save_as)`: the save-as path, the presence of a
   projection, the output name (`.shp`), then the endpoint choice.
   */
  function ProjectShapefile(inputShapefile: string, outputShapefile: string, utmZone: PyValue, epsgCode: PyValue,
                            saveAs: string, fs: FileSystem): (r: Result<Request>)
    ensures r.Ok? <==>
              && CheckSaveAs(saveAs, fs).Pass?
              && ProjectionPresent(utmZone, epsgCode).Pass?
              && FileNameValid(outputShapefile, ".shp")
              && ProjectionChoice(utmZone, epsgCode, "projectshapefileutm", "projectshapefileepsg").Ok?
    ensures r.Ok? ==>
              var (url, extra) := ProjectionChoice(utmZone, epsgCode, "projectshapefileutm", "projectshapefileepsg").value;
              r.value == Request(url, [("input_shape_file", PyStr(inputShapefile)), ("output_shape_file", PyStr(outputShapefile))] + extra)
    ensures r.Err? ==> r.error.ArgumentError?
  {
    var saved := CheckSaveAs(saveAs, fs);
    :- saved;
    :- ProjectionPresent(utmZone, epsgCode);
    :- NameCheck(outputShapefile, ".shp", " is not a valid shapefile name.");
    var (url, extra) :- ProjectionChoice(utmZone, epsgCode, "projectshapefileutm", "projectshapefileepsg");
    Ok(Request(url, [("input_shape_file", PyStr(inputShapefile)), ("output_shape_file", PyStr(outputShapefile))] + extra))
  }

  /**
   `create_outlet_shapefile(point_x, point_y, output_shape_file_name, save_as)`:
   only the save-as path and the output name (`.shp`) are checked; the
   point coordinates are sent as given, whatever their type.
   */
  function CreateOutletShapefile(pointX: PyValue, pointY: PyValue, outputShapefile: string,
                                 saveAs: string, fs: FileSystem): (r: Result<Request>)
    ensures r.Ok? <==> CheckSaveAs(saveAs, fs).Pass? && FileNameValid(outputShapefile, ".shp")
    ensures r.Ok? ==> r.value == Request(Some("createoutletshapefile"),
                                         [("outletPointX", pointX), ("outletPointY", pointY),
                                          ("output_shape_file_name", PyStr(outputShapefile))])
    ensures r.Err? ==> r.error.ArgumentError?
  {
    var saved := CheckSaveAs(saveAs, fs);
    :- saved;
    :- NameCheck(outputShapefile, ".shp", " is not a valid shapefile name.");
    Ok(Request(Some("createoutletshapefile"),
               [("outletPointX", pointX), ("outletPointY", pointY), ("output_shape_file_name", PyStr(outputShapefile))]))
  }

  /** The point coordinates of an outlet play no part in whether `create_outlet_shapefile` is accepted. */
  lemma OutletPointUnchecked(x1: PyValue, y1: PyValue, x2: PyValue, y2: PyValue, outputShapefile: string,
                             saveAs: string, fs: FileSystem)
    ensures CreateOutletShapefile(x1, y1, outputShapefile, saveAs, fs).Ok?
        <==> CreateOutletShapefile(x2, y2, outputShapefile, saveAs, fs).Ok?
  {
  }

  /** An outlet coordinate: present, and `float()` accepts it; a `ValueError` from `float()` escapes as it is. */
  function OutletValue(v: PyValue, missing: string): (c: Check)
    ensures c.Pass? <==> ToFloat(v) == Converted
    ensures v.PyNone? ==> c == Fail(ArgumentError(missing))
    ensures ToFloat(v) == RaisesValueError ==> c.Fail? && c.error.ValueError?
  {
    if v.PyNone? then Fail(ArgumentError(missing))
    else if ToFloat(v) == RaisesValueError then Fail(ValueError("could not convert string to float"))
    else Pass
  }

  /** The outlet checks of `delineate_watershed` when no outlet shapefile is given: x, then y, then the EPSG code. */
  function OutletChecks(pointX: PyValue, pointY: PyValue, epsgCode: PyValue): (c: Check)
    ensures c.Pass? <==> ToFloat(pointX) == Converted && ToFloat(pointY) == Converted && ToInt(epsgCode) == Converted
    ensures pointX.PyNone? ==> c == Fail(ArgumentError("A value for outlet_point_x is missing"))
  {
    var x := OutletValue(pointX, "A value for outlet_point_x is missing");
    var y := OutletValue(pointY, "A value for outlet_point_y is missing");
    if x.Fail? then x
    else if y.Fail? then y
    else if epsgCode.PyNone? then Fail(ArgumentError("A value for epsg_code is missing"))
    else if ToInt(epsgCode) == RaisesValueError then Fail(ValueError("invalid literal for int() with base 10"))
    else Pass
  }

  /** `int(threshold)`: a `TypeError` becomes an argument exception, a `ValueError` escapes. */
  function ThresholdCheck(threshold: PyValue): (c: Check)
    ensures c.Pass? <==> ToInt(threshold) == Converted
    ensures threshold.PyNone? ==> c == Fail(ArgumentError("A value for threshold must be an integer number"))
    ensures ToInt(threshold) == RaisesValueError ==> c.Fail? && c.error.ValueError?
  {
    match ToInt(threshold)
    case RaisesTypeError => Fail(ArgumentError("A value for threshold must be an integer number"))
    case RaisesValueError => Fail(ValueError("invalid literal for int() with base 10"))
    case Converted => Pass
  }

  /**
   `delineate_watershed(input_raster_url_path, threshold, output_raster,
   output_outlet_shapefile, epsg_code, outlet_point_x, outlet_point_y,
   input_outlet_shapefile_url_path, save_as)`. The threshold must convert
   with `int()`. Without an outlet shapefile (None), the outlet point and
   EPSG code must be given and convert. A truthy shapefile path selects
   delineation at the shapefile, anything else delineation at the point.
   */
  function DelineateWatershed(inputRaster: string, threshold: PyValue, outputRaster: string, outputOutlet: string,
                              epsgCode: PyValue, pointX: PyValue, pointY: PyValue, outletShapefile: Option<string>,
                              saveAs: string, fs: FileSystem): (r: Result<Request>)
    ensures r.Ok? <==>
              && CheckSaveAs(saveAs, fs).Pass?
              && FileNameValid(outputRaster, ".tif")
              && FileNameValid(outputOutlet, ".shp")
              && ToInt(threshold) == Converted
              && (outletShapefile.None? ==> OutletChecks(pointX, pointY, epsgCode).Pass?)
    ensures r.Ok? && outletShapefile.Some? && outletShapefile.value != "" ==>
              r.value == AtShapeRequest(inputRaster, threshold, outletShapefile.value, outputRaster, outputOutlet)
    ensures r.Ok? && (outletShapefile.None? || outletShapefile.value == "") ==>
              r.value == AtPointRequest(inputRaster, threshold, epsgCode, pointX, pointY, outputRaster, outputOutlet)
  {
    var saved := CheckSaveAs(saveAs, fs);
    :- saved;
    :- NameCheck(outputRaster, ".tif", " is not a valid raster file name");
    :- NameCheck(outputOutlet, ".shp", " is not a valid shapefile name");
    :- ThresholdCheck(threshold);
    :- if outletShapefile.None? then OutletChecks(pointX, pointY, epsgCode) else Pass;
    if outletShapefile.Some? && outletShapefile.value != "" then
      Ok(AtShapeRequest(inputRaster, threshold, outletShapefile.value, outputRaster, outputOutlet))
    else
      Ok(AtPointRequest(inputRaster, threshold, epsgCode, pointX, pointY, outputRaster, outputOutlet))
  }

  function AtShapeRequest(inputRaster: string, threshold: PyValue, shapefile: string, outputRaster: string,
                          outputOutlet: string): Request
  {
    Request(Some("delineatewatershedatshape"),
            [("stream_threshold", threshold), ("input_DEM_raster", PyStr(inputRaster)),
             ("input_outlet_shapefile", PyStr(shapefile)),
             ("output_raster", PyStr(outputRaster)), ("output_outlet_shapefile", PyStr(outputOutlet))])
  }

  function AtPointRequest(inputRaster: string, threshold: PyValue, epsgCode: PyValue, pointX: PyValue, pointY: PyValue,
                          outputRaster: string, outputOutlet: string): Request
  {
    Request(Some("delineatewatershedatxy"),
            [("epsg_code", epsgCode), ("stream_threshold", threshold), ("outlet_point_x", pointX),
             ("outlet_point_y", pointY), ("input_DEM_raster", PyStr(inputRaster)),
             ("output_raster", PyStr(outputRaster)), ("output_outlet_shapefile", PyStr(outputOutlet))])
  }

  /** With an outlet shapefile, the outlet point and EPSG code play no part: neither checked nor sent. */
  lemma DelineateAtShapeIgnoresPoint(inputRaster: string, threshold: PyValue, outputRaster: string, outputOutlet: string,
                                     e1: PyValue, x1: PyValue, y1: PyValue, e2: PyValue, x2: PyValue, y2: PyValue,
                                     shapefile: string, saveAs: string, fs: FileSystem)
    requires shapefile != ""
    ensures DelineateWatershed(inputRaster, threshold, outputRaster, outputOutlet, e1, x1, y1, Some(shapefile), saveAs, fs)
         == DelineateWatershed(inputRaster, threshold, outputRaster, outputOutlet, e2, x2, y2, Some(shapefile), saveAs, fs)
  {
  }

  /**
   An empty outlet-shapefile path is not None, so the outlet checks are
   skipped, yet it is falsy, so delineation at the point is requested
   with whatever point was given, a missing one included.
   */
  lemma EmptyShapefilePathSkipsOutletChecks(inputRaster: string, threshold: PyValue, outputRaster: string,
                                            outputOutlet: string, saveAs: string, fs: FileSystem)
    requires CheckSaveAs(saveAs, fs).Pass? && FileNameValid(outputRaster, ".tif") && FileNameValid(outputOutlet, ".shp")
    requires ToInt(threshold) == Converted
    ensures DelineateWatershed(inputRaster, threshold, outputRaster, outputOutlet, PyNone, PyNone, PyNone, Some(""), saveAs, fs)
            == Ok(AtPointRequest(inputRaster, threshold, PyNone, PyNone, PyNone, outputRaster, outputOutlet))
  {
  }

  /**
   `resample_raster(input_raster_url_path, cell_size_dx, cell_size_dy,
   output_raster, resample, save_as)`: the save-as path, the output name
   (`.tif`), integer cell sizes, then the resampling method, which is sent
   in lower case.
   */
  function ResampleRaster(inputRaster: string, dx: PyValue, dy: PyValue, outputRaster: string, resample: string,
                          saveAs: string, fs: FileSystem): (r: Result<Request>)
    ensures r.Ok? <==>
              && CheckSaveAs(saveAs, fs).Pass?
              && FileNameValid(outputRaster, ".tif")
              && IsInt(dx) && IsInt(dy)
              && Lower(resample) in ResampleMethods
    ensures r.Ok? ==> r.value == Request(Some("resampleraster"),
                                         [("input_raster", PyStr(inputRaster)), ("dx", dx), ("dy", dy),
                                          ("resample", PyStr(Lower(resample))), ("output_raster", PyStr(outputRaster))])
    ensures r.Err? ==> r.error.ArgumentError? || r.error == KeyError("rsample")
  {
    var saved := CheckSaveAs(saveAs, fs);
    :- saved;
    :- NameCheck(outputRaster, ".tif", " is not a valid raster file name");
    :- IntCheck(dx, "cell_size_dx must be an integer value");
    :- IntCheck(dy, "cell_size_dy must be an integer value");
    var gdal :- ResampleChoice(resample);
    Ok(Request(Some("resampleraster"),
               [("input_raster", PyStr(inputRaster)), ("dx", dx), ("dy", dy),
                ("resample", PyStr(gdal)), ("output_raster", PyStr(outputRaster))]))
  }

  /** The letter case of the resampling method does not change what `resample_raster` does. */
  lemma ResampleRasterCaseInsensitive(inputRaster: string, dx: PyValue, dy: PyValue, outputRaster: string,
                                      resample: string, saveAs: string, fs: FileSystem)
    ensures ResampleRaster(inputRaster, dx, dy, outputRaster, Lower(resample), saveAs, fs)
         == ResampleRaster(inputRaster, dx, dy, outputRaster, resample, saveAs, fs)
  {
    ResampleCaseInsensitive(resample);
    LowerIdempotent(resample);
  }

  /**
   `project_resample_raster(input_raster_url_path, cell_size_dx,
   cell_size_dy, output_raster, utm_zone, epsg_code, resample, save_as)`:
   the save-as path, the presence of a projection, the output name
   (`.tif`), integer cell sizes, the resampling method, then the endpoint
   choice.
   */
  function ProjectResampleRaster(inputRaster: string, dx: PyValue, dy: PyValue, outputRaster: string,
                                 utmZone: PyValue, epsgCode: PyValue, resample: string,
                                 saveAs: string, fs: FileSystem): (r: Result<Request>)
    ensures r.Ok? <==>
              && CheckSaveAs(saveAs, fs).Pass?
              && ProjectionPresent(utmZone, epsgCode).Pass?
              && FileNameValid(outputRaster, ".tif")
              && IsInt(dx) && IsInt(dy)
              && Lower(resample) in ResampleMethods
              && ProjectionChoice(utmZone, epsgCode, "projectresamplerasterutm", "projectresamplerasterepsg").Ok?
    ensures r.Ok? ==>
              var (url, extra) := ProjectionChoice(utmZone, epsgCode, "projectresamplerasterutm", "projectresamplerasterepsg").value;
              r.value == Request(url, [("input_raster", PyStr(inputRaster)), ("dx", dx), ("dy", dy),
                                       ("output_raster", PyStr(outputRaster)), ("resample", PyStr(Lower(resample)))] + extra)
    ensures r.Err? ==> r.error.ArgumentError? || r.error == KeyError("rsample")
  {
    var saved := CheckSaveAs(saveAs, fs);
    :- saved;
    :- ProjectionPresent(utmZone, epsgCode);
    :- NameCheck(outputRaster, ".tif", " is not a valid raster file name.");
    :- IntCheck(dx, "cell_size_dx value must be an integer");
    :- IntCheck(dy, "cell_size_dy value must be an integer");
    var gdal :- ResampleChoice(resample);
    var (url, extra) :- ProjectionChoice(utmZone, epsgCode, "projectresamplerasterutm", "projectresamplerasterepsg");
    Ok(Request(url, [("input_raster", PyStr(inputRaster)), ("dx", dx), ("dy", dy),
                     ("output_raster", PyStr(outputRaster)), ("resample", PyStr(gdal))] + extra))
  }

  /**
   `subset_project_resample_raster(input_raster, left, top, right, bottom,
   cell_size_dx, cell_size_dy, output_raster, resample, epsg_code, save_as)`:
   the save-as path, the output name (`.tif`), the float-only bounding box,
   integer cell sizes, the resampling method; a truthy EPSG code must be an
   int and selects the EPSG service, otherwise the UTM service is used.
   */
  function SubsetProjectResampleRaster(inputRaster: string, left: PyValue, top: PyValue, right: PyValue, bottom: PyValue,
                                       dx: PyValue, dy: PyValue, outputRaster: string, resample: string,
                                       epsgCode: PyValue, saveAs: string, fs: FileSystem): (r: Result<Request>)
    ensures r.Ok? <==>
              && CheckSaveAs(saveAs, fs).Pass?
              && FileNameValid(outputRaster, ".tif")
              && IsFloat(left) && IsFloat(top) && IsFloat(right) && IsFloat(bottom)
              && IsInt(dx) && IsInt(dy)
              && Lower(resample) in ResampleMethods
              && (Truthy(epsgCode) ==> IsInt(epsgCode))
    ensures r.Ok? ==>
              var base := SubsetProjectParams(inputRaster, left, top, right, bottom, dx, dy, outputRaster, Lower(resample));
              r.value == if Truthy(epsgCode)
                         then Request(Some("subsetprojectresamplerasterepsg"), base + [("epsg_code", epsgCode)])
                         else Request(Some("subsetprojectresamplerasterutm"), base)
    ensures r.Err? ==> r.error.ArgumentError? || r.error == KeyError("rsample")
  {
    var saved := CheckSaveAs(saveAs, fs);
    :- saved;
    :- NameCheck(outputRaster, ".tif", " is not a valid raster file name.");
    :- ValidateBoundaryBox(bottom, left, right, top);
    :- IntCheck(dx, "cell_size_dx value must be an integer");
    :- IntCheck(dy, "cell_size_dy value must be an integer");
    var gdal :- ResampleChoice(resample);
    var base := SubsetProjectParams(inputRaster, left, top, right, bottom, dx, dy, outputRaster, gdal);
    if Truthy(epsgCode) then
      :- IntCheck(epsgCode, "epsg_code value must be an integer");
      Ok(Request(Some("subsetprojectresamplerasterepsg"), base + [("epsg_code", epsgCode)]))
    else
      Ok(Request(Some("subsetprojectresamplerasterutm"), base))
  }

  function SubsetProjectParams(inputRaster: string, left: PyValue, top: PyValue, right: PyValue, bottom: PyValue,
                               dx: PyValue, dy: PyValue, outputRaster: string, gdal: string): seq<(string, PyValue)>
  {
    [("input_raster", PyStr(inputRaster)), ("xmin", left), ("ymin", bottom), ("xmax", right), ("ymax", top),
     ("dx", dx), ("dy", dy), ("output_raster", PyStr(outputRaster)), ("resample", PyStr(gdal))]
  }

  /**
   `get_hydrogate_result_file(hg_file_url_path, save_as)`: the last path
   segment of the URL and the save-as name must both end in `.zip`; the
   segment and the save-as name are sent, and the reply is not downloaded.
   */
  function ResultFileRequest(hgFileUrl: string, saveAs: string): (r: Result<Request>)
    ensures r.Ok? <==> EndsWith(BaseName(hgFileUrl), ".zip") && EndsWith(saveAs, ".zip")
    ensures r.Ok? ==> r.value == Request(Some("hydrogate/resultfile"),
                                         [("result_file_name", PyStr(BaseName(hgFileUrl))),
                                          ("save_as_file_name", PyStr(saveAs))])
    ensures r.Err? ==> r.error.ArgumentError?
  {
    var name := LastField(hgFileUrl, '/');
    LastFieldAfterLastSep(hgFileUrl, '/');
    :- Need(EndsWith(name, ".zip"),
            ArgumentError("Invalid value for parameter hg_file_url_path. File name must end with .zip"));
    :- Need(EndsWith(saveAs, ".zip"),
            ArgumentError("Invalid value for parameter save_as. File name must end with .zip"));
    Ok(Request(Some("hydrogate/resultfile"), [("result_file_name", PyStr(name)), ("save_as_file_name", PyStr(saveAs))]))
  }

  /**
   Sending a built request and classifying the reply
   (`_make_data_service_request` with GET, then
   `_process_dataservice_response`). A request with no URL fails in the
   HTTP library before anything is sent.
   */
  function Perform(request: Result<Request>, response: Response, saveAs: string): (r: Result<Classified>)
    ensures request.Err? ==> r == Err(request.error)
    ensures request.Ok? && request.value.service.None? ==> r == Err(InvalidUrl)
    ensures request.Ok? && request.value.service.Some? ==> r == Classify(response, saveAs)
    ensures r.Ok? ==> request.Ok? && request.value.service.Some? && response.status == HttpOk && response.body.success
  {
    var req :- request;
    if req.service.None? then Err(InvalidUrl) else Classify(response, saveAs)
  }

  /** A shapefile projection with a zero UTM zone and no EPSG code is accepted by every check, and then fails for want of a URL. */
  lemma ZeroZoneShapefileHasNoUrl(inputShapefile: string, outputShapefile: string, response: Response)
    requires FileNameValid(outputShapefile, ".shp")
    ensures Perform(ProjectShapefile(inputShapefile, outputShapefile, PyInt(0), PyNone, "", FileSystem({}, {})), response, "")
            == Err(InvalidUrl)
  {
    ZeroZoneSelectsNoService("projectshapefileutm", "projectshapefileepsg");
  }
}
