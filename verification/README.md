# HydroDS client core, modelled in Dafny

This project models the client side of the HydroDS data services and the
HydroGate HPC gateway, as used by the UEB web application. It covers:

- the argument validation that every data-service operation runs before
  it builds a request: file names, resampling methods, the float-only
  bounding box, the save-as path, and the UTM/EPSG projection selectors;
- the requests those operations build: endpoint and query parameters,
  listed in the order the source writes them;
- how a data-service reply becomes a payload or one of the client's
  exceptions;
- HydroGate authentication: the token cache, the token lifetime, and the
  default HPC;
- package upload and job submission, with their status-polling loops;
- the request history (`_ServiceLog`, `ServiceRequest`): lookup, print
  selection, and persistence;
- the parser of the coverage metadata (bounding box and time period)
  behind the model-run page of the web application.

The client runs on Python 2, and the model follows Python 2's semantics
where they differ from Python 3: `>` between a number and a text does not
raise, `isinstance(v, int)` is false for a `long`, and exception texts are
Python 2's. The platform is taken to be 64-bit and POSIX: `sys.maxint` is
2**63 - 1, and `os.path` is `posixpath`.

Everything is functional. The client is an immutable record threaded
through each operation. Every remote party is a parameter:

- the HydroGate gateway is a set of canned replies;
- a status-polling loop reads a finite script of status replies;
- a data-service reply is a value;
- the local file system is the set of existing directories and the set of
  writable ones.

Operations report the requests they sent, so "nothing is sent" can be
stated and proved.

Modules (one file each):

| file | module | what it holds |
|---|---|---|
| errors.dfy | `Errors` | `Option`, the exception taxonomy `Error`, `Result`, `Check` |
| text.dfy | `Text` | the Python string primitives used: character classes, `lower`, `find`/`rfind`, `split`, `endswith` |
| pyvalues.dfy | `PyValues` | the Python values that reach type checks; truthiness, `isinstance`, `int()`/`float()`, `>` |
| dates.dfy | `Dates` | `strptime('%m/%d/%Y')`, date order, day ordinals and day differences |
| validation.dfy | `Validation` | `_is_file_name_valid`, `_validate_resample_input`, `_validate_boundary_box`, `_validate_file_save_as` |
| responses.dfy | `Responses` | `_process_dataservice_response`, `_raise_service_error`, `_make_data_service_request` |
| servicelog.dfy | `ServiceLog` | `_ServiceLog` and `ServiceRequest` |
| client.dfy | `Client` | client state, `_get_token`, `_get_token_expire_time`, `hydrogate_authenticate`, `set_default_hpc` |
| jobs.dfy | `Jobs` | `get_upload_status`, `get_job_status`, `upload_package`, `submit_job`, the polling loops |
| jobs_properties.dfy | `JobsProperties` | what the polling loops compute |
| operations.dfy | `Operations` | the data-service operations with argument rules |
| coverage.dfy | `Coverage` | the coverage parser and reply of `model_run_load_metadata` |

Where the code and its documentation disagree, the model follows the code:

- **Token refresh.** `_get_token` returns the cached token whenever one
  exists. So a lifetime of 0 reported for a cached token never leads to a
  new token request (`Client.ExpiredCachedTokenKept`).
- **`create_outlet_shapefile` leaves no log record.** Like every
  data-service operation, it goes through `_process_dataservice_response`,
  which writes nothing to the request history.
- **Coverage values.** `item.split('=')[1]` is the text between the first
  and the second `=`, not everything after the first `=`.
- **Rejected resampling methods.** The error message is formatted with a
  field name that is never supplied. A rejected method therefore raises a
  `KeyError` (`Errors.KeyError("rsample")`), not the argument exception
  the message was meant for.

Quirks that the model keeps as written, with lemmas that exhibit them:

- A UTM zone of 0 with no EPSG code passes every check but selects no
  endpoint, so the HTTP library is called without a URL
  (`Operations.ZeroZoneShapefileHasNoUrl`).
- An empty outlet-shapefile path skips the outlet checks but still
  requests delineation at the point
  (`Operations.EmptyShapefilePathSkipsOutletChecks`).
- `get_daymet_mosaic` with a valid save-as path returns None, because the
  validator returns nothing (`Operations.DaymetMosaic`).
- `get_daymet_mosaic` with one year given as a number and the other as a
  numeric text sends the number as the start year, whatever the values,
  because Python 2 ranks every text above every number
  (`Operations.DaymetMixedYearsNumberFirst`).

## Model

| member | source | states |
|---|---|---|
| Validation.SplitExt | tethysapp/ueb_app/hydrogate.py:2509 | `os.path.splitext` splits a path into two parts that concatenate back to it. The extension is empty, or a dot followed by no further dot or slash |
| Validation.FileNameValidIff | tethysapp/ueb_app/hydrogate.py:2507-2528 | A file name is accepted exactly when it is `name.ext`, the name `[A-Za-z][A-Za-z0-9_-]*`, the extension one or more letters and equal to the expected one when one is given; the check answers false, never raises |
| Validation.ValueFileNameIff | tethysapp/ueb_app/hydrogate.py:2507-2528 | On any Python value, `_is_file_name_valid` answers true exactly for a string of the valid shape; a value that is not a string makes `splitext` raise, which the bare `except` turns into false |
| Validation.PatternSplit | tethysapp/ueb_app/hydrogate.py:2509-2510 | A name of that shape is split by `splitext` exactly at its single dot |
| Validation.ValidateResample | tethysapp/ueb_app/hydrogate.py:2420-2424 | A method passes exactly when it is one of the twelve GDAL methods; otherwise the formatting of the message raises `KeyError` |
| Validation.ResampleChoice | tethysapp/ueb_app/hydrogate.py:1818-1819 | The method is accepted exactly when its lower-cased form is in the whitelist, and the lower-cased form is what is used; a rejection is a `KeyError`, not an argument exception |
| Validation.ResampleCaseInsensitive | tethysapp/ueb_app/hydrogate.py:1818-1819 | Lower-casing the method first changes nothing about the outcome |
| Validation.ValidateBoundaryBox | tethysapp/ueb_app/hydrogate.py:2426-2434 | Passes exactly when all four coordinates are Python floats; the first non-float in the order left, top, right, bottom gives the message raised |
| Validation.RStripSlash | tethysapp/ueb_app/hydrogate.py:2531 | The stripped text is a prefix, does not end in a slash, and only slashes were removed |
| Validation.DirName | tethysapp/ueb_app/hydrogate.py:2531 | `os.path.dirname` gives a prefix of the path, and the empty directory for a path without a slash |
| Validation.BaseName | tethysapp/ueb_app/hydrogate.py:2538 | `os.path.basename` gives a slash-free suffix of the path, the whole path when it has no slash |
| Validation.ValidateSaveAs | tethysapp/ueb_app/hydrogate.py:2530-2547 | The save-as path passes exactly when its directory exists and is writable, its base name is a valid file name and, when an extension is demanded, it has that extension; every failure is an argument exception |
| Validation.BareSaveAsRefused | tethysapp/ueb_app/hydrogate.py:2531-2533 | A save-as path without a directory part is always refused, the empty directory never existing |
| Validation.CheckSaveAs | tethysapp/ueb_app/hydrogate.py:1804-1805 | An absent save-as path is not validated; a given one is |
| Responses.StatusError | tethysapp/ueb_app/hydrogate.py:2450-2462 | Each non-200 status maps to its exception class (400, 401, 403, 404, 500), every other code to the generic HydroDS exception, with the reason and content in the message |
| Responses.ServiceFailure | tethysapp/ueb_app/hydrogate.py:2498-2499 | The server's error text is raised as a generic HydroDS exception prefixed with 'Error:' |
| Responses.Classify | tethysapp/ueb_app/hydrogate.py:2449-2474 | A reply yields its `data` exactly when the status is 200, `success` is true and, with a save-as path, `data` has one entry; that one URL is then downloaded to the path; more or fewer entries raise `ValueError` before any download |
| Responses.SaveAsOnlyAddsDownload | tethysapp/ueb_app/hydrogate.py:2463-2474 | A reply accepted with a save-as path is accepted without one, with the same data; the path only adds the download of the reply's one URL to it |
| Responses.SaveAsRefusesMore | tethysapp/ueb_app/hydrogate.py:2463-2474 | With a save-as path, a reply is accepted exactly when it would be without one and its `data` has exactly one entry |
| Responses.Dispatch | tethysapp/ueb_app/hydrogate.py:2436-2444 | Only GET, DELETE and POST are sent, each as itself; any other method raises |
| Responses.DispatchVerbName | tethysapp/ueb_app/hydrogate.py:2436-2444 | Dispatch inverts the verb names: each verb is dispatched from its own name, and a dispatched name is the name of the verb it gives |
| ServiceLog.Add | tethysapp/ueb_app/hydrogate.py:2569-2574 | A record is appended at the end and every earlier record keeps its place |
| ServiceLog.Save | tethysapp/ueb_app/hydrogate.py:2593-2599 | A non-empty log is stored whole; an empty one removes the file |
| ServiceLog.Load | tethysapp/ueb_app/hydrogate.py:2586-2591 | The stored log is loaded only into an empty in-memory log, and only when a file exists |
| ServiceLog.SaveIdempotent | tethysapp/ueb_app/hydrogate.py:2593-2599 | Saving the same log twice leaves the stored state as one save does |
| ServiceLog.DeleteAll | tethysapp/ueb_app/hydrogate.py:2580-2584 | Both the in-memory log and the file are emptied |
| ServiceLog.SaveLoadRoundTrip | tethysapp/ueb_app/hydrogate.py:2586-2599 | Saving and then loading into a fresh client gives back the saved log |
| ServiceLog.DeleteAllThenLoad | tethysapp/ueb_app/hydrogate.py:2580-2591 | After deleting all, loading gives nothing back |
| ServiceLog.NewestSelected | tethysapp/ueb_app/hydrogate.py:2633-2654 | The scan returns the newest record it keeps, and None only when it keeps none |
| ServiceLog.MostRecent | tethysapp/ueb_app/hydrogate.py:2626-2654 | None on an empty log; the last record without filters; otherwise the newest kept record |
| ServiceLog.SelectedIsMatches | tethysapp/ueb_app/hydrogate.py:2636-2649 | The scan keeps a record exactly when it matches the identifier name (and value, if given) when an identifier name is given, and the service name otherwise |
| ServiceLog.MostRecentIgnoresNameWithId | tethysapp/ueb_app/hydrogate.py:2636-2649 | Once an identifier name is given, the service name plays no part in the lookup |
| ServiceLog.AddThenMostRecent | tethysapp/ueb_app/hydrogate.py:2569-2631 | A record just added is what an unfiltered lookup returns next |
| ServiceLog.PrintSelection | tethysapp/ueb_app/hydrogate.py:2601-2624 | `print_log` prints nothing for an empty log. Otherwise it prints oldest first, or newest first for 'last'. A positive count keeps the first that many records of the print order, capped at the log length; a negative count drops that many records from the end of the print order, leaving none once it reaches the length; no count or a count of 0 keeps all |
| ServiceLog.PrintSelectionPositiveCount | tethysapp/ueb_app/hydrogate.py:2613-2622 | A positive count prints the first `min(count, length)` records |
| Client.NewClient | tethysapp/ueb_app/hydrogate.py:48-79 | A new client holds no token, is not authenticated, defaults to HPC 'USU' and loads the stored log into an empty one |
| Client.Record1 | tethysapp/ueb_app/hydrogate.py:333-335 | Recording a request appends it and saves the log, leaving the rest of the client unchanged |
| Client.CheckAuthenticated | tethysapp/ueb_app/hydrogate.py:2553-2555 | Passes exactly when the client is authenticated to HydroGate |
| Client.GetToken | tethysapp/ueb_app/hydrogate.py:235-249 | A cached token is returned and nothing is sent; otherwise one token request is sent, and the token is cached exactly when the gateway grants one |
| Client.ExpireTime | tethysapp/ueb_app/hydrogate.py:251-267 | Raises unless authenticated; 0 with no request when no token is cached; otherwise one lifetime query, which returns the remaining lifetime the gateway grants; the client is never changed |
| Client.EnsureToken | tethysapp/ueb_app/hydrogate.py:278-283 | Without a cached token, exactly one token request; it succeeds exactly when a token is granted, which is then cached. With a cached token, only the lifetime query; it succeeds exactly when the client is authenticated and the lifetime is granted, and the client is unchanged |
| Client.RefreshIfExpired | tethysapp/ueb_app/hydrogate.py:348-349 | An unauthenticated client raises and sends nothing. An authenticated one without a token sends one token request and succeeds exactly when it is granted, caching it; with a token it sends only the lifetime query and succeeds exactly when the lifetime is granted, unchanged |
| Client.RefreshPatternsAgree | tethysapp/ueb_app/hydrogate.py:278-283 | For an authenticated client the refresh of the upload path and that of the job path behave identically |
| Client.ExpiredCachedTokenKept | tethysapp/ueb_app/hydrogate.py:236-237 | A cached token reported expired is kept: only the lifetime query is sent |
| Client.MissingTokenRequested | tethysapp/ueb_app/hydrogate.py:278-283 | With no cached token, exactly one token request is sent |
| Client.Authenticate | tethysapp/ueb_app/hydrogate.py:137-153 | An unsupported HPC raises NotAuthenticated and changes nothing. Otherwise the credentials are stored and one token request is sent. It succeeds exactly when the token is granted, and only then is the client authenticated with that HPC as default. A failure leaves no token |
| Client.SetDefaultHpc | tethysapp/ueb_app/hydrogate.py:182-187 | A supported HPC becomes the default and nothing else changes; any other raises an argument exception |
| Jobs.DefaultHpcUsedByUpload | tethysapp/ueb_app/hydrogate.py:285-286 | After `set_default_hpc(hpc)`, a successful upload posts the package to that HPC as its last request |
| Client.ReauthenticationDropsOldToken | tethysapp/ueb_app/hydrogate.py:139-140 | Re-authenticating never keeps the old token, whatever the outcome |
| Jobs.LatestPackageId | tethysapp/ueb_app/hydrogate.py:314-320 | A fallback package id exists exactly when some record carries a 'packageID' identifier, and it is the id of the newest such record: no later record carries a 'packageID' identifier |
| Jobs.UploadStatus | tethysapp/ueb_app/hydrogate.py:313-342 | Without an id and with no package in the log, None and nothing sent. A returned record carries the granted state for the polled id, and it is appended to the log. A failure leaves the log as it was |
| Jobs.JobStatus | tethysapp/ueb_app/hydrogate.py:396-417 | Raises with nothing sent unless authenticated. A returned state is the granted one, and its record is appended. A failure leaves the log as it was |
| Jobs.Poll | tethysapp/ueb_app/hydrogate.py:300-309 | The imperative polling loop computes exactly the recursive definition of polling |
| Jobs.WaitLoop | tethysapp/ueb_app/hydrogate.py:302-307 | The `while` loop, started from an observed state, computes exactly what the recursive definition does from that state: 'success' on the done state, the failure indicator on the error state, otherwise another query |
| Jobs.SubmitUpload | tethysapp/ueb_app/hydrogate.py:275-297 | The upload succeeds exactly when authenticated, the token refresh succeeds and the gateway grants a package id. The package is posted with the default HPC after the refresh requests. The 'upload_package' record with the new id is appended. A failure leaves the log as it was |
| Jobs.JobDefinitionFor | tethysapp/ueb_app/hydrogate.py:351-369 | Keyword arguments are sent as given. Otherwise only 'pitremove' with an input raster, or 'ueb', has a built-in definition; pitremove's parameters name the input raster and 'feloutput.tif' |
| Jobs.SubmitJobRequest | tethysapp/ueb_app/hydrogate.py:344-394 | Raises with nothing sent unless authenticated. The submission succeeds exactly when authenticated, the token refresh succeeds, a job definition can be built and the gateway grants a job. A success posts that definition for the given package after the refresh requests, and appends the 'submit_job' record with job id and output path. A failure leaves the log as it was |
| Jobs.SubmissionCarriesDefinition | tethysapp/ueb_app/hydrogate.py:351-372 | Whatever the gateway answers, a submission that gets past the refresh and the definition posts exactly the definition `JobDefinitionFor` builds, for the given package, as its last request |
| Jobs.UploadPackage | tethysapp/ueb_app/hydrogate.py:275-311 | `upload_package` is the upload followed, when waiting, by the package polling loop |
| Jobs.SubmitJob | tethysapp/ueb_app/hydrogate.py:344-394 | `submit_job` is the submission followed, when waiting, by polling the new job |
| JobsProperties.Stop | tethysapp/ueb_app/hydrogate.py:300-305 | The index of the first round that is not pending, pending meaning that the lifetime and a non-terminal status are both granted: every round before it is pending, the one at it is not |
| JobsProperties.QueryHealthy | tethysapp/ueb_app/hydrogate.py:251-267 | A status query by an authenticated client holding a token succeeds exactly when the gateway grants both that query's lifetime query and the status. A success returns the status, appends its record and keeps polling the same identifier; a failure leaves the log as it was |
| JobsProperties.PollResult | tethysapp/ueb_app/hydrogate.py:300-309 | The first round that is not pending decides the loop. The done state gives 'success' and the error state gives the failure indicator. A refused or failed lifetime or status reply in that round gives the exception, and all-pending rounds give `PollingUnfinished` |
| JobsProperties.PollLog | tethysapp/ueb_app/hydrogate.py:300-309 | The loop appends one record per answered status, in order, for the identifier polled at the start, and nothing else |
| JobsProperties.PollSucceedsIff | tethysapp/ueb_app/hydrogate.py:302-309 | The loop ends in 'success' exactly when some round grants the lifetime and reports the done state, and every earlier round is pending |
| JobsProperties.PollFailsIff | tethysapp/ueb_app/hydrogate.py:302-305 | The loop returns the failure indicator exactly when some round grants the lifetime and reports the error state, and every earlier round is pending |
| JobsProperties.UploadAndWait | tethysapp/ueb_app/hydrogate.py:275-311 | For an authenticated client whose token lifetime can be read before the upload, and an accepted package, the upload is recorded and the loop polls the package just uploaded. Waiting returns 'success' exactly when 'PackageTransferDone' follows only pending rounds, and 'Upload error' exactly when 'UploadError' does |
| JobsProperties.SubmitAndWait | tethysapp/ueb_app/hydrogate.py:344-394 | For an authenticated client whose token lifetime can be read before the submission, a buildable job definition and an accepted submission, the job is recorded. Waiting on that job returns 'success' exactly when 'JobOutputFileTransferDone' follows only pending rounds, and 'Run job error' exactly when 'JobError' does |
| PyValues.ToInt | tethysapp/ueb_app/hydrogate.py:1723-1726 | `int(v)` raises `TypeError` exactly on None, accepts a string exactly when it is a signed decimal literal, and accepts every number |
| PyValues.ToFloat | tethysapp/ueb_app/hydrogate.py:1734-1737 | `float(v)` raises `TypeError` exactly on None, accepts a string exactly when it is a signed decimal with at most one point, and accepts every number |
| PyValues.IntLiteralIsFloatLiteral | tethysapp/ueb_app/hydrogate.py:1723-1752 | Every string `int()` accepts, `float()` accepts too |
| PyValues.Greater | tethysapp/ueb_app/hydrogate.py:1006 | Python 2's `a > b` never raises: numbers compare by value, texts code point by code point, and values of different kinds by kind, None below numbers below texts |
| PyValues.GreaterAsymmetric | tethysapp/ueb_app/hydrogate.py:1006 | `>` never holds both ways |
| PyValues.GreaterTotal | tethysapp/ueb_app/hydrogate.py:1006 | When neither value is greater, they are of the same kind and are the same number or the same text |
| PyValues.TextLessTotal | tethysapp/ueb_app/hydrogate.py:1006 | Of two distinct texts, one is below the other |
| PyValues.TextLessAsymmetric | tethysapp/ueb_app/hydrogate.py:1006 | Text order never holds both ways |
| Text.Lower | tethysapp/ueb_app/hydrogate.py:1818 | `lower()` keeps the length, lowers each character, and leaves no upper-case letter |
| Text.JoinSplit | tethysapp/ueb_app/controllers.py:257 | Splitting on a separator and joining again gives back the text |
| Text.SecondField | tethysapp/ueb_app/controllers.py:260 | `split(sep)[1]` exists exactly when the separator occurs, and holds no separator |
| Text.LastFieldAfterLastSep | tethysapp/ueb_app/hydrogate.py:2304 | `split('/')[-1]` is the text after the last slash |
| Dates.DaysInMonth | tethysapp/ueb_app/hydrogate.py:1294-1301 | Every month has 28 to 31 days |
| Dates.ParseDate | tethysapp/ueb_app/hydrogate.py:1294-1303 | Whatever `strptime('%m/%d/%Y')` accepts is a date `datetime` can represent |
| Dates.YearStep | tethysapp/ueb_app/hydrogate.py:1308 | The day count grows by exactly the length of each year |
| Dates.OrdinalOrder | tethysapp/ueb_app/hydrogate.py:1304-1308 | Day numbers order dates as the calendar does, and differ for different dates |
| Dates.ParseFormat | tethysapp/ueb_app/hydrogate.py:1294-1301 | Parsing the `mm/dd/yyyy` text of a date gives back that date |
| Operations.ProjectionPresent | tethysapp/ueb_app/hydrogate.py:1571-1575 | Passes exactly when at least one of UTM zone and EPSG code is given and not both are truthy |
| Operations.ProjectionChoice | tethysapp/ueb_app/hydrogate.py:1581-1593 | Each truthy selector must be an int and adds its parameter. A truthy EPSG code selects the EPSG endpoint, else a truthy zone selects the UTM endpoint, else there is no URL |
| Operations.ProjectionExactlyOne | tethysapp/ueb_app/hydrogate.py:1571-1593 | After the presence checks, with some selector truthy, exactly one selector is sent with its own endpoint |
| Operations.ZeroZoneSelectsNoService | tethysapp/ueb_app/hydrogate.py:1571-1593 | A zero zone with no EPSG code passes the checks yet selects no endpoint |
| Operations.SubsetRaster | tethysapp/ueb_app/hydrogate.py:546-561 | Accepted exactly when the save-as path, the `.tif` output name and the float bounding box pass; the box is sent as xmin=left, ymin=bottom, xmax=right, ymax=top |
| Operations.SubsetRasterRefusesIntegerCoordinate | tethysapp/ueb_app/hydrogate.py:555 | Any integer coordinate makes the subset fail |
| Operations.DaymetMosaic | tethysapp/ueb_app/hydrogate.py:988-1012 | With a save-as path there is no request: None when the path is valid. Otherwise each year must convert with `int()`, failing with its own message, and when both do a request is built. It sends the two years as given, the start year never greater than the end year under Python 2's `>` |
| Operations.DaymetMixedYearsNumberFirst | tethysapp/ueb_app/hydrogate.py:994-1009 | A number and a numeric text are both accepted, and the number is always sent as the start year, in either argument order and whatever the values |
| Operations.SubsetNetcdfByTime | tethysapp/ueb_app/hydrogate.py:1290-1320 | Accepted exactly when the save-as path passes, both dates parse, the start is not after the end, and the output name ends in `.nc`. The indices are the start day, and the start day plus the days to the end |
| Operations.NetcdfIndicesOrdered | tethysapp/ueb_app/hydrogate.py:1307-1308 | The start index is a day of the month and the end index is never below it; equal dates give equal indices |
| Operations.NetcdfFormattedDates | tethysapp/ueb_app/hydrogate.py:1294-1320 | Dates written as `mm/dd/yyyy` yield the start day and the start day plus the days between |
| Operations.ProjectShapefile | tethysapp/ueb_app/hydrogate.py:1568-1596 | Accepted exactly when the save-as path, presence, `.shp` name and selector checks pass; sends the two file names followed by the selector parameters to the selected endpoint |
| Operations.CreateOutletShapefile | tethysapp/ueb_app/hydrogate.py:1628-1640 | Accepted exactly when the save-as path and the `.shp` name pass; the point is sent as given |
| Operations.OutletPointUnchecked | tethysapp/ueb_app/hydrogate.py:1628-1636 | The point coordinates play no part in acceptance |
| Operations.OutletChecks | tethysapp/ueb_app/hydrogate.py:1727-1751 | Without an outlet shapefile, passes exactly when x and y convert with `float()` and the EPSG code with `int()`; a missing x is reported first |
| Operations.ThresholdCheck | tethysapp/ueb_app/hydrogate.py:1723-1726 | The threshold passes exactly when `int()` accepts it; None raises the argument exception, a bad literal lets `ValueError` escape |
| Operations.DelineateWatershed | tethysapp/ueb_app/hydrogate.py:1716-1766 | Accepted exactly when the save-as path, the `.tif` and `.shp` names and the threshold pass, plus the outlet checks when the shapefile is None. A non-empty shapefile selects delineation at the shape, anything else delineation at the point |
| Operations.DelineateAtShapeIgnoresPoint | tethysapp/ueb_app/hydrogate.py:1728-1766 | With an outlet shapefile, the point and EPSG code change nothing |
| Operations.EmptyShapefilePathSkipsOutletChecks | tethysapp/ueb_app/hydrogate.py:1728-1761 | An empty shapefile path skips the outlet checks and requests delineation at a missing point |
| Operations.ResampleRaster | tethysapp/ueb_app/hydrogate.py:1805-1826 | Accepted exactly when the save-as path, `.tif` name, integer cell sizes and method pass; the method is sent lower-cased; a bad method is a `KeyError` |
| Operations.ResampleRasterCaseInsensitive | tethysapp/ueb_app/hydrogate.py:1818-1826 | The letter case of the method changes nothing |
| Operations.ProjectResampleRaster | tethysapp/ueb_app/hydrogate.py:1882-1921 | Accepted exactly when all checks pass; sends input, cell sizes, output and lower-cased method, then the selector parameters, to the selected endpoint |
| Operations.SubsetProjectResampleRaster | tethysapp/ueb_app/hydrogate.py:1987-2018 | Accepted exactly when all checks pass and a truthy EPSG code is an int; a truthy code selects the EPSG endpoint and is sent, otherwise the UTM endpoint |
| Operations.ResultFileRequest | tethysapp/ueb_app/hydrogate.py:2303-2314 | Accepted exactly when the last URL segment and the save-as name both end in `.zip`; the segment and the name are sent |
| Operations.Perform | tethysapp/ueb_app/hydrogate.py:2436-2474 | A validation failure propagates. A request without URL fails before sending. Otherwise the reply is classified, and a success implies status 200 with `success` true |
| Operations.ZeroZoneShapefileHasNoUrl | tethysapp/ueb_app/hydrogate.py:1571-1596 | A zero UTM zone passes every check of `project_shapefile`, which then fails for want of a URL |
| Coverage.Key | tethysapp/ueb_app/controllers.py:259-274 | A box part can set only box fields, a period part only period fields |
| Coverage.Extract | tethysapp/ueb_app/controllers.py:260-276 | A part carries a value exactly when it contains `=`. The value holds no `=`, and a period value holds no 'T' |
| Coverage.Update | tethysapp/ueb_app/controllers.py:258-276 | Reading a part raises `IndexError` exactly when it sets a field but has no `=`; a part setting nothing changes nothing |
| Coverage.LastSetting | tethysapp/ueb_app/controllers.py:258-276 | The last part that sets a field: it sets it, and no later part does |
| Coverage.ReadFailsIff | tethysapp/ueb_app/controllers.py:255-276 | Reading the parts raises exactly when some part sets a field but has no `=` |
| Coverage.ReadLastWins | tethysapp/ueb_app/controllers.py:255-276 | After reading, each field holds the value of the last part setting it, or its earlier value when none does |
| Coverage.UnsetFieldsUnknown | tethysapp/ueb_app/controllers.py:246-251 | A field that no part sets stays 'unknown' |
| Coverage.LoadMetadata | tethysapp/ueb_app/controllers.py:240-302 | Reports 'Success' exactly for a connected session whose coverage parses. Success carries the fixed outlet and 'unknown' for outlet point, cell sizes and EPSG code. A disconnected session gives its own error, and a coverage failure gives the 'Failed to retrieve' message |
| Coverage.LoadFailsIff | tethysapp/ueb_app/controllers.py:253-302 | A connected session's reply is an error exactly when some coverage part sets a field but has no `=` |
| Coverage.LoadFieldValues | tethysapp/ueb_app/controllers.py:246-289 | Each reported coverage field is the value of the last part setting it, or 'unknown' |

## Left out

- HTTP, file downloads and uploads, iRODS calls and `time.sleep` are not modelled. Replies are parameters, and a reply's `data` is an ordered list of name/URL pairs.
- The pickle file format is not modelled. The stored log is an optional sequence of records.
- `request_time` of `ServiceRequest` is left out, because no logic reads it. So is `to_json`.
- The `singleton` decorator and the class-wide shared log are replaced by one explicit client value.
- The polling loops do not run forever here. They run over a finite script of rounds, each the gateway's reply to one lifetime query and one status query, and a script with only pending rounds ends in `PollingUnfinished`.
- The lifetime query in front of the upload or submission is answered by the gateway's single lifetime reply. Each status query of the wait loops is answered by its own round.
- Jobs.UploadStatus: `int(package_id)` in the request is not modelled, so a non-numeric package id does not raise `ValueError` here. The same holds for `submit_job`.
- Query parameters are listed in the order the source writes them. Python 2 dicts send them in hash order, which the model does not track; the data service reads parameters by name.
- `isinstance(v, int)` uses the 64-bit `sys.maxint`. On a 32-bit build, integers from 2**31 on would already be `long` and refused.
- `os.path.splitext`, `dirname` and `basename` follow `posixpath`. Windows drive letters and backslash separators, as in the `C:\` paths of the docstrings, are not modelled.
- Text primitives cover ASCII only. There is no Unicode case mapping or character classes.
- `int()` and `float()` on strings do not model surrounding whitespace, underscores, exponents, `inf` or `nan`.
- `strptime` is modelled for fully numeric `mm/dd/yyyy` fields. Space-padded fields and fields with stray characters are not.
- Names, dates and paths are strings. The `TypeError`s that non-string arguments would cause in `splitext`, `strptime` or `endswith` are not modelled. `_is_file_name_valid` on a non-string answers false (`Validation.ValueIsValidFileName`).
- `ValueError` messages of `int()` and `float()` are stand-ins for Python's texts, which quote the offending value.
- The reply handling of `get_daymet_mosaic` (`_process_service_response`) is not modelled: `Operations.DaymetMosaic` stops at the request.
- Only the operations with argument rules are modelled: `subset_raster`, `get_daymet_mosaic`, `subset_netcdf_by_time`, `project_shapefile`, `create_outlet_shapefile`, `delineate_watershed`, the three resampling operations and `get_hydrogate_result_file`. The remaining operations only check output file names, with the same `Operations.NameCheck`.
- `print_log` with a count that `int()` rejects is not modelled: the count is an optional int.
- In the coverage parser, the Django view and the OAuth session are reduced to a connected or not-connected session. The `xmltodict` parsing is not modelled, including the case where a single coverage entry arrives as a mapping rather than a list. Other exceptions are not modelled either, such as a missing `rdf:value`.
