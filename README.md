# secondvintage-crm: a verified model of the decision logic

This project models, in Dafny, the parts of the second-vintage watch CRM
(a Laravel application) that make decisions or transform data. The model
covers five areas:

- **DHL shipment tracking.**
  - `DhlTrackingService` classifies the outcome of one call to the carrier.
    An empty tracking number is refused before any request is made. A
    non-2xx answer becomes `apiRequestFailed`. Any other exception becomes
    `networkError`.
  - A pure parser turns the carrier's JSON into `{status, location, events}`.
  - `DhlTrackingStatus` holds the status table.
  - `DhlTrackingException` holds the typed exception and its four factories.
- **The watch upsert workflow** (`UpdateOrCreateAction`). A `batch` name
  becomes `batch_id` and a `brand` name becomes `brand_id`, using
  get-or-create tables. A default location is filled in. The upsert and the
  image sync are recorded as calls, in order.
- **The watch lifecycle.**
  - The `WatchObserver` hooks:
    - creating stamps the owner and derives a SKU;
    - updating stamps the editor and re-derives a stale SKU;
    - deleting removes each image's file and row.
  - The `Watch` model's own creating hook stamps the purchase date.
  - The `image_urls` and `ai_image_urls` accessors read the images ordered
    by `order_index`.
- **`JsonMiddleware`.** It decides whether to force a JSON response, and
  builds the forced response.
- **`EnvironmentService`.** `executeWithEnvironment` backs up variables, sets
  them in the process environment, `$_ENV` and `$_SERVER`, runs a callback,
  and restores the variables whether the callback returns or throws.

How the code is represented:

- PHP values decoded from JSON are the `PhpValues.Json` datatype. The module
  also models PHP's `empty()`, `isset`/`??` lookups and the decimal rendering
  of integers. `empty()` is true for `""` and `"0"`.
- Pure PHP code is written as functions and lemmas.
- Objects that PHP updates in place are classes whose methods carry
  `modifies` clauses: the watch, the name tables, the action, the disk, the
  image table and the environment stores. Each method is proved against a
  specification function. The lemmas are stated about those functions.
- I/O is not performed. The carrier's HTTP answer is a parameter
  (`send`). Log calls and requests are returned as a trace of effects, so
  "no request was made" is a statement about that trace. The clock
  (`today`), the signed-in user (`auth`), `generateSKU` and `json_decode`
  are parameters too.

Where the code and its unit tests disagree, the model follows the code: an
empty tracking number and a non-2xx answer throw, where the unit tests expect
`null`.

Two facts about the code that the contracts make explicit:

- The parsed status is null whenever the first shipment's status code is
  missing or PHP-empty.
- The middleware gives an empty body as the empty PHP array, which JSON
  encodes as `[]`.

## Model

| member | source | states |
|---|---|---|
| PhpValues.IntToStringInjective | app/Exceptions/Services/DhlTrackingException.php:48 | two integers that render to the same decimal text are equal, so the status in a message can be read back |
| PhpValues.EmptyString | app/Services/DhlTrackingService.php:99 | `empty()` on a string holds exactly for a string of at most one character, all zeros: "" and "0" |
| PhpValues.Empty | app/Services/DhlTrackingService.php:46 | `empty()` holds exactly for null, false, 0, "", "0" and the empty array |
| DhlTrackingStatus.StatusMapEntries | app/Constants/DhlTrackingStatus.php:43-49 | pre-transit→preparing, transit→in_transit, delivered→delivered (the same string), failure→shipped, unknown→shipped |
| DhlTrackingStatus.StatusMapShape | app/Constants/DhlTrackingStatus.php:31-49 | the table has exactly the five carrier codes as keys; its values are exactly the four internal statuses |
| DhlTrackingStatus.StatusMapNotInjective | app/Constants/DhlTrackingStatus.php:47-48 | two different carrier codes share a status, so a status does not identify its code |
| DhlTrackingExceptions.ErrorCodesDistinct | app/Exceptions/Services/DhlTrackingException.php:12-15 | the four error codes are pairwise different |
| DhlTrackingExceptions.Create | app/Exceptions/Services/DhlTrackingException.php:17-34 | getErrorCode and getStatusCode return what was passed in; message and previous are kept |
| DhlTrackingExceptions.DefaultConstruction | app/Exceptions/Services/DhlTrackingException.php:17-24 | with no arguments: code api_request_failed, status 500, empty message, no previous |
| DhlTrackingExceptions.InvalidTrackingNumber | app/Exceptions/Services/DhlTrackingException.php:36-43 | invalid_tracking_number with 400; the message names the number |
| DhlTrackingExceptions.ApiRequestFailed | app/Exceptions/Services/DhlTrackingException.php:45-52 | api_request_failed with 502; the message ends in the HTTP status; the body does not appear |
| DhlTrackingExceptions.InvalidResponse | app/Exceptions/Services/DhlTrackingException.php:54-61 | invalid_response with 502, no previous; the message names the number |
| DhlTrackingExceptions.NetworkError | app/Exceptions/Services/DhlTrackingException.php:63-71 | network_error with 503, keeping the wrapped exception as previous; the message names the number |
| DhlTrackingExceptions.ApiRequestFailedMessageDeterminesStatus | app/Exceptions/Services/DhlTrackingException.php:45-52 | two API-failure messages for one number are equal only when the HTTP statuses are equal, whatever the bodies |
| DhlTrackingExceptions.FactoryKindsDistinct | app/Exceptions/Services/DhlTrackingException.php:36-71 | the four factories give four different codes; only the invalid number gets a 4xx status |
| DhlTrackingService.Offset0 | app/Services/DhlTrackingService.php:50 | `[0]` finds a value exactly for a non-empty list (its first element), an object with key "0" (that field) or a non-empty string (its first character); on anything else it warns |
| DhlTrackingService.CreateEmptyTrackingResponse | app/Services/DhlTrackingService.php:64-71 | null status, null location, empty events |
| DhlTrackingService.MapDhlStatus | app/Services/DhlTrackingService.php:97-104 | null exactly for a missing or PHP-empty code; otherwise the table entry, or shipped for an unknown code; always an internal status |
| DhlTrackingService.NonEmptyOnly | app/Services/DhlTrackingService.php:86-89 | `array_filter` keeps exactly the non-falsy parts |
| DhlTrackingService.NonEmptyOnlyPair | app/Services/DhlTrackingService.php:86-89 | on the locality/country pair, each part survives exactly when it is not PHP-empty, in order |
| DhlTrackingService.ToPhpString | app/Services/DhlTrackingService.php:91 | converting a part for `implode` fails exactly for an array; a non-empty scalar gives a non-empty string |
| DhlTrackingService.Implode | app/Services/DhlTrackingService.php:91 | `implode` raises exactly when some part is an array; one part gives its string; two parts give them joined by the separator |
| DhlTrackingService.ExtractLatestLocation | app/Services/DhlTrackingService.php:76-92 | empty events give null; a location, when given, is never the empty string |
| DhlTrackingService.ParseTrackingResponse | app/Services/DhlTrackingService.php:42-59 | missing or empty shipments give the empty response; non-empty shipments without a readable `[0]` raise that warning; events are an array; a status is internal; a location is non-empty |
| DhlTrackingService.ParseReadsFirstShipment | app/Services/DhlTrackingService.php:50-58 | for every response whose first shipment is read: a status code that is neither null nor a string, or non-array events, raise a TypeError; otherwise the status is MapDhlStatus of the first shipment's code, the location is that of its events, the events are its events, and parsing fails only when reading the location fails |
| DhlTrackingService.SendAndClassify | app/Services/DhlTrackingService.php:142-160 | one request; a non-2xx answer logs one warning and throws api_request_failed with the status; a transport exception logs one error and throws network_error wrapping it; a 2xx array body gives the parse, a parser warning is logged and wrapped as network_error, a parser TypeError escapes; a non-array body raises an uncaught TypeError; invalid_response is never thrown |
| DhlTrackingService.ClassifyBody | app/Services/DhlTrackingService.php:154-160 | for a 2xx array body, given its parse: the parse when it succeeds; a parser warning becomes an ErrorException, logged once and wrapped as network_error; a parser TypeError escapes uncaught; never a logged warning |
| DhlTrackingService.GetTrackingInfo | app/Services/DhlTrackingService.php:136-161 | an empty number throws invalid_tracking_number with no effects; otherwise exactly one request is sent and its result classified |
| DhlTrackingService.GetTrackingInfoAsWritten | app/Services/DhlTrackingService.php:22-37 | as written: an empty number is refused; any other number fails reading the uninitialised key |
| DhlTrackingService.UninitialisedKeyBlocksEveryRequest | app/Services/DhlTrackingService.php:22-37 | as written, no request is ever sent for a non-empty number; with a key, exactly one is |
| DhlTrackingService.ZeroTrackingNumberRefused | app/Services/DhlTrackingService.php:138-140 | "0" is refused with invalid_tracking_number and 400 before any request |
| DhlTrackingService.OnlyFirstShipmentRead | app/Services/DhlTrackingService.php:50-58 | shipments after the first do not change the result |
| DhlTrackingService.EventsPassedThrough | app/Services/DhlTrackingService.php:52-57 | for shipments of any array shape, a parse returns the first shipment's events (default `[]`) unchanged |
| DhlTrackingService.LocationJoinsParts | app/Services/DhlTrackingService.php:82-91 | for any first event: parts that are PHP-empty, absent parts included, are dropped; none left gives null, one gives its string, two give "locality, country"; a surviving array part raises |
| DhlTrackingService.DeliveredInBerlin | app/Services/DhlTrackingService.php:42-104 | a delivered shipment whose first event is in Berlin, DE parses to delivered / "Berlin, DE" / its events |
| DhlTrackingService.UnknownAndTransitPayloads | app/Services/DhlTrackingService.php:97-104 | for every status code, a shipment without events gives MapDhlStatus of the code and no location; transit gives in_transit; the table's unknown code, failure and the unlisted unknown_status give shipped |
| UpdateOrCreateAction.GetOrCreate | app/Actions/Watch/UpdateOrCreateAction.php:37 | the name ends up with an id; an existing name leaves the table unchanged; a new name adds exactly one row; other rows keep their ids |
| UpdateOrCreateAction.GetOrCreateKeepsValid | app/Actions/Watch/UpdateOrCreateAction.php:37 | a created row gets an id no row had, and ids stay positive and distinct |
| UpdateOrCreateAction.ResolveName | app/Actions/Watch/UpdateOrCreateAction.php:31-51 | a set name is replaced by the id of its row and the name key is removed; an unset or null name changes nothing; other keys pass through |
| UpdateOrCreateAction.WithDefaultLocation | app/Actions/Watch/UpdateOrCreateAction.php:53-58 | an unset location gets the default country when one is defined; a set location is kept |
| UpdateOrCreateAction.SyncCalls | app/Actions/Watch/UpdateOrCreateAction.php:60-69 | at most one sync, made exactly when images are set and the sync class exists |
| UpdateOrCreateAction.Prepare | app/Actions/Watch/UpdateOrCreateAction.php:19-21 | the batch table gains the batch name's row when the batch is set, the brand table likewise for the brand, and keys outside the five the rewriting owns pass through |
| UpdateOrCreateAction.NameTable.FirstOrCreate | app/Actions/Watch/UpdateOrCreateAction.php:37 | the table and the returned id are those of GetOrCreate |
| UpdateOrCreateAction.UpdateOrCreateAction.ProcessBatchId | app/Actions/Watch/UpdateOrCreateAction.php:31-40 | the bag and the batch table become those of ResolveName for batch/batch_id |
| UpdateOrCreateAction.UpdateOrCreateAction.ProcessBrandId | app/Actions/Watch/UpdateOrCreateAction.php:42-51 | the bag and the brand table become those of ResolveName for brand/brand_id |
| UpdateOrCreateAction.UpdateOrCreateAction.Invoke | app/Actions/Watch/UpdateOrCreateAction.php:16-29 | batch, then brand, then location; then one upsert with the rewritten bag, followed by the image sync when due |
| UpdateOrCreateAction.BatchNameBecomesId | app/Actions/Watch/UpdateOrCreateAction.php:31-40 | a set batch is gone from the bag, and batch_id is the id of the row with that name |
| UpdateOrCreateAction.BrandNameBecomesId | app/Actions/Watch/UpdateOrCreateAction.php:42-51 | a set brand is gone from the bag, and brand_id is the id of the row with that name |
| UpdateOrCreateAction.UnsetNamesTouchNothing | app/Actions/Watch/UpdateOrCreateAction.php:31-51 | an unset or null batch or brand leaves its table and its key as they were |
| UpdateOrCreateAction.LocationDefaulted | app/Actions/Watch/UpdateOrCreateAction.php:53-58 | a set location is never overwritten; an unset one gets the default when it is defined |
| UpdateOrCreateAction.OtherKeysPassThrough | app/Actions/Watch/UpdateOrCreateAction.php:19-23 | keys other than batch, batch_id, brand, brand_id and location reach the upsert unchanged |
| UpdateOrCreateAction.ImageSyncFollowsInput | app/Actions/Watch/UpdateOrCreateAction.php:60-69 | the sync gets the incoming images exactly when they are set and the class exists |
| UpdateOrCreateAction.TablesStayValid | app/Actions/Watch/UpdateOrCreateAction.php:37-48 | both tables stay valid, keep their names, and gain at most one row each |
| UpdateOrCreateAction.PrepareIdempotent | app/Actions/Watch/UpdateOrCreateAction.php:19-21 | rewriting an already rewritten bag changes neither the bag nor the tables |
| WatchModel.RouteKeyName | app/Models/Watch.php:80-83 | the route key is sku, a mass-assignable attribute |
| WatchModel.IsDirty | app/Observers/WatchObserver.php:75-76 | an attribute is clean exactly when it is unset or equals the value loaded from the database |
| WatchModel.AssignmentDirties | app/Observers/WatchObserver.php:75-76 | assigning makes an attribute dirty exactly when the value differs from the loaded one, and changes no other attribute's dirtiness |
| WatchModel.StampPurchaseDate | app/Models/Watch.php:215-219 | an empty purchase date becomes today's date; a set one is left alone |
| WatchModel.StampPurchaseDateIdempotent | app/Models/Watch.php:215-219 | stamping twice is stamping once, and the date is set afterwards |
| WatchModel.Watch.StampPurchaseDateOnCreate | app/Models/Watch.php:215-219 | the watch becomes StampPurchaseDate of its old state |
| WatchModel.InsertByOrder | app/Models/Watch.php:160-163 | inserting adds exactly that row, keeping all others |
| WatchModel.InsertKeepsSorted | app/Models/Watch.php:160-163 | inserting into a list sorted by order_index keeps it sorted |
| WatchModel.Ordered | app/Models/Watch.php:160-163 | the relation's rows are sorted by order_index ascending and are a permutation of the stored rows |
| WatchModel.AiOnly | app/Models/Watch.php:202-205 | keeps exactly the images marked for AI use, each as often as it occurs, in their original order (a subsequence) |
| WatchModel.ImageUrls | app/Models/Watch.php:192-195 | one URL per image, the i-th being the full_url of the i-th image by order_index |
| WatchModel.AiImageUrls | app/Models/Watch.php:200-206 | the full_url of exactly the AI images, in order_index order |
| WatchModel.FilteredUrlsAreSubsequence | app/Models/Watch.php:200-206 | filtering then plucking gives a subsequence of plucking |
| WatchModel.AiImageUrlsSubsequenceOfImageUrls | app/Models/Watch.php:200-206 | ai_image_urls is an order-preserving subsequence of image_urls |
| WatchModel.AllForAiGivesSameUrls | app/Models/Watch.php:192-206 | when every image is for AI use, the two accessors agree |
| WatchModel.OrderedIgnoresStorageOrder | app/Models/Watch.php:160-163 | rows with distinct order_index come out in one order, however they are stored |
| WatchObserver.ReadBrand | app/Observers/WatchObserver.php:60-61 | a raw brand attribute wins over the relation |
| WatchObserver.SetUserId | app/Observers/WatchObserver.php:51-56 | user_id becomes the signed-in id exactly when it is empty and someone is signed in |
| WatchObserver.CreatingBrandArgument | app/Observers/WatchObserver.php:61 | the brand's name when it is not null, else the brand itself |
| WatchObserver.GenerateSkuIfNeeded | app/Observers/WatchObserver.php:58-64 | when the SKU is empty and the name and brand truthy, sku is the generator's result and nothing else changes; otherwise the attributes stay; the brand relation is marked loaded exactly when it was read |
| WatchObserver.Creating | app/Observers/WatchObserver.php:14-18 | the owner is stamped by SetUserId's rule, the SKU is generated exactly when wanted, and no other attribute changes |
| WatchObserver.CreatingStampsOwner | app/Observers/WatchObserver.php:51-56 | after creating, the owner is the signed-in user when it was empty and someone is signed in; otherwise it is unchanged |
| WatchObserver.CreatingSku | app/Observers/WatchObserver.php:58-64 | a SKU is generated exactly when sku is empty and name and brand are truthy; a set SKU is never replaced |
| WatchObserver.CreatingHooksCommute | app/Observers/WatchObserver.php:14-18 | the observer's creating hook and the model's date stamp commute |
| WatchObserver.SetUpdatedBy | app/Observers/WatchObserver.php:66-71 | updated_by becomes the signed-in id exactly when someone is signed in |
| WatchObserver.HasBrandNameChanged | app/Observers/WatchObserver.php:85-96 | false when brand_id is dirty or the relation is not loaded; otherwise exactly the loaded brand's name dirtiness, or an Error when the brand is not a model |
| WatchObserver.UpdatingBrandName | app/Observers/WatchObserver.php:80 | the loaded brand's name when not null, else "" |
| WatchObserver.RegenerateSkuIfNeeded | app/Observers/WatchObserver.php:73-83 | raises exactly when the brand check raises; a stale SKU is replaced by the generator's result on the brand name and the name; otherwise the watch is unchanged |
| WatchObserver.Updating | app/Observers/WatchObserver.php:20-24 | completes exactly when the brand check does not raise; the editor is stamped whenever someone is signed in; the SKU is regenerated exactly when the hook completes and it is stale; no other attribute changes |
| WatchObserver.SetUpdatedByKeepsSkuInputs | app/Observers/WatchObserver.php:20-24 | stamping the editor changes none of the inputs of the SKU decision |
| WatchObserver.UpdatingStampsEditor | app/Observers/WatchObserver.php:66-71 | after updating, the editor is the signed-in user when someone is signed in, and otherwise unchanged |
| WatchObserver.UpdatingSku | app/Observers/WatchObserver.php:73-83 | the hook completes exactly when the brand check does not raise; the SKU is regenerated exactly when name or brand_id is dirty or the brand name changed; otherwise it is unchanged |
| WatchObserver.NullLoadedBrandRaises | app/Observers/WatchObserver.php:85-96 | a loaded null brand makes the update hook raise |
| WatchObserver.FilePath | app/Observers/WatchObserver.php:113-120 | the path removed is public_url, unless it is null, "" or "0" |
| WatchObserver.FilePathsMembership | app/Observers/WatchObserver.php:98-120 | a path is removed exactly when some image has it as a non-empty public_url |
| WatchObserver.ImageIdsMembership | app/Observers/WatchObserver.php:104-110 | a row is removed exactly when it is one of the watch's images |
| WatchObserver.DeletionIgnoresOrder | app/Observers/WatchObserver.php:98-120 | the files and rows removed do not depend on visiting order; a file named "0" is never removed |
| WatchObserver.Disk.Delete | app/Observers/WatchObserver.php:118 | the path is no longer on the disk; nothing else changes |
| WatchObserver.ImageRecords.Delete | app/Observers/WatchObserver.php:108 | the row is gone; nothing else changes |
| WatchObserver.DeleteImageFile | app/Observers/WatchObserver.php:113-120 | the disk loses the image's file, if it has one and it exists; a missing file is skipped |
| WatchObserver.Deleting | app/Observers/WatchObserver.php:98-111 | the disk loses exactly the images' non-empty paths and the table loses exactly their rows |
| WatchObserver.NoImagesNoChanges | app/Observers/WatchObserver.php:100-102 | no images: nothing is removed |
| WatchObserver.CreatingHook | app/Observers/WatchObserver.php:14-18 | the watch becomes Creating of its old state |
| WatchObserver.UpdatingHook | app/Observers/WatchObserver.php:20-24 | the watch and the completion flag are those of Updating |
| JsonMiddleware.ContainsAtOffset | app/Http/Middleware/JsonMiddleware.php:39 | str_contains holds exactly when the needle occurs at some offset |
| JsonMiddleware.ShouldForceJson | app/Http/Middleware/JsonMiddleware.php:25-40 | forced exactly when the request expects or wants JSON, or targets api/, or the response is not JSON and the Accept header holds application/json at some offset |
| JsonMiddleware.ForcedData | app/Http/Middleware/JsonMiddleware.php:44-49 | PHP-empty or missing content gives `[]`; otherwise the decoded body when it is not null, else `{content: body}`; never null |
| JsonMiddleware.ForceJsonResponse | app/Http/Middleware/JsonMiddleware.php:42-54 | the forced response keeps the status and every original header over the JSON default |
| JsonMiddleware.Handle | app/Http/Middleware/JsonMiddleware.php:14-23 | the response is passed through unchanged exactly when it is not to be forced; otherwise it is forced |
| JsonMiddleware.JsonRequestsAlwaysForced | app/Http/Middleware/JsonMiddleware.php:27-33 | a request that expects or wants JSON, or that targets api/, is always forced, even for a JSON response |
| JsonMiddleware.JsonResponsePassedThrough | app/Http/Middleware/JsonMiddleware.php:35-37 | otherwise a JSON response is passed through as it is |
| JsonMiddleware.AcceptHeaderDecides | app/Http/Middleware/JsonMiddleware.php:39 | otherwise the response is forced exactly when the Accept header contains application/json at some offset |
| JsonMiddleware.ForcedBodies | app/Http/Middleware/JsonMiddleware.php:44-49 | a decodable body is carried over, an undecodable one is wrapped, and content "0" gives `[]` |
| JsonMiddleware.OriginalContentTypeWins | app/Http/Middleware/JsonMiddleware.php:51-53 | an original content-type survives forcing |
| EnvironmentService.Put | app/Services/EnvironmentService.php:14-19 | the value is set in all three stores; other names are unchanged |
| EnvironmentService.Remove | app/Services/EnvironmentService.php:46-47 | the name is gone from all three stores; other names are unchanged |
| EnvironmentService.GetenvOrNull | app/Services/EnvironmentService.php:32 | the process value when it is present and truthy, else null |
| EnvironmentService.Backup | app/Services/EnvironmentService.php:29-33 | one entry per name, in order, holding the process value when it is truthy and null otherwise |
| EnvironmentService.SetAll | app/Services/EnvironmentService.php:37-39 | the last name written holds its value in all three stores, and names not written are unchanged |
| EnvironmentService.RestoreAll | app/Services/EnvironmentService.php:44-51 | the last entry is set or removed in all three stores by its backup, and names not backed up are unchanged |
| EnvironmentService.Executed | app/Services/EnvironmentService.php:24-53 | the outcome is the callback's, and names outside the call are as the callback left them |
| EnvironmentService.SetAllEffect | app/Services/EnvironmentService.php:37-39 | after the set loop each name holds its new value in all three stores |
| EnvironmentService.RestoreAllEffect | app/Services/EnvironmentService.php:44-51 | after the restore loop a backed-up value is set in all three stores, and a null backup is removed from all three |
| EnvironmentService.CallbackSeesNewValues | app/Services/EnvironmentService.php:37-41 | the callback runs with every new value in place in all three stores |
| EnvironmentService.ExecutedEffect | app/Services/EnvironmentService.php:24-53 | afterwards a truthy original process value is set in all three stores, an unset, "" or "0" original is removed from all three, and other names are as the callback left them; the callback's outcome is passed on |
| EnvironmentService.ExactRestoreWhenConsistent | app/Services/EnvironmentService.php:24-53 | with a callback that changes nothing, the stores come back exactly as they were if and only if each name was in no store or held one truthy value in all three |
| EnvironmentService.FalsyValueIsLost | app/Services/EnvironmentService.php:29-33 | a variable set to "0" is gone after the call, even when the callback changes nothing |
| EnvironmentService.SetTemporaryEnvironment | app/Services/EnvironmentService.php:14-19 | the stores become Put of the old stores |
| EnvironmentService.BackUp | app/Services/EnvironmentService.php:29-33 | of the three reads per name, only the getenv value survives, and a falsy one becomes null; nothing is changed |
| EnvironmentService.SetEach | app/Services/EnvironmentService.php:37-39 | the stores become SetAll of the old stores |
| EnvironmentService.RestoreEach | app/Services/EnvironmentService.php:44-51 | the stores become RestoreAll of the old stores |
| EnvironmentService.ExecuteWithEnvironment | app/Services/EnvironmentService.php:24-53 | backup, set, callback, then restore on return and on throw alike; the stores and the outcome are those of Executed |

## Left out

- HTTP and logging in the tracking client are not performed. The carrier's answer is a parameter. Requests and log lines are a returned trace.
- The second copies of `makeApiRequest` through `logApiException` (app/Services/DhlTrackingService.php:163-242) are not modelled. They repeat lines 30-127, and PHP would refuse the redeclaration.
- Floating-point JSON numbers are not modelled. Object keys that are decimal integers are modelled only for key "0", the only one the parser reads.
- The database transaction around the upsert is not modelled, and neither is the persistence done by `updateOrCreate`. The upsert is recorded as a call with its two bags. The unused `$routeKey` argument is not modelled.
- `firstOrCreate` compares names by value equality. A database collation that folds case is not modelled.
- `WatchImageSyncAction` is recorded as a call, because its code is not part of this model. So is the `Location::DEFAULT_COUNTRY` constant, which is an optional parameter. `generateSKU` is a function parameter; its uniqueness logic is not part of this model.
- `Auth` is an optional user id and the public disk is a set of paths. Laravel's own behaviour of these is not modelled.
- WatchModel.IsDirty uses exact equality. Laravel's looser comparison of numeric and cast attributes is not modelled.
- The `date` cast on `cost_purchase_date` is not modelled. Emptiness is judged on the raw attribute. `now()` is the parameter `today`.
- The database does not promise an order for images that share an `order_index`. For ties the model keeps storage order, and WatchModel.OrderedIgnoresStorageOrder states what holds without ties.
- Deleting a `WatchImage` removes its id from a set. Any soft-delete or observer of the image model is not part of this model. The observer's `!$watch->images` guard and its `instanceof` test are always passed, so they have no counterpart.
- Loading of the `images` relation is not recorded. Loading of the `brand` relation is.
- The empty `created`, `updated`, `deleted`, `restored` and `forceDeleted` hooks have nothing to model.
- The `Watch` relations, the `whereStatus` scope and the `decimal:2` casts are framework declarations. So are `StoreWatchRequest` and `WatchResource`; none of them is modelled.
- `expectsJson` and `wantsJson` are booleans of the request, because Laravel's content negotiation is not part of this model. `json_decode` is a parameter. The JSON encoding of the forced data is not modelled. Neither are the `cache-control` and `date` headers Symfony adds.
- The `$next` closure of the middleware is replaced by the response it produced.
- EnvironmentService.ExecuteWithEnvironment: requires every name to be non-empty, free of `=` and unique. A PHP array cannot repeat a key. `putenv` rejects an empty name and splits a name at `=`.
- EnvironmentService.ExecuteWithEnvironment: integer keys and non-string values are not modelled. The string-typed setter would raise a TypeError for them. Non-string `$_SERVER` entries are not modelled either; the service never reads them.
- `isProduction`, `isLocal` and `getEnvironment` only ask the framework for its environment name, so they are not modelled.

## Findings

| source | as written | input that shows it | evidently intended | confidence | as-written member | corrected member |
|---|---|---|---|---|---|---|
| app/Services/DhlTrackingService.php:22 | `$apiKey` is a typed readonly property that nothing assigns. `makeApiRequest` reads it at line 33, which raises an Error before any request is built. An Error is not an Exception, so neither catch clause sees it. | `getTrackingInfo("1234567890")` | the key comes from configuration, and one request is sent and classified | high; not executed | DhlTrackingService.GetTrackingInfoAsWritten (with DhlTrackingService.UninitialisedKeyBlocksEveryRequest) | DhlTrackingService.GetTrackingInfo |
