# Chiral Connector, modelled in Dafny

Chiral Connector is a WordPress plugin. It makes a site a *node* of a Chiral
network: the node pushes its posts to a *Hub* site, keeps each post's Hub ID
in post meta, retries failed sends from WP-Cron, and shows related content
that the Hub finds for each post. A site may itself be the Hub ("Hub mode"),
in which case nothing is pushed.

This project models the decision logic of that plugin and proves what it
does. WordPress appears as a small store:

- `Wp.Store` is the CMS. It holds the options table (with transients stored
  as `_transient_<key>` and `_transient_timeout_<key>` rows, as WordPress
  stores them), the post meta, the posts, the scheduled cron events and the
  log of HTTP requests sent.
- The Hub is an oracle `hub: nat -> HttpReply`: the reply to the n-th request
  the site sends. A reply is a transport error or a status code with a
  decoded body.
- PHP's values (`Php.PhpValue`) are modelled with `empty()`, truthiness,
  `isset`, `intval`, `absint` and `strval` written out, because the plugin's
  checks depend on them.
- Library functions whose behaviour is not part of the plugin (`md5`,
  `esc_url_raw`, `sanitize_text_field`, `esc_attr`, URL validation,
  `get_permalink`, JSON decoding of a metadata value) are the fields of a
  `Wp.Lib` value passed as a parameter.

Modules:

| module | models |
|---|---|
| `Php` | PHP values and conversions |
| `Wp` | the store, requests, replies, transients |
| `Api` | `Chiral_Connector_Api`: endpoints, reply classification, the paginated ID listing, related-post assembly |
| `Sync` | `Chiral_Connector_Sync`: the per-post push, deletion, retries and the batch sync |
| `Admin` | `Chiral_Connector_Admin`: settings sanitising, the "Send to Chiral?" save, the post-list column, the batch trigger lock, quitting the network |
| `Display` | `Chiral_Connector_Display`: the content filter, placeholder, shortcode and the cached AJAX handler |
| `Core` | `Chiral_Connector_Core`: version fallback, sync hook selection, the node status record |
| `Utils` | `Chiral_Connector_Utils`: logging gate, `get_setting`, the generated node ID |
| `Activator`, `Deactivator` | activation defaults, deactivation and the full clean-up |
| `PublicJs` | the front-end script: escaping, URL encoding, item rendering, the ready handler's guard and subtitle |

The state-changing PHP functions are methods on the store, each proved equal
to a pure function of the old state; the properties are lemmas about those
functions.

## Model

| member | source | states |
|---|---|---|
| Sync.PushBehaviour | includes/class-chiral-connector-sync.php:204-246 | A push sends an update to the stored Hub ID, or a create when there is none. A second request is sent exactly when the Hub rejects a stored ID as stale, and that request is a create. A stored result is the ID the Hub returned. After a stale rejection the old ID is gone even if the create fails. Other failures leave the meta unchanged. Only the post's Hub ID and the request log change. Sync.PushOutcome ties the result to the replies. |
| Sync.PushStoresReturnedId | includes/class-chiral-connector-sync.php:204-242 | A first send answered 2xx with an `id` makes that id the result and the stored Hub ID, whatever was stored before. |
| Sync.PushOutcome | includes/class-chiral-connector-sync.php:204-246 | The result follows from the Hub's replies. It is Failed exactly when the first send fails and is not a stale-ID rejection, or is one and the re-create fails too. It is NoId exactly when the accepted send's answer has no `id`. A re-create answered 2xx with an `id` makes that id the result and the stored Hub ID. |
| Sync.PushToHub | includes/class-chiral-connector-sync.php:205-246 | The imperative push leaves the store and returns the result given by the push function. |
| Sync.ScheduleRetryBounded | includes/class-chiral-connector-sync.php:336-355 | Scheduling adds at most one event, for this post and action, numbered counter+1 and never above 3, and then the counter holds that number. At count ≥ 3 it adds nothing and clears the counter. An event already waiting is not added twice. Nothing is sent and no other meta changes. |
| Sync.ScheduleRetrySync | includes/class-chiral-connector-sync.php:336-355 | The method's new state is the scheduling function's. |
| Sync.SyncPostBehaviour | includes/class-chiral-connector-sync.php:145-247 | An ineligible post leaves the state unchanged. An eligible one sends one or two requests. Only the Hub ID and the retry counter change. The only events added are 'send' retries of this post. A failed push below the cap schedules the 'send' retry numbered one past the counter. At the cap it adds no event and clears the counter. A push that does not fail adds no event. |
| Sync.OptedOutPostIsNotSent | includes/class-chiral-connector-sync.php:145-181 | In Hub mode, with the flag 'no', or with any of hub_url/username/app_password/node_id empty, sync_post_to_hub changes nothing. |
| Sync.SyncPostToHub | includes/class-chiral-connector-sync.php:145-247 | The method's new state is the sync function's. |
| Sync.OnPublish | includes/class-chiral-connector-sync.php:94-108 | Only a published `post` that is not a revision or autosave is synced; everything else is left alone. |
| Sync.OnPublishPost | includes/class-chiral-connector-sync.php:94-108 | The hook method's new state is OnPublish's. |
| Sync.OnSave | includes/class-chiral-connector-sync.php:118-137 | A save syncs only when it is an update, and then exactly as the publish hook does. |
| Sync.OnSavePost | includes/class-chiral-connector-sync.php:118-137 | The hook method's new state is OnSave's. |
| Sync.OnTrash | includes/class-chiral-connector-sync.php:255-261 | Trashing something other than a `post` changes nothing. For a `post`, and for an ID with no post, it does what the delete hook does. |
| Sync.OnTrashPost | includes/class-chiral-connector-sync.php:255-261 | The hook method's new state is OnTrash's. |
| Sync.OnDeletePost | includes/class-chiral-connector-sync.php:270-278 | The delete hook's new state is the Hub deletion's. |
| Sync.DeleteBehaviour | includes/class-chiral-connector-sync.php:286-326 | One DELETE for the stored Hub ID is sent exactly when not in Hub mode, the ID is non-empty and the credentials are set; otherwise nothing changes. A 200/204 removes the ID and schedules nothing. Any other reply keeps the ID, and any event added is a 'delete' retry of this post carrying that ID. Below the cap, that retry, numbered one past the counter, is scheduled. |
| Sync.DeletePostFromHub | includes/class-chiral-connector-sync.php:286-326 | The method's new state is the deletion function's. |
| Sync.SendDeleteRequest | includes/class-chiral-connector-sync.php:305-325 | The method's new state is the shared DELETE-and-follow-up function's. |
| Sync.DeleteRetryIgnoresHubMode | includes/class-chiral-connector-sync.php:366-392 | A delete retry sends its DELETE even in Hub mode, where delete_post_from_hub would send nothing. |
| Sync.FirstRetryComesBack | includes/class-chiral-connector-sync.php:336-371 | As written, running the first 'send' retry against a Hub that always fails puts the same attempt-1 event back, with the counter at 1. |
| Sync.SendRetryChainNeverEnds | includes/class-chiral-connector-sync.php:336-371 | As written, after any number of runs of that retry, the attempt-1 event is waiting again, so the three-retry cap never ends the chain. |
| Sync.CountedRetryStep | includes/class-chiral-connector-sync.php:336-392 | With the counter set to the attempt being run, attempt a can only add attempt a+1 of the same post, and only while a < 3. |
| Sync.CountedRetryRunsOn | includes/class-chiral-connector-sync.php:336-371 | With the corrected counter and a Hub that always fails, running attempt a, the post's only waiting retry, leaves only attempt a+1 waiting while a < 3, and nothing at a = 3. |
| Sync.CountedRetryChainEnds | includes/class-chiral-connector-sync.php:336-371 | With the corrected counter, a chain that starts with attempt 1 as the post's only retry has only attempt k+1 waiting after k < 3 runs against a failing Hub, and nothing waiting after the third run. |
| Sync.HandleRetrySyncEvent | includes/class-chiral-connector-sync.php:366-392 | The retry handler's new state is the corrected handler's (see Findings). |
| Sync.PerPage | includes/class-chiral-connector-sync.php:416-419 | The page size is always positive. It is the setting when that is a positive integer, and 20 when the setting is unset or at most 0. |
| Sync.QueryPage | includes/class-chiral-connector-sync.php:427-433 | A page holds at most posts_per_page IDs, and is empty exactly when it starts past the end. |
| Sync.PageStart | includes/class-chiral-connector-sync.php:427-433 | A page that is not past the end starts at (paged-1)·per_page. |
| Sync.BatchTotals | includes/class-chiral-connector-sync.php:459-561 | Each post is counted at most once, as synced or as an error; the totals only grow. The batch schedules no retries and only Hub IDs change in the meta. Without credentials, every post not marked 'no' is an error and nothing is sent. |
| Sync.BatchSyncOne | includes/class-chiral-connector-sync.php:463-561 | One post of the batch leaves the state and counts given by the per-post batch function. |
| Sync.BatchSyncStep | includes/class-chiral-connector-sync.php:463-561 | The inner loop body extends the batch run by one post. |
| Sync.BatchSyncPage | includes/class-chiral-connector-sync.php:463-561 | A page adds its posts to the batch run, in ID order. |
| Sync.LockKeepsSettings | includes/class-chiral-connector-sync.php:410-585 | Taking the batch lock does not touch the settings, and deleting it afterwards leaves the options as deleting it alone would. |
| Sync.BatchSyncPosts | includes/class-chiral-connector-sync.php:398-587 | The lock transient is gone afterwards. In Hub mode nothing else changes and all counts are 0. Otherwise the state and counts are the batch run over every published, not-opted-out post in ID order, processed equals the number of those posts, and synced + errors ≤ processed. |
| Api.RTrimSlash | includes/class-chiral-connector-api.php:68-74 | The result is a prefix of the URL that does not end in '/', and only slashes were removed. |
| Api.EndpointSelectsCreateOrUpdate | includes/class-chiral-connector-api.php:68-74 | An empty Hub ID gives the collection endpoint (create); a non-empty one appends `/<id>` (update). The base never ends in '/'. |
| Api.EndpointIgnoresTrailingSlashes | includes/class-chiral-connector-api.php:68-74 | Any number of trailing slashes on the Hub URL gives the same endpoint. |
| Api.SendOutcome | includes/class-chiral-connector-api.php:86-123 | A send succeeds exactly on a 2xx reply, with the decoded body. Other replies are errors carrying the body. |
| Api.DeleteOutcome | includes/class-chiral-connector-api.php:147-166 | A delete succeeds exactly on 200 or 204. |
| Api.DeleteSuccessIsSendSuccess | includes/class-chiral-connector-api.php:97-155 | Every delete success is a send success, but a 201 is a send success and a delete failure. |
| Api.PingOutcome | includes/class-chiral-connector-api.php:563-587 | The connection test succeeds exactly on a 2xx reply. |
| Api.SendDataToHub | includes/class-chiral-connector-api.php:67-124 | Sends one request to the create/update endpoint and returns the reply's classification. |
| Api.DeleteDataFromHub | includes/class-chiral-connector-api.php:136-167 | Sends one DELETE to the item endpoint and returns the reply's classification. |
| Api.TestHubConnection | includes/class-chiral-connector-api.php:551-588 | Sends one ping and returns its classification. |
| Api.IdsOf | includes/class-chiral-connector-api.php:660-664 | A page yields at most one ID per item, and never a null one. |
| Api.LastPage | includes/class-chiral-connector-api.php:629-669 | The page that ends the listing is an error exactly when it is not a 2xx reply. |
| Api.ListingCollectsInPageOrder | includes/class-chiral-connector-api.php:611-674 | The listing is the IDs of the full pages in page order, followed by the last page's; an error on the last page discards everything collected. |
| Api.ListingDone | includes/class-chiral-connector-api.php:643-669 | Once a page ends the listing (error, empty or short of 100), the loop has listed exactly those pages. |
| Api.CollectPageIds | includes/class-chiral-connector-api.php:660-664 | The loop appends the page's IDs, in order, to those collected. |
| Api.ListPage | includes/class-chiral-connector-api.php:612-671 | One iteration requests the next page and either stops with the listing result or extends the collected IDs. |
| Api.ListAllPages | includes/class-chiral-connector-api.php:611-672 | The loop requests pages 1, 2, … until one ends the listing, and returns the listing result for those replies. |
| Api.GetAllNodeDataIds | includes/class-chiral-connector-api.php:600-675 | An empty user ID is an error with no request. Otherwise the pages are listed as above. |
| Api.RelatedHitsOutcome | includes/class-chiral-connector-api.php:424-480 | A 2xx reply with an array `hits` maps to results = hits and total = `total`, or the count of hits. A 2xx reply without one gives no results and total 0. Anything else is an error. |
| Api.DetailsOutcome | includes/class-chiral-connector-api.php:512-539 | Details are returned exactly for a 2xx reply with a non-empty body. |
| Api.ItemsToPhp | includes/class-chiral-connector-api.php:346-356 | The items become a PHP list of the same length. |
| Api.Items | includes/class-chiral-connector-api.php:346-356 | One item is built per post whose details were found. |
| Api.EntryOtherUrls | includes/class-chiral-connector-api.php:269-295 | A metadata entry yields an other_URLs source only when it is non-empty. |
| Api.OtherUrlsSource | includes/class-chiral-connector-api.php:269-295 | A decoded other_URLs value yields its `source` only when that is non-empty. |
| Api.EntryFor | includes/class-chiral-connector-api.php:291-337 | A metadata entry yields a chiral_source_url or chiral_network_name value only when it is non-empty. |
| Api.FirstOtherUrls | includes/class-chiral-connector-api.php:269-295 | The scan's other_URLs source is non-empty when found. |
| Api.FirstFor | includes/class-chiral-connector-api.php:269-340 | The first value found under a key is non-empty. |
| Api.FirstForIsFirst | includes/class-chiral-connector-api.php:269-340 | A value is found exactly when some entry offers one under the key, and it is the earliest such entry's value. |
| Api.ScanMetadataSourceUrl | includes/class-chiral-connector-api.php:269-295 | The `foreach … break` scan stops at the first usable other_URLs source and otherwise keeps the first chiral_source_url. |
| Api.ScanNetworkName | includes/class-chiral-connector-api.php:323-340 | The scan returns the first non-empty network name, or ''. |
| Api.ItemUrlPrefersMetadata | includes/class-chiral-connector-api.php:265-318 | A valid other_URLs source wins over every chiral_source_url. Without one, a valid first chiral_source_url is used. A valid metadata URL is used. The REST `meta` object is consulted only when the metadata list gives nothing, and its URL is used when valid. With neither valid, the link is the Hub's `URL`, or '#'. |
| Api.ChooseItemUrl | includes/class-chiral-connector-api.php:265-318 | The URL the metadata scan picks is the item URL of the definition: a valid metadata source, else a valid REST `meta` source, else the Hub's `URL` or '#'. |
| Api.ChooseNetworkName | includes/class-chiral-connector-api.php:321-344 | The network name picked is the definition's: the first non-empty chiral_network_name in the metadata list, else the REST `meta` object's, else empty. |
| Api.BuildItem | includes/class-chiral-connector-api.php:264-356 | The imperative item assembly builds the same item as the pure definition. |
| Api.FetchDetails | includes/class-chiral-connector-api.php:251-369 | At most one details request per hit, all to the Hub's WordPress.com site, and at most one item per request. |
| Api.FetchStep | includes/class-chiral-connector-api.php:251-369 | A hit adds at most one request, to its `fields.post_id`, and at most one item, whose details are non-empty. |
| Api.FetchOne | includes/class-chiral-connector-api.php:251-369 | One iteration extends the items and the requests as the fetch function does. |
| Api.FetchAllDetails | includes/class-chiral-connector-api.php:251-369 | The loop's items and requests are the fetch function's. |
| Api.RelatedFromHub | includes/class-chiral-connector-api.php:234-374 | The first request asks for related IDs. Its failure is the only error. There are fewer items than requests, and no more items than hits. Every later request is a details request to the same site. A reply with no hits gives an empty list after that one request. |
| Api.FetchRelated | includes/class-chiral-connector-api.php:234-374 | The method's result and requests are RelatedFromHub's. |
| Api.RelatedData | includes/class-chiral-connector-api.php:181-375 | A missing hub_url, an unparseable host and a missing node post are, in that order, errors with no request. A configured post with no Hub ID gives an empty list and no request. Otherwise the outcome is RelatedFromHub's. Items never outnumber the requests. |
| Api.GetRelatedData | includes/class-chiral-connector-api.php:181-375 | The method's result and requests are RelatedData's. |
| Admin.SanitizedKeys | admin/class-chiral-connector-admin.php:293-350 | The sanitised record holds only whitelisted keys. |
| Admin.SanitizedLookup | admin/class-chiral-connector-admin.php:293-350 | Each key of the record is the sanitised value of that key, and nothing else is present. |
| Admin.SanitizedCheckboxes | admin/class-chiral-connector-admin.php:311-350 | display_enable, enable_debug_logging and enable_cache are always present, and false when the form left them out. |
| Admin.SanitizedUserId | admin/class-chiral-connector-admin.php:305-356 | hub_user_id is absint of the input, else of the stored value, else absent. |
| Admin.SanitizedSentFields | admin/class-chiral-connector-admin.php:294-336 | The text fields and display_count are present exactly when the form sent them. |
| Admin.BuiltIsSanitized | admin/class-chiral-connector-admin.php:292-359 | Building the record key by key, then restoring hub_user_id, gives the sanitised record. |
| Admin.SanitizeConnection | admin/class-chiral-connector-admin.php:293-310 | The first block of the method builds the connection fields. |
| Admin.SanitizeDisplayEnable | admin/class-chiral-connector-admin.php:311-332 | display_enable is added, false when the form left it out. The disable time is written only on an on→off change, with a missing previous value counting as on. |
| Admin.SanitizeCountAndFlags | admin/class-chiral-connector-admin.php:333-348 | display_count is added only when sent; the two checkboxes are always added, false when left out. |
| Admin.SanitizeSettings | admin/class-chiral-connector-admin.php:292-359 | Returns the sanitised record, and writes the disable time exactly on an on→off change of display. |
| Admin.DisableShowsInNodeStatus | admin/class-chiral-connector-admin.php:311-333 | After a save that switches display off, the node status reports related articles disabled, with that save's time (the status is built at includes/class-chiral-connector-core.php:324-330). |
| Admin.NewSendFlagChoice | admin/class-chiral-connector-admin.php:889-895 | The new flag is 'yes' or 'no'. It is 'yes' exactly when the checkbox was sent or quick edit said 'yes'. |
| Admin.SaveSendFlagBehaviour | admin/class-chiral-connector-admin.php:838-946 | A save that passes the checks writes the new flag and no other meta. It sends one DELETE exactly when the previous flag was not 'no' (unset counts as 'yes'), the new flag is 'no', a Hub ID exists and the credentials are set. Otherwise it sends nothing. |
| Admin.UncheckingNewPostDeletes | admin/class-chiral-connector-admin.php:898-946 | Saving a synced post that never had a flag, with the box unchecked, deletes it from the Hub. |
| Admin.ResavingOptedOutPostSendsNothing | admin/class-chiral-connector-admin.php:919 | Saving a post already marked 'no' sends nothing. |
| Admin.SavedNoStopsSync | admin/class-chiral-connector-admin.php:916 | After a save that writes 'no', sync_post_to_hub leaves the post alone and the column shows 'no' (sync.php:165, admin.php:991). |
| Admin.SaveGuardsPass | admin/class-chiral-connector-admin.php:838-883 | The sequence of early returns lets the save through exactly when every condition of the save predicate holds. |
| Admin.WriteSendFlagData | admin/class-chiral-connector-admin.php:889-947 | The method writes the new flag and sends the DELETE the write function names, and changes nothing else. |
| Admin.SaveChiralSendMetaboxData | admin/class-chiral-connector-admin.php:838-947 | The method's new state is the save function's. |
| Admin.SendColumnAfterTitle | admin/class-chiral-connector-admin.php:956-963 | With a `title` column, ours is inserted right after it and every other column keeps its place. |
| Admin.SendColumnBeforeDate | admin/class-chiral-connector-admin.php:965-973 | Without `title` but with `date`, ours is inserted right before `date`. |
| Admin.SendColumnLast | admin/class-chiral-connector-admin.php:974-976 | With neither, ours is appended. |
| Admin.AddChiralSendColumn | admin/class-chiral-connector-admin.php:956-978 | The loops build the column list the definition gives. |
| Admin.ColumnStatus | admin/class-chiral-connector-admin.php:991 | The status is 'yes' or 'no', and 'no' exactly when the flag is stored as 'no'. |
| Admin.ColumnMatchesSyncFlag | admin/class-chiral-connector-admin.php:991 | For a configured node, the column shows 'yes' exactly when sync_post_to_hub would send the post (sync.php:165). |
| Admin.RenderSendColumn | admin/class-chiral-connector-admin.php:987-996 | Other columns print nothing. Ours prints the status span, ending in "No" exactly when the flag is 'no' and in "Yes" otherwise. |
| Admin.TriggerBehaviour | admin/class-chiral-connector-admin.php:617-650 | Hub mode and a held lock refuse and change nothing. A success schedules the batch event and holds the lock for an hour. A failed schedule gives the lock back. |
| Admin.SecondTriggerRefused | admin/class-chiral-connector-admin.php:628-646 | A second trigger within the hour after a successful one is refused. |
| Admin.BatchEndReopensTrigger | admin/class-chiral-connector-admin.php:628 | After the batch deletes the lock (sync.php:585), a trigger succeeds again. |
| Admin.TriggerBatchSync | admin/class-chiral-connector-admin.php:617-650 | The method's outcome and new state are the trigger function's. |
| Admin.MissingFields | admin/class-chiral-connector-admin.php:683-689 | At most four fields are missing. |
| Admin.MissingFieldsListed | admin/class-chiral-connector-admin.php:683-689 | A field is listed exactly when it is empty, in the fixed order hub_url, username, app_password, hub_user_id; none is listed exactly when all are set. |
| Admin.DeletionsAddUp | admin/class-chiral-connector-admin.php:721-737 | deleted + errors equals the number of IDs. Each error is recorded with its ID. There are no errors exactly when every DELETE succeeded. |
| Admin.DeleteOneItem | admin/class-chiral-connector-admin.php:726-737 | One iteration sends one DELETE and updates the counts as the definition does. |
| Admin.DeleteNodeData | admin/class-chiral-connector-admin.php:726-737 | The loop sends one DELETE per ID, in order, with the counts of the definition. |
| Admin.DeleteAndClear | admin/class-chiral-connector-admin.php:726-767 | After the deletions the local data is cleared, whatever the deletions came to. |
| Admin.QuitListed | admin/class-chiral-connector-admin.php:709-767 | A failed listing is reported and changes nothing locally. A listing deletes every ID, then clears the local data. |
| Admin.QuitConnected | admin/class-chiral-connector-admin.php:709-767 | The listing requests, then the DELETEs, then the clean-up, with the outcome given by the definitions. |
| Admin.QuitPreflight | admin/class-chiral-connector-admin.php:666-696 | Missing settings stop with NoSettings. Settings with an empty field stop with the listed missing fields. Otherwise the quit goes on, and the Hub user ID is set. |
| Admin.QuitNetwork | admin/class-chiral-connector-admin.php:658-787 | No settings, or missing fields, are reported with nothing changed. Otherwise the quit proceeds as above. |
| Core.Version | includes/class-chiral-connector-core.php:56-61 | The defined version constant, else '1.0.0'. |
| Core.Loader.AddAction | includes/class-chiral-connector-core.php:228-239 | A registration is appended to the loader's actions. |
| Core.SyncHooks | includes/class-chiral-connector-core.php:219-240 | The retry hook is always registered, last. |
| Core.SyncHooksSelected | includes/class-chiral-connector-core.php:219-240 | The loader's publish/trash registrations are made exactly when settings is an array and the flag is non-empty. The delete hook goes with the trash hook. |
| Core.DefineSyncHooks | includes/class-chiral-connector-core.php:219-240 | The method appends exactly the selected hooks. |
| Core.NodeStatusOf | includes/class-chiral-connector-core.php:317-340 | Reports the version, time and site URL. Display counts as enabled unless set false. The last-disabled time is null while enabled and the stored time otherwise. |
| Utils.GetSetting | includes/class-chiral-connector-utils.php:45-53 | No key gives the whole record; a missing key gives the default. |
| Utils.LogMessage | includes/class-chiral-connector-utils.php:18-31 | A line is emitted exactly when logging is enabled. |
| Utils.LogGate | includes/class-chiral-connector-utils.php:18-25 | When set, only a strict `true` enables logging, even with WP_DEBUG. When unset, WP_DEBUG decides. |
| Utils.LogLineFormat | includes/class-chiral-connector-utils.php:26-31 | The line is '[', then exactly Upper(level), which has no lower-case ASCII letter, then the plugin tag, then the message. |
| Utils.GenerateNodeId | includes/class-chiral-connector-utils.php:73-75 | 'node_' followed by the hash of the site URL, never empty. |
| Activator.SetField | includes/class-chiral-connector-activator.php:61-71 | Setting a key changes that key and no other. |
| Activator.DefaultSettingsKeys | includes/class-chiral-connector-activator.php:43-56 | The default record has exactly the twelve keys of the default array. |
| Activator.DefaultSettingsConnectionValues | includes/class-chiral-connector-activator.php:44-46 | The Hub URL and API key default to empty and the node ID to the generated one. |
| Activator.DefaultSettingsSyncValues | includes/class-chiral-connector-activator.php:47-49 | Both sync switches default to on, and the batch page size to 20. |
| Activator.DefaultSettingsDisplayValues | includes/class-chiral-connector-activator.php:50-55 | Related posts are shown by default, with the title "Related Content", 5 posts and the text "Loading related posts...". Display and the cache are on. |
| Activator.FreshActivationDefaults | includes/class-chiral-connector-activator.php:41-57 | With nothing stored, the record written is exactly the default record: a generated node ID, cache, display and both sync switches on, 20 per batch page. |
| Activator.ActivationMerges | includes/class-chiral-connector-activator.php:58-75 | node_id is filled only when empty, and enable_cache/display_enable only when unset. Every other key is kept. |
| Activator.ActivatedIsComplete | includes/class-chiral-connector-activator.php:42-75 | After activation the record has a node ID and both switches. |
| Activator.ActivationIdempotent | includes/class-chiral-connector-activator.php:58-75 | Activating twice leaves the options as activating once. |
| Activator.Activate | includes/class-chiral-connector-activator.php:33-80 | Writes the activated record and schedules the hourly retry hook if it is not already scheduled. |
| Deactivator.CacheRowsMatch | includes/class-chiral-connector-deactivator.php:72-75 | Every related-cache transient row and its timeout row match the LIKE patterns. |
| Deactivator.LikeIsLooserThanPrefix | includes/class-chiral-connector-deactivator.php:72-75 | `_` is a LIKE wildcard, so a row that does not start with the cache prefix is deleted too. |
| Deactivator.LockIsNotCacheValue | includes/class-chiral-connector-deactivator.php:72-75 | The batch lock row does not match the cache value pattern. |
| Deactivator.LockIsNotCacheTimeout | includes/class-chiral-connector-deactivator.php:72-75 | The batch lock row does not match the cache timeout pattern. |
| Deactivator.BatchLockSurvives | includes/class-chiral-connector-deactivator.php:72-75 | The clean-up keeps the batch lock row. |
| Deactivator.ClearedOptionsEffect | includes/class-chiral-connector-deactivator.php:59-76 | After the clean-up no cache entry is readable, both plugin options are gone and a held batch lock is kept. |
| Deactivator.Deactivate | includes/class-chiral-connector-deactivator.php:32-37 | Deactivation only unschedules the retry hook. |
| Deactivator.ClearAllPluginData | includes/class-chiral-connector-deactivator.php:59-78 | Deletes the rows above and unschedules the retry hook. |
| Display.AppendRelatedPosts | includes/class-chiral-connector-display.php:73-94 | The content is always a prefix of the result. It is returned unchanged exactly when the page is not a single main-query post, display is off, or the post is opted out. Otherwise the placeholder follows it. |
| Display.PlaceholderFor | includes/class-chiral-connector-display.php:103-148 | No post gives the missing-post comment. In node mode a missing node_id or hub_url gives the configuration comment. In Hub mode the container uses the home URL, with node_id defaulting to 'hub-local'. |
| Display.FilterPlaceholder | includes/class-chiral-connector-display.php:103-148 | The placeholder is never empty. |
| Display.ShortcodeCount | includes/class-chiral-connector-display.php:173-179 | The count attribute when given, else display_count, else 5. |
| Display.RenderShortcode | includes/class-chiral-connector-display.php:157-222 | The shortcode is empty exactly when display is off or the post is opted out. |
| Display.ShortcodeAgreesWithFilter | includes/class-chiral-connector-display.php:73-222 | On a single main-query post, the filter appends exactly when the shortcode renders. Both ask for the same placeholder unless the shortcode sets its own count. |
| Display.UncheckedPostShowsNothing | includes/class-chiral-connector-display.php:73-94 | After saving a post with the box unchecked (admin.php:889-916), neither the filter nor the shortcode shows related posts. |
| Display.UncheckedDisplayHidesRelated | includes/class-chiral-connector-display.php:73-94 | Saving the settings without the display box (admin.php:311-350) hides related posts everywhere. |
| Display.ActivatedSiteShowsRelated | includes/class-chiral-connector-display.php:73-94 | After activation (activator.php:41-75), single posts show the placeholder unless display was already stored off. |
| Display.CacheKey | includes/class-chiral-connector-display.php:270-275 | The cache key starts with the related-cache prefix. |
| Display.CacheHit | includes/class-chiral-connector-display.php:276-287 | A hit is a readable, unexpired transient whose value is not `false`. |
| Display.FetchRelatedPosts | includes/class-chiral-connector-display.php:233-329 | Missing parameters, then missing node credentials, are errors. With the cache on, a hit is returned with no request. Error replies pass the API's error through, and successes its items. The options change only to cache a non-empty result, for 12 hours, with the cache on. |
| Display.CacheRowsAreNotSettings | includes/class-chiral-connector-display.php:270-319 | A cache row is never the settings row. |
| Display.StoredUntilExpiry | includes/class-chiral-connector-display.php:319 | A value stored for 12 hours reads back until it expires. |
| Display.RepeatIsServedFromCache | includes/class-chiral-connector-display.php:270-326 | After a non-empty fetch with the cache on, the same request within 12 hours gets the same items from the cache and sends nothing. |
| Display.OnlyItemsAreCached | includes/class-chiral-connector-display.php:305-326 | Errors, empty answers and everything with the cache off leave the options alone. With the cache off nothing is served from it. |
| Display.ClearedCacheMisses | includes/class-chiral-connector-display.php:276-287 | After clear_all_plugin_data no request is answered from the cache (deactivator.php:70-76). |
| Display.AjaxFetchRelatedPosts | includes/class-chiral-connector-display.php:233-329 | The handler's outcome, options and requests are the definition's. |
| PublicJs.EscapeHtml | public/assets/js/chiral-connector-public.js:17-25 | Anything but a string escapes to ''. |
| PublicJs.EscapeHtmlIsSafe | public/assets/js/chiral-connector-public.js:17-25 | The output has no `<`, `>`, `"` or `'`, and every `&` starts one of the five entities. |
| PublicJs.EscapeHtmlRoundTrip | public/assets/js/chiral-connector-public.js:17-25 | Unescaping the output gives the input back. |
| PublicJs.EscapeChainIsPerChar | public/assets/js/chiral-connector-public.js:17-25 | Because `&` is replaced first, the chain of replaces equals escaping each character on its own. |
| PublicJs.EncodeUriPath | public/assets/js/chiral-connector-public.js:27-32 | Anything but a string encodes to ''. |
| PublicJs.EncodeUriPathIsSafe | public/assets/js/chiral-connector-public.js:27-32 | No space, `"` or `'` is left. |
| PublicJs.EncodeUriPathKeepsSafeUrls | public/assets/js/chiral-connector-public.js:27-32 | A URL without those characters is left unchanged. |
| PublicJs.FindSourceMeta | public/assets/js/chiral-connector-public.js:43-45 | Finds the first entry keyed chiral_source_url: every earlier entry has another key. It finds none exactly when there is none. |
| PublicJs.ItemSourceUrlPriority | public/assets/js/chiral-connector-public.js:39-49 | The link is the post's non-blank `url`, else the first chiral_source_url entry's value when truthy. Otherwise it is '#', also when that first entry's value is falsy, whatever later entries hold. |
| PublicJs.ChooseSourceUrl | public/assets/js/chiral-connector-public.js:39-49 | The script's assignments give the same link. |
| PublicJs.SourceLabelPriority | public/assets/js/chiral-connector-public.js:65-86 | The label is the author unless absent or 'N/A'; else, for a Hub `/chiral_data/` URL, the Hub host with ' (Hub)', or 'Chiral Hub' when the Hub URL does not parse; else the source host, or no label when it does not parse; else no label. |
| PublicJs.ChooseSourceLabel | public/assets/js/chiral-connector-public.js:65-91 | The script's branches give the same label. |
| PublicJs.AppendThumbnail | public/assets/js/chiral-connector-public.js:51-57 | Appends the thumbnail block, present only when there is an image. |
| PublicJs.AppendHeading | public/assets/js/chiral-connector-public.js:58-59 | Appends the linked, escaped title. |
| PublicJs.RenderRelatedPostItem | public/assets/js/chiral-connector-public.js:35-96 | The `+=` accumulation gives the list item of the definition. |
| PublicJs.ReadCount | public/assets/js/chiral-connector-public.js:108 | The count is never 0: NaN and 0 both give 5. |
| PublicJs.CountSurvivesPage | public/assets/js/chiral-connector-public.js:108 | A count printed by the placeholder (display.php:140-147) reads back as itself, with 0 read as 5. |
| PublicJs.ReadyAction | public/assets/js/chiral-connector-public.js:98-130 | No container does nothing. A missing post URL or node ID shows the configuration error and sends no request. Otherwise the request carries them and the count. |
| PublicJs.SiteIdentifier | public/assets/js/chiral-connector-public.js:137-141 | The Hub host when the Hub URL is set and parses, '' otherwise. |
| PublicJs.DefaultNetworkName | public/assets/js/chiral-connector-public.js:133 | The default subtitle name is never empty. |
| PublicJs.DefaultTextsNetworkName | public/assets/js/chiral-connector-public.js:6-14 | With the default texts it is "From Chiral Network:". |
| PublicJs.SubtitleName | public/assets/js/chiral-connector-public.js:133-158 | The subtitle name is never empty. |
| PublicJs.SubtitleNameDefault | public/assets/js/chiral-connector-public.js:134-158 | With no non-blank first-post name and no site identifier, the subtitle is the default text's name. |
| PublicJs.SubtitleNamePriority | public/assets/js/chiral-connector-public.js:133-158 | The first post's non-blank network name, else the Hub host. With neither, whenever the site identifier is empty, it is the default text's name. |
| PublicJs.SubtitleNameFailedUnconfigured | public/assets/js/chiral-connector-public.js:133-158 | A failed request on a page with no Hub URL shows the default text's name. |
| PublicJs.BlankIsAllSpace | public/assets/js/chiral-connector-public.js:150 | A string trims to '' exactly when every character is JavaScript white space. |
| PublicJs.NonBlankHasContent | public/assets/js/chiral-connector-public.js:150 | `trim() !== ''` exactly when some character is not white space. |

## Left out

- HTTP transport, JSON decoding and the Basic-auth headers. Each reply is the oracle's value for that request; the request records the endpoint and what it is for, not its headers or body.
- WordPress hook dispatch and the loader's internals. The loader is modelled only as the list of registrations `define_sync_hooks` appends. The loader class is not part of this model.
- Callback names in core.php that the shown classes do not define (`sync_post_on_publish_or_update`, `delete_post_from_hub_on_trash`, `ajax_batch_sync`). The model registers hook names and does not resolve callbacks.
- Hub mode is a parameter of the model (`hubMode`). Sync reads it from `$chiral_connector_core->is_hub_mode()` (includes/class-chiral-connector-sync.php:147-148). No file of this model defines that method or sets that global, and chiral-connector.php:57-58 keeps the core in a local `$plugin`. Sync treats the site as a node when that global is unset or lacks the method, which the model covers with the flag false. How Hub mode is decided is not modelled.
- Cron timing. A scheduled event is an element of a set, and the five-minute retry delay and the hourly schedule are left out. When an event runs is up to the caller of its handler.
- Nonce and capability checks in Admin.SaveChiralSendMetaboxData: the nonce, autosave and capability flags are booleans of the request, so its early returns are modelled but not how WordPress decides them.
- Admin.TriggerBatchSync, Admin.QuitPreflight, Admin.QuitNetwork, Display.AjaxFetchRelatedPosts: each models its AJAX handler after the handler's checks have passed. The nonce checks (`check_ajax_referer`, admin/class-chiral-connector-admin.php:618 and 659, includes/class-chiral-connector-display.php:234) are left out. So is the `manage_options` check of quitting the network (admin/class-chiral-connector-admin.php:661-664), which answers 403 and deletes nothing. The model deletes the Hub data and clears the settings for any caller.
- `deactivate_plugins` at the end of quitting the network, the JSON replies, HTML messages and translations (`esc_html__`).
- `wp_unslash`, the `WP_Query` paging internals, and `url_to_postid`/`is_singular`. The node post of the fetch handler is a parameter.
- Display.CacheKey: `md5` is an uninterpreted function. The model does not assume it is free of collisions, so the cache lemmas speak of a repeat of the same request.
- Sync.BatchSyncPosts: the posts the query returns are given as an ID list that the requires clause ties to the published, not-opted-out posts. The DB query itself is not modelled.
- Api.GetAllNodeDataIds, Api.ListAllPages, Admin.QuitConnected, Admin.QuitNetwork: each requires that some later reply ends the listing. As written, a Hub that keeps returning full pages would make the PHP loop run forever.
- Admin.SendColumnAfterTitle, Admin.SendColumnBeforeDate, Admin.SendColumnLast: these require that the list does not already contain our column. A list that does is modelled by Admin.AddChiralSendColumn, but only its definition describes the result.
- The settings page renderers, the admin script, `render_related_posts_html` and the bootstrap file are not part of this model. `Utils::sanitize_url` is not part of this model either.
- Activator: a stored settings value that is anything but a string-keyed array is patched as if it were an empty array. A PHP list is turned into a one-key map, and its elements are lost where PHP keeps them. What PHP does with such values is not modelled.
- Front-end script: jQuery, the DOM and the AJAX call are left out. Also left out are `.data()`'s type conversion (the attribute is given as a value), floating-point numbers, and `$` patterns in `replace`. The handler's assembly of the list HTML is left out too.
- Front-end script: `new URL(...).hostname` is a parameter function returning no value when the URL throws.
- Core.SyncHooksSelected: the flags gate only the loader's extra registrations. The Chiral_Connector_Sync constructor that `define_sync_hooks` runs (core.php:220) calls `add_action` itself, unconditionally, for publish_post, save_post, wp_trash_post, delete_post and the batch hook (sync.php:55-56, 77-84). Those direct registrations are not recorded, so the model does not capture that posts sync and trashed posts are deleted whatever `sync_on_publish` and `sync_on_trash` say.
- Php.Elements: a `foreach` over a string-keyed array (a JSON object) visits nothing in the model, while PHP visits its values in insertion order, because a `map` has no order. For such bodies Api.PageIds, Api.LastPage, Api.ListPage and Api.ListingDone see no IDs while `Count` still counts the members, and Api.RelatedHitsOutcome (`hits`) and Api.MetadataOf (`metadata`) see no entries.
- Front-end script: the TypeErrors the script throws on ill-typed Hub data are not modelled. In each case the success handler stops with the loading message still shown. PublicJs.SubtitleName: a truthy non-string `network_name` makes `.trim()` throw (js:150), where the model falls back to the host or the default text. PublicJs.FindSourceMeta: a `null` or `undefined` metadata entry before the match makes `meta.key` throw (js:44), where the model skips it. PublicJs.IsHubUrl: a truthy `url` with no `indexOf` (a number, boolean or plain object) throws at js:67, where the model answers false.
- Sync.HandleRetrySyncEvent: follows the corrected counter (see Findings). The as-written handler is `Sync.HandleRetry`.

## Findings

| source | as written | input that shows it | evidently intended | confidence | as-written member | corrected member |
|---|---|---|---|---|---|---|
| includes/class-chiral-connector-sync.php:366-368 with 336-355 | `handle_retry_sync_event` deletes `_chiral_sync_retry_count` before re-running the sync. The failed push then finds the counter at 0 and schedules attempt 1 again. | A post eligible for sync, with no Hub ID, and a Hub that answers every send with an error: the attempt-1 retry is re-created every time it runs. | At most three retries per failure; `schedule_retry_sync` caps the counter at 3. | not executed | Sync.SendRetryChainNeverEnds | Sync.CountedRetryChainEnds |
