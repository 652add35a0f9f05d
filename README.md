# Visit Notifications, modelled in Dafny

Visit Notifications is a WordPress plugin. It mails a site owner when a page is
visited: at once, or as an hourly/daily digest. This project models the core of
that plugin and proves what the plugin promises about it.

- **The visit gate** (`check_to_record_visit`). Deny checks run in source order:
  - admin pages;
  - pages that are neither singular nor archive;
  - no object resolved for the page;
  - notifications off for that object;
  - crawler user agents;
  - the logged-in policy, with its per-object override (`get_overridable_checkbox`);
  - the IP grace period. This step prunes expired entries from a map of md5(anonymised address) to expiry time, writes the map back when its size changed, and denies an address that is still in the map.
- **The IP anonymiser** (`anonymize_ip_address`). It works on packed address bytes: the last byte of IPv4 and the last 10 bytes of IPv6 become zero.
- **Recording a visit** (`record_visit`). A visitor record is built. On the `visit` schedule it is mailed at once. On any other schedule it is queued at the end of the object's `visitnotifications_visitors` list. The address is then remembered in the grace map, in the site option or in the object's meta.
- **The digest flush** (`cron_send_emails`). Each scheduled object with a non-empty list gets one grouped notification with the whole list. The list is then reset to `[]`.
- **Bulk enable/disable** (`filter_handle_bulk_actions`). It sets the per-object ACF fields `vn_enable_notifications` and `vn_schedule`, and adds a count to the redirect URL.
- **Post/term dispatch.** `get_meta`/`set_meta`/`get_field`/`set_field` route to post or term storage.
- **The settings class** (`src/Settings.php`):
  - the plugin's field definitions;
  - `init_settings`/`init_settings_group`, which register every non-group field, at any depth, by id;
  - `sanitize_field`;
  - the typed `get`;
  - `flatten_groups`.

Files:

- `wrappers.dfy`: `Option` and `Result`.
- `php.dfy` (module `Php`): the part of PHP's value model the code relies on:
  - ordered arrays with int or string keys;
  - `empty()`/truthiness;
  - `$a[$k] = `, `$a[] = `, `in_array`, `array_key_exists`;
  - `strtolower`, `str_contains`;
  - `is_numeric`/`intval` on decimal text.
- `ip.dfy` (module `Ip`): the anonymiser.
- `settings.dfy` (module `PluginSettings`): `src/Settings.php`. `Settings` is a class whose `settingsIds` map is filled in place.
- `settings_properties.dfy` (module `SettingsProperties`): lemmas about the settings.
- `plugin.dfy` (module `Plugin`): every modelled operation of the plugin class, first as a function on a `Site` value. A `Site` holds the option store, the per-object meta and the outbox of mails sent. Then the class `VisitNotifications` holds that state as fields. Its methods run the same steps in place, loops included, and each is proved to leave exactly the state and result the function gives.
- `plugin_properties.dfy` (module `PluginProperties`): the lemmas that relate the operations.

How the code behaves in these cases, as modelled:

- The crawler check never reads the `disable_crawlers` setting. Every user agent containing "bot" is denied.
- The visitor list is reset after every send attempt, whatever the mailer answered.
- For the grace period, an address that does not parse makes the gate fault: the anonymiser receives `false` from `inet_pton` and strict typing raises a TypeError. It does not skip the check.
- A grace context that is neither `site` nor `post` leaves `$graceperiod` unassigned before `count()`, which is a fault.
- The grace context select is sanitised against its option labels, not its keys. A stored `post` therefore reads back as `site`, so the `post` scope is unreachable through `get`.
- The model follows the code in each of these cases, not the descriptions of the settings.

## Model

| member | source | states |
|---|---|---|
| Php.Lookup | visit-notifications.php:716 | a key is found exactly when some entry carries it, and the value found is that entry's |
| Php.UniqueLookup | visit-notifications.php:716 | in an array without duplicate keys, every entry is what its key looks up |
| Php.Assign | visit-notifications.php:414 | after `$a[$k] = $v` the key reads `$v`, every other key reads as before, the size grows by one exactly when the key was new, and no other entry appears |
| Php.AssignKeepsKeysUnique | visit-notifications.php:420 | writing a key into an array without duplicate keys leaves it without duplicate keys |
| Php.NextIndex | visit-notifications.php:400 | the index `$a[] =` picks is non-negative and above every int key present |
| Php.Push | visit-notifications.php:400 | `$a[] = $v` keeps every earlier entry in place and in order, adds exactly one entry holding `$v`, under a key not used before |
| Php.KeepIn | src/Settings.php:428 | the strict `in_array` filter keeps exactly the entries whose value is an option value, and never adds any |
| Php.ToLower | visit-notifications.php:676 | lower-casing keeps the length and maps each character by the ASCII rule |
| Php.NatToString | visit-notifications.php:275 | the count written into the redirect is non-empty decimal text whose digit value is the count itself |
| Ip.Anonymize | visit-notifications.php:743-747 | the family and length are kept, every byte before the last 1 (IPv4) or 10 (IPv6) is kept, and those last bytes are zero |
| Ip.AnonymizeIpAddress | visit-notifications.php:732-751 | the text form fails exactly when the host parser rejects the address, and then with the invalid-address fault; otherwise it is the printed form of the anonymised bytes |
| Ip.AnonymizeIdempotent | visit-notifications.php:743-750 | anonymising twice is the same as anonymising once |
| Ip.AnonymizeMerges | visit-notifications.php:743-750 | two addresses anonymise alike if and only if they are of one family and agree on all kept bytes |
| Ip.AnonymizeTextIdempotent | visit-notifications.php:732-751 | on text, with a printer the parser reads back, the anonymised text is a fixed point of the anonymiser |
| PluginSettings.Leaves | src/Settings.php:94-101 | the fields registered from a list of definitions contain no group |
| PluginSettings.NonGroups | src/Settings.php:527-532 | the first filter of flatten_groups keeps exactly the fields that are not groups |
| PluginSettings.FlattenGroups | src/Settings.php:526-549 | flattening returns no group (its relation to the nested fields is in `FlattenGroupsIsLeaves`) |
| PluginSettings.SanitizeField | src/Settings.php:392-446 | only a group or an unknown type throws, and then with the "not sanitized" fault; a checkbox gives 'on' or ''; a number with an int default always gives an int; a select/radio gives the whole options array or the default; password, editor and code pass the data through unchanged |
| PluginSettings.Get | src/Settings.php:356-382 | an unregistered id is exactly the case that throws UnknownOption; a registered group or unknown-type field throws what sanitize_field throws; unformatted it is the sanitised stored value or fallback; a checkbox formats to true iff the sanitised value is 'on'; a number field whose default is an int always formats to an int |
| PluginSettings.Settings.InitSettingsGroup | src/Settings.php:94-124 | the loop with recursion leaves the registry as the old one with every non-group field at any depth stored under its id, in visiting order, and keeps the sections |
| PluginSettings.Settings.InitSettings | src/Settings.php:86-92 | the sections become the plugin's fields and every one of their non-group fields is registered |
| PluginSettings.Settings.RegisterSections | src/Settings.php:89-91 | registering sections one after another registers the non-group fields of all of them, in order |
| PluginSettings.StoreAppend | src/Settings.php:101 | registering two lists one after the other is registering their concatenation |
| SettingsProperties.CheckboxIsOnOrEmpty | src/Settings.php:415-416 | a checkbox sanitises to 'on' if and only if the input is 'on', otherwise to '' |
| SettingsProperties.NumberIsIntvalOrDefault | src/Settings.php:406-407 | a number sanitises to intval of numeric input, else to its default, else to 0 |
| SettingsProperties.SelectTestsLabels | src/Settings.php:418-420 | a select/radio value equal to an option label gives the whole options array, any other value the default |
| SettingsProperties.MultiKeepsOptionValues | src/Settings.php:422-428 | a multi field wraps a scalar into a one-entry list and keeps exactly the entries whose value is an option value |
| SettingsProperties.FalseDefaultMeansFieldDefault | src/Settings.php:361-365 | with default false and nothing stored, get_option falls back to the field's own default, or false |
| SettingsProperties.GraceContextNeverPost | src/Settings.php:267-276 | the grace context reads as 'site' or as the whole options array, and a stored 'post' reads back as 'site' |
| SettingsProperties.NotALabel | src/Settings.php:271-274 | no value other than the two labels is among the grace context's option values |
| SettingsProperties.LeavesAppend | src/Settings.php:95-101 | the leaves of a concatenation are the leaves of its parts, in order |
| SettingsProperties.LeavesByLevel | src/Settings.php:526-546 | the leaves are the top-level non-groups plus the leaves of all group contents, counted with multiplicity |
| SettingsProperties.FlattenGroupsIsLeaves | src/Settings.php:526-549 | flatten_groups returns the same fields as depth-first registration, each as often, no group among them, and the top-level non-groups first |
| SettingsProperties.ReachesSnoc | src/Settings.php:94-98 | a field is reached in a list plus one more field if and only if it is reached in the list, is that field, or is reached inside it as a group |
| SettingsProperties.LeavesAreReachedNonGroups | src/Settings.php:94-101 | a field is registered if and only if it sits at some depth of the nesting and is not a group |
| SettingsProperties.StoreHoldsEveryId | src/Settings.php:101 | after registration every given field's id is present, no id comes from nowhere, and each entry is a given field or the earlier entry |
| SettingsProperties.RegisteredAtAnyDepth | src/Settings.php:94-101 | after init_settings_group every non-group field at any depth is registered under its id, and no group is ever registered |
| SettingsProperties.PageLeaves | src/Settings.php:228-290 | the plugin's page registers the four checkboxes, then the two fields of the grace group |
| SettingsProperties.PlainLeaves | src/Settings.php:95-101 | a list without groups registers as it is |
| SettingsProperties.ShapeLeaves | src/Settings.php:95-101 | four plain fields and a group of two plain fields register as those six fields in order |
| SettingsProperties.PluginLeaves | src/Settings.php:86-92 | init_settings visits exactly the six settings of the plugin, in order |
| SettingsProperties.PluginRegistry | src/Settings.php:86-101 | after init_settings the registry maps each of the six setting ids to its field definition |
| Plugin.GetMeta | visit-notifications.php:618-628 | without an object the value is null; a missing key reads as ''; a stored key reads as its stored value |
| Plugin.WithMeta | visit-notifications.php:636-646 | exactly the one meta key of the one object changes; other objects, the options and the outbox stay as they were |
| Plugin.GetField | visit-notifications.php:570-586 | false without an object; the enable field reads true exactly when a truthy value is stored; any other stored field reads as stored |
| Plugin.WithField | visit-notifications.php:595-611 | reading the field back gives the value written (the enable field as a bool); other keys and objects, options and outbox are unchanged |
| Plugin.OverridableCheckbox | visit-notifications.php:516-527 | a stored override other than null/'global' decides, true iff 'on'; when the field reads null or 'global', the global setting decides: a bool is the answer, any other value is a fault, and a settings fault is passed on |
| Plugin.Prune | visit-notifications.php:700-704 | the kept entries are exactly the unexpired ones, and the count is unchanged if and only if none expired |
| Plugin.GraceRead | visit-notifications.php:692-697 | site scope reads the grace option, [] when it is absent; otherwise the global post's meta, [] without a global post, and an empty stored value reads as [] |
| Plugin.GraceWriteBack | visit-notifications.php:706-713 | only the grace map changes; in site scope the option then reads as the value written, in post scope the global post's meta does, and without a global post nothing changes |
| Plugin.GraceCheck | visit-notifications.php:687-719 | only the grace map changes; a settings fault is passed on with nothing written; grace off lets the visit through with nothing written; with grace on, an invalid address faults, a context other than site/post faults, and a stored map that is not an array faults, each with nothing written |
| Plugin.Gate | visit-notifications.php:648-722 | only the grace map changes; admin, non-page, no object, disabled or bot means deny with nothing written; a logged-in visitor whose policy is false is denied; a fault of the policy is passed on; a visit past those checks gets exactly the grace step's answer and state |
| Plugin.VisitorIp | visit-notifications.php:376-385 | the address stored and hashed is the anonymised one for a valid address, the raw text otherwise |
| Plugin.VisitorValue | visit-notifications.php:365-391 | the record holds time, user agent ('unknown' when absent) and referer ('unknown' unless a valid URL), in that order; then the anonymised address exactly when the address is valid, and location and timezone exactly when it is valid and locates |
| Plugin.Expiry | visit-notifications.php:414 | the expiry is now plus the configured duration, and it is defined exactly when that setting reads as an int |
| Plugin.GraceEntry | visit-notifications.php:412-414 | writing into a writable map (an array, null or false) gives an array where md5(ip) holds the expiry and every other key reads as before; a non-writable value or a bad duration fails |
| Plugin.GraceRecord | visit-notifications.php:404-424 | remembering an address sends nothing and leaves every visitor list as it was; a settings fault is passed on; grace off, or a context other than site/post, writes nothing and succeeds |
| Plugin.Dispatch | visit-notifications.php:393-402 | on 'visit', exactly one single notification with the visitor is sent and nothing else changes; otherwise nothing is sent and no option changes, the list keeps its earlier entries in order with the visitor appended at the end, no other meta key and no other object changes, or a stored non-array faults with nothing changed |
| Plugin.Record | visit-notifications.php:356-424 | no object, no change; otherwise the mails and the object's visitor list are those of the dispatch, a failed dispatch stops there, and a successful one goes on to the grace step with the visitor's address |
| Plugin.Visit | visit-notifications.php:236-242 | a denied visit records nothing beyond the gate's own write; an early-denied or bot visit changes nothing at all; a visit let through is recorded against its object on the state the gate left; a gate fault is passed on with the gate's state |
| Plugin.FlushOne | visit-notifications.php:343-353 | an empty list is skipped with nothing written; a non-array list faults; a list is otherwise sent whole as one grouped notification and reset to [], touching nothing else |
| Plugin.Flush | visit-notifications.php:343-353 | the options are unchanged; the outbox keeps every earlier mail and gains at most one per object; objects not in the list keep their meta |
| Plugin.FlushStopsAtFault | visit-notifications.php:343-353 | after a fault the remaining objects are not visited |
| Plugin.Resolve | visit-notifications.php:254-263 | an object is resolved if and only if it exists, is of the screen's kind and its id was given; there are no more objects than ids, and as many exactly when every id resolves |
| Plugin.BulkOne | visit-notifications.php:265-272 | the object is enabled for an enable action, disabled otherwise; an enable sets the schedule its action names; other keys, objects, options and outbox are unchanged |
| Plugin.BulkAll | visit-notifications.php:265-272 | the bulk loop changes no option, sends nothing, and leaves every object outside the list as it was |
| Plugin.Bulk | visit-notifications.php:252-280 | another action changes nothing and returns the URL unchanged; a bulk action applies the loop to exactly the resolved objects, puts their count under its own query key and keeps the other arguments |
| Plugin.VisitNotifications.SetMeta | visit-notifications.php:636-646 | the object's state after the write is `WithMeta` of the state before |
| Plugin.VisitNotifications.SetField | visit-notifications.php:595-611 | the state after the write is `WithField` of the state before |
| Plugin.VisitNotifications.CheckToRecordVisit | visit-notifications.php:648-722 | result and new state are those of `Gate` on the old state |
| Plugin.VisitNotifications.CheckGrace | visit-notifications.php:687-719 | result and new state are those of `GraceCheck` on the old state |
| Plugin.VisitNotifications.PruneExpired | visit-notifications.php:700-704 | the loop keeps exactly `Prune` of the entries |
| Plugin.VisitNotifications.RecordVisit | visit-notifications.php:356-424 | result and new state are those of `Record` on the old state |
| Plugin.VisitNotifications.RecordGrace | visit-notifications.php:404-424 | result and new state are those of `GraceRecord` on the old state |
| Plugin.VisitNotifications.ActionWp | visit-notifications.php:236-242 | result and new state are those of `Visit` on the old state |
| Plugin.VisitNotifications.CronSendEmails | visit-notifications.php:309-354 | over the distinct objects the query selected (enabled and on this schedule), the loop ends where `Flush` does |
| Plugin.VisitNotifications.FilterHandleBulkActions | visit-notifications.php:252-280 | the loop over the resolved objects leaves the state and URL `Bulk` gives |
| PluginProperties.GraceMembership | visit-notifications.php:700-716 | after pruning, a hash is present exactly when it had an unexpired entry |
| PluginProperties.GraceCheckDenies | visit-notifications.php:715-718 | the step then succeeds, and lets the visit through if and only if the address's hash has no unexpired entry |
| PluginProperties.GraceCheckPrunes | visit-notifications.php:706-713 | the state is left alone if and only if no entry expired, and otherwise the map read back is the pruned one |
| PluginProperties.SettingIgnoresGraceData | src/Settings.php:365 | writing the grace option does not change any setting the code reads |
| PluginProperties.GraceRecordSite | visit-notifications.php:411-416 | in site scope the grace option holds md5(ip) => now + duration afterwards, keeps its other keys, and no other option changes |
| PluginProperties.GraceRecordPost | visit-notifications.php:417-423 | in post scope the object's grace meta becomes an array with md5(ip) => now + duration and its other keys kept; no option and no other object changes |
| PluginProperties.GraceDeniesRemembered | visit-notifications.php:692-718 | a site map holding an unexpired entry for the address's hash makes the grace step deny |
| PluginProperties.GateDeniesRemembered | visit-notifications.php:648-722 | ... and the gate does not let that visit through |
| PluginProperties.GraceRecordRemembers | visit-notifications.php:411-416 | after the site-scope grace step the grace settings read the same, and the map holds the new expiry |
| PluginProperties.GraceRecordThenDeny | visit-notifications.php:414 | after a grace record at time t with duration d, the grace step of any later visit from that address before t + d denies it |
| PluginProperties.GraceRecordKeepsKeysUnique | visit-notifications.php:411-416 | recording into a site map without duplicate keys leaves it without duplicate keys |
| PluginProperties.NoLiveEntry | visit-notifications.php:700-716 | in a map without duplicate keys, a key whose expiry has passed has no unexpired entry |
| PluginProperties.GraceExpiredAllows | visit-notifications.php:687-719 | a site map whose entry for the address has expired lets the visit through the grace step |
| PluginProperties.GraceRecordThenAllow | visit-notifications.php:414 | after a grace record at time t with duration d, a visit from that address at t + d or later passes the grace step |
| PluginProperties.PostScopeMissesTerms | visit-notifications.php:694-696 | in post scope, what is written to a term's meta is never what the gate reads |
| PluginProperties.EarlyDenyReadsNoSetting | visit-notifications.php:648-669 | an admin, non-page, object-less or disabled request is denied with nothing written, whatever the settings registry holds |
| PluginProperties.BotDeniedWhateverCrawlerSetting | visit-notifications.php:673-679 | a crawler is denied whatever disable_crawlers holds, with nothing written, whatever the settings registry holds |
| PluginProperties.PolicyIsABool | visit-notifications.php:526 | with the plugin's checkbox registered, the logged-in policy never faults |
| PluginProperties.FlushSendsEachListOnce | visit-notifications.php:343-353 | over distinct objects, the flush sends exactly one grouped notification per non-empty list, whole and in order, resets those lists to [], leaves empty lists unwritten, and changes nothing else |
| PluginProperties.FlushStep | visit-notifications.php:343-353 | flushing one more object that was not flushed before extends the digests by its list and resets that list |
| PluginProperties.BulkSetsFields | visit-notifications.php:265-272 | each resolved object is enabled (with the action's schedule) or disabled (schedule kept); every other key and every other object is unchanged |
| PluginProperties.BulkCountsResolvedIds | visit-notifications.php:274-276 | when every id resolves, the redirect carries the number of ids |
| PluginProperties.ResolveInOrder | visit-notifications.php:254-263 | resolving a concatenation of id lists is the concatenation of their resolutions, so the objects keep the order of their ids |
| PluginProperties.ResolveSingle | visit-notifications.php:256-260 | a single id gives its object when it exists, and nothing otherwise |

## Left out

- PluginProperties.GraceRecordThenDeny: proved for the site scope only. The post scope is written to the page's object but read from the global post (`PostScopeMissesTerms`). On top of that, `get` never returns `post` (`GraceContextNeverPost`).
- PluginProperties.GraceDeniesRemembered and PluginProperties.GateDeniesRemembered: stated for the site scope only, for the same reason.
- PluginProperties.GraceExpiredAllows and PluginProperties.GraceRecordThenAllow: site scope only, for the same reason. They also require a grace map without duplicate keys. The plugin only writes through `$a[$k] =`, which keeps keys unique (`GraceRecordKeepsKeysUnique`).
- PluginSettings.FlattenGroups: its own contract says only that no group is returned. What it returns, counted with multiplicity and with the top-level fields first, is in `FlattenGroupsIsLeaves`. The order among nested levels is not stated.
- Plugin.VisitNotifications.CronSendEmails: the meta query is an input. Its result is characterised by preconditions: the objects are distinct, each is enabled and on the frequency. The order in which the database returns them is not modelled.
- Plugin.Bulk: the redirect URL is always a URL. The `$redirect_url === false` case (no query argument added) is not modelled.
- PluginSettings.Get: `is_numeric`/`intval` accept decimal text with surrounding whitespace, a sign and a fractional part. Exponent and hexadecimal forms, and floats, are not modelled.
- Plugin.Prune: a grace entry whose value is not an int counts as expired. The plugin only ever writes ints there. PHP's loose `>` on strings and floats is not modelled.
- Plugin.GraceRecord: a grace duration that is not an int is a fault. The plugin's registry always yields an int for it, so PHP's numeric-string arithmetic is not modelled.
- ACF storage: a field is kept in the object's meta under its own name, for posts and terms alike. The `term_` prefixed ACF id, the `_field` reference meta and ACF's load/update filters are not modelled. The field defaults (`default` for the schedule, `global` for the logged-in override) are modelled. `get_field`/`set_field` without an object fall back to `get_object()` in the code; the model's callers pass the resolved object instead.
- `get_object`: is_singular/is_archive/is_tag/is_category/is_tax and the term lookup are request inputs. The object they resolve to is an input too.
- Host functions are parameters: md5, URL validation, IP parsing and printing (filter_var, inet_pton, inet_ntop), and the WordPress sanitisers that `sanitize_field` defers to (text, url, email, textarea, image, color, string_list).
- Geolocation (`get_location_and_timezone`) is a parameter: an HTTP request and a JSON decode, answering an optional location and timezone.
- Mail: `send_notification_email` is an append to the outbox. Template rendering and `wp_mail` are not modelled. The mailer's answer is ignored by the code anyway.
- Time: one `now` per request. The code calls `time()` several times within a request.
- The `on_update` hooks registered by `init_settings_group`, translation of labels, the settings menu, the settings page, and option registration are not modelled.
- Hook wiring, cron scheduling, activation, and the admin column are not modelled. The same goes for the other source files: the admin form renderer, the data migrator, the ACF field builder, the e-mail templates and the JavaScript.
- Concurrency: the read-modify-write of the visitor list and of the grace map has no locking. The model runs one request at a time.
- Faults: exceptions and TypeErrors end the request as a `Failure`. Writes made before the fault are kept, as they are in WordPress.
