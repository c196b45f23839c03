# ckanext-harvest: queue handlers and source validators in Dafny

This project models two parts of the CKAN harvesting extension.

**The queue handlers** are `gather_callback` and `fetch_callback` in `ckanext/harvest/queue.py`.
- The gather handler receives a job message and loads the job. It runs the gather stage of every registered harvester named after the job's source type, stamping the job before and after each run.
- When a gather stage raises, the handler aborts the job and deletes all of the job's objects.
- When a gather stage returns ids, the handler deletes the job's stored objects that were not returned (the orphans) and publishes one fetch message per returned id.
- When no harvester matches, the handler records a gather error and aborts the job.
- The fetch handler receives an object message and loads the object. It drives the object through the fetch stage and, when fetch returns True, the import stage. It records an object error for a stage that raises and then classifies the object's report status.

**The validators** are in `ckanext/harvest/logic/validators.py`:
- URL normalisation and the duplicate-URL check;
- the harvester-type and config checks;
- the `active` coercion, the update-frequency check and the object-extras check;
- the id lookups;
- the extras whitelist and config merge, and the config-to-fields conversion;
- the duplicate-name check.

Layout:
- `wrappers.dfy` — `Option` and `Result`.
- `pystr.dfy` — the Python string operations the code uses: `split`, `join`, `rstrip`, ASCII `lower`/`upper`, and the decimal text of a natural number.
- `harvest_model.dfy` — the persistent records: source, job, harvest object, gather error, object error.
- `queue.dfy` — module `Queue`, covering the handlers:
  - the database is the `Store` class, with the jobs and objects maps and the append-only error sequences;
  - the broker message and the fetch publisher are the `Message` and `Publisher` classes;
  - a harvester plugin is a `Harvester` value whose stages are functions;
  - each handler is a method whose loop over the registry is proved against a fold over the registry (`GatherPass`, `FetchPass`), and the promised properties are lemmas about those folds.
- `validators.dfy` — module `Validators`:
  - navl's flattened form is the `Flattened` class, whose `data` and `errors` maps are written in place by the validators that write them;
  - the other validators are functions, or methods where the code loops.

Parameters stand in for code outside this model:
- `parse`/`unparse` for `urlparse`/`urlunparse`;
- `loads`/`dumps` for `json`;
- `navl` for navl's `validate`;
- the plugin registry;
- `UPDATE_FREQUENCIES` and the package-name length limits;
- a failure of the database load (`HarvestJob.get` / `HarvestObject.get`), as `loadFails`.

Code behaviour worth noting:
- A gather message without `harvest_job_id` returns without being acknowledged (queue.py:77-81). The fetch handler, by contrast, acknowledges a message without `harvest_object_id` (queue.py:186-191).
- The fetch handler returns from inside its harvester loop once the object's `report_status` is set (queue.py:271-272). So the loop stops early, and the classification at queue.py:273-287 never replaces a status set by the stages. An 'unchanged' fetch result, however, replaces the status the fetch stage set (queue.py:264-265).
- Reconciliation only deletes orphans. The job's stored objects equal the returned set S only when the gather stage persisted an object for every id it returned. `Queue.ReconcileAfterGather` states both the general result and this condition.

## Model

| member | source | states |
|---|---|---|
| Queue.Store.GatherCallback | ckanext/harvest/queue.py:76-182 | no job id: nothing changes, no publisher, not acked; load failure: nothing changes, publisher open and unused, not acked; missing job: nothing changes, publisher closed, acked; otherwise publisher closed, acked, and store and queue as `GatheredJob` says |
| Queue.Store.GatherJob | ckanext/harvest/queue.py:104-176 | objects and published ids as the harvester loop leaves them; a matched job is stored as the loop left it, with a result of aborted (with the stage's error) or done; with no match, the job is aborted with exactly one gather error and nothing is published |
| Queue.GatherStep | ckanext/harvest/queue.py:113-163 | defines one harvester's turn: a harvester of another name changes nothing; a matching one stamps gather_started, stores what its stage saved, then on a raise aborts the job, stamps gather_finished and deletes the job's objects, and otherwise stamps gather_finished, deletes the orphans and queues the returned ids; the job's id and type are kept |
| Queue.GatherPass | ckanext/harvest/queue.py:112-163 | defines the loop over the registry: every harvester in turn, stopping at the first raising stage; the job's id and type are kept |
| Queue.Store.GatherLoop | ckanext/harvest/queue.py:112-163 | the loop over the registry ends in the state `GatherPass` computes, stopping at a raising stage; the publisher has sent exactly the fetch messages of the ids gathered |
| Queue.Store.GatherTurn | ckanext/harvest/queue.py:113-163 | one harvester's turn equals `GatherStep`: a non-matching harvester changes nothing; a matching one stamps the job and runs the stage, then either aborts and rolls back or reconciles and publishes |
| Queue.Store.StartGather | ckanext/harvest/queue.py:116-121 | gather_started is stamped and saved before the stage runs; the objects the stage persisted are stored |
| Queue.Store.DeleteJobObjectsOf | ckanext/harvest/queue.py:128-133 | every object of the job is deleted and no other object changes |
| Queue.Store.DeleteObjects | ckanext/harvest/queue.py:155-156 | the given objects are deleted, nothing else changes |
| Queue.Store.Reconcile | ckanext/harvest/queue.py:142-163 | the job's objects not returned are deleted, then one fetch message per returned id is sent, in order; nothing is sent for None or an empty list |
| Queue.Publish | ckanext/harvest/queue.py:159-162 | the publisher's sent list grows by exactly `{'harvest_object_id': id}` for each id, in order |
| Queue.Publisher.Send | ckanext/harvest/queue.py:161 | the message is appended to what the publisher sent |
| Queue.Publisher.Close | ckanext/harvest/queue.py:178-179 | the publisher is closed and its sent list is unchanged |
| Queue.Message.Ack | ckanext/harvest/queue.py:181-182 | the message is acknowledged |
| Queue.AddObjectsStores | ckanext/harvest/queue.py:121 | the objects a gather stage persisted are stored under their ids, each id holding the last object saved under it, and every other stored object is untouched |
| Queue.GatherAbortEmptiesJob | ckanext/harvest/queue.py:120-138 | when a gather stage raises, the job ends Aborted with gather_started and gather_finished set, and no stored object belongs to it; another job's object that no gather stage overwrites is kept unchanged |
| Queue.GatherPassKeepsOthers | ckanext/harvest/queue.py:121-157 | the loop keeps every object of another job unchanged, unless some gather stage saves an object under its id |
| Queue.GatherNoMatch | ckanext/harvest/queue.py:112-114 | with no harvester named after the source type, the loop changes nothing |
| Queue.GatherNotFound | ckanext/harvest/queue.py:165-176 | when no harvester matched, the loop has left the job, the objects and the queue exactly as they were |
| Queue.GatherFoundStays | ckanext/harvest/queue.py:113-115 | once a harvester matched, `harvester_found` stays true to the end of the loop |
| Queue.GatherSingleMatch | ckanext/harvest/queue.py:112-163 | with exactly one matching harvester, the loop is that harvester's single turn |
| Queue.ReconcileAfterGather | ckanext/harvest/queue.py:142-163 | after a stage returns ids, the job's surviving objects are its stored ones that were returned; other jobs' objects are untouched; nothing else is added; the ids are published in order; the job is stamped and keeps its status; when every returned id was persisted for the job, its objects are exactly the returned ids |
| Queue.Store.FetchCallback | ckanext/harvest/queue.py:185-289 | no object id: nothing changes, acked; load failure: nothing changes, not acked; missing object: nothing changes, acked; otherwise the objects and object errors are as `FetchPass` says, and the message is acked |
| Queue.FetchStep | ckanext/harvest/queue.py:219-287 | defines one harvester's turn on the object: a harvester of another name changes nothing; a matching one runs `RunStages`, ends the handler when a report_status is set, and otherwise stores the `Classify` status |
| Queue.FetchPass | ckanext/harvest/queue.py:215-287 | defines the loop over the registry, stopping once a turn has ended the handler |
| Queue.Store.FetchLoop | ckanext/harvest/queue.py:215-287 | the loop over the registry ends in the state `FetchPass` computes, returning once a report_status is found set |
| Queue.Store.FetchWith | ckanext/harvest/queue.py:219-287 | one matching harvester's turn equals `FetchStep`: the stages run; a report_status they set ends the handler, and otherwise the status is classified |
| Queue.Store.StagesOn | ckanext/harvest/queue.py:221-270 | the object becomes `RunStages`' object and the stages' error records are appended |
| Queue.Store.FetchOn | ckanext/harvest/queue.py:222-239 | the object is put in FETCH with fetch_started set, the stage runs, fetch_finished is set; a raising stage appends one Fetch error record |
| Queue.Store.ImportOn | ckanext/harvest/queue.py:242-258 | the object is put in IMPORT with import_started set, the stage runs, import_finished is set; a raising stage appends one Import error record |
| Queue.RunStages | ckanext/harvest/queue.py:221-270 | defines the stages: fetch with its stamps and error record, then import with its stamps and error record when fetch returned True; keeps the object's id, job and source type |
| Queue.RunStagesOutcome | ckanext/harvest/queue.py:221-270 | the object ends COMPLETE or ERROR with both fetch stamps; import runs iff fetch returned True; 'unchanged' gives COMPLETE, report_status 'unchanged' and no error; a raising fetch gives ERROR and one Fetch error; any other fetch result gives ERROR and no error; after a True fetch the object is COMPLETE iff import returned a truthy value, a raising import leaves exactly one Import error and any other import result leaves none; at most one error record, about this object, named Fetch or Import |
| Queue.Classify | ckanext/harvest/queue.py:273-287 | defines the report_status rules, first match wins: errored, deleted, unchanged, reimported, new |
| Queue.ClassifyTable | ckanext/harvest/queue.py:273-287 | first match wins: ERROR gives 'errored', a 'deleted' status extra gives 'deleted', current False gives 'unchanged', another stored object with the same package_id gives 'reimported', otherwise 'new' (the count of two includes the object itself) |
| Queue.FetchStepFrame | ckanext/harvest/queue.py:219-287 | one turn changes no stored object but the one handled, keeps the earlier error records, and adds only records about that object |
| Queue.FetchPassFrame | ckanext/harvest/queue.py:215-287 | the whole loop changes no other object, keeps the earlier error records, and adds only records about the object |
| Queue.FetchNoMatch | ckanext/harvest/queue.py:215-220 | with no harvester named after the object's source type, the object and the error records are untouched |
| Queue.FetchPassTerminal | ckanext/harvest/queue.py:219-287 | once some harvester matches, the object ends COMPLETE or ERROR with a report_status set |
| Queue.FetchPassTerminalAfterMatch | ckanext/harvest/queue.py:219-287 | a terminal object with a report_status stays so through the rest of the loop |
| Queue.FetchSingleMatch | ckanext/harvest/queue.py:215-287 | with exactly one matching harvester, the object ends as the stages left it; its report_status is the one the stages set, or the classification when they set none; their error records are appended |
| PyStr.SplitPieces | ckanext/harvest/logic/validators.py:41-43 | no piece of `split(':')` holds a ':', and there are two or more pieces exactly when the netloc holds a ':' |
| PyStr.JoinSplit | ckanext/harvest/logic/validators.py:47 | `':'.join(netloc.split(':'))` is the netloc |
| PyStr.SplitJoin | ckanext/harvest/logic/validators.py:42-47 | splitting the join of colon-free pieces gives the pieces back |
| PyStr.RStrip | ckanext/harvest/logic/validators.py:52 | the result is a prefix of the path, does not end in '/', and only '/' were removed |
| Validators.NormalizeUrl | ckanext/harvest/logic/validators.py:34-60 | the scheme is kept; the path loses exactly its trailing '/'; params, query and fragment are dropped |
| Validators.NormalizeNetloc | ckanext/harvest/logic/validators.py:41-49 | defines the port rule: with a ':' and a default port as the second field, the netloc becomes its first field, otherwise it is joined back |
| Validators.NormalizeNetlocKeeps | ckanext/harvest/logic/validators.py:41-49 | a netloc without ':' is kept; with ':', it is kept iff the field after the first ':' is not the scheme's default port (80 with http, 443 with https) |
| Validators.NormalizeNetlocHostPort | ckanext/harvest/logic/validators.py:41-49 | for `host:port`, the port is removed iff it is 80 with http or 443 with https, and any other port is kept |
| Validators.NormalizeUrlIdempotent | ckanext/harvest/logic/validators.py:34-60 | normalising a normalised URL changes nothing |
| Validators.SourceUrlValidator | ckanext/harvest/logic/validators.py:62-77 | raises Invalid with the duplicate message iff some stored source normalises to the same URL, whatever its active flag, leaving out the edited source's own row when a truthy id is present; on success returns the value un-normalised |
| Validators.AvailableTypes | ckanext/harvest/logic/validators.py:83-89 | the list holds exactly the names the plugins report, plugins without a name skipped |
| Validators.SourceTypeExists | ckanext/harvest/logic/validators.py:79-95 | the type is accepted and returned iff some plugin reports it as its name; otherwise Invalid with the unknown-type message |
| Validators.ConfigOutcome | ckanext/harvest/logic/validators.py:97-108 | defines the config check: the plugins in order, an unnamed one raising KeyError, the first of the source type validating the config, None when none matches |
| Validators.SourceConfigValidator | ckanext/harvest/logic/validators.py:97-108 | the result is `ConfigOutcome`: the plugins are walked in order until one is named like the source type |
| Validators.ConfigFirstMatch | ckanext/harvest/logic/validators.py:99-108 | the first plugin of the source type validates the config, its failure becoming Invalid with the config-error prefix; without `validate_config` the config is returned unchanged |
| Validators.ConfigNoMatch | ckanext/harvest/logic/validators.py:97-108 | when every plugin has a name and none is the source type, the validator returns None |
| Validators.ConfigUnnamedPlugin | ckanext/harvest/logic/validators.py:100-101 | a plugin without a name, met before a plugin of the source type, raises KeyError |
| Validators.SourceActiveValidator | ckanext/harvest/logic/validators.py:181-187 | defines the coercion: text is True iff its lower-case form is 'true', any other value is its truthiness |
| Validators.ActiveIgnoresCase | ckanext/harvest/logic/validators.py:182-186 | text maps to True iff its lower-case form is 'true', so any spelling of 'true' is accepted |
| Validators.ActiveIdempotent | ckanext/harvest/logic/validators.py:181-187 | a non-text value maps to its truthiness, and the validator's output maps to itself |
| Validators.SourceFrequencyExists | ckanext/harvest/logic/validators.py:189-194 | '' counts as 'MANUAL'; accepted iff the upper-cased value is a known frequency; the result is that upper-cased value and is a known frequency; otherwise Invalid with the unknown-frequency message |
| Validators.FrequencyIdempotent | ckanext/harvest/logic/validators.py:189-194 | an accepted frequency is accepted again, unchanged |
| Validators.ObjectExtrasValidator | ckanext/harvest/logic/validators.py:197-203 | accepted iff the value is a dict whose values are all text, and then returned unchanged; a non-dict and a dict with non-text values raise their own messages |
| Validators.SourceIdExists | ckanext/harvest/logic/validators.py:18-24 | accepted iff a source has that id, and then returned as given; otherwise Invalid naming the id |
| Validators.JobExists | ckanext/harvest/logic/validators.py:26-32 | accepted iff a job has that id, and then that job is returned; otherwise Invalid naming the id |
| Validators.Flattened.KeepNotEmptyExtras | ckanext/harvest/logic/validators.py:110-114 | `key` is removed, each truthy extra is written under `key[:-1] + (k,)`, and every other entry is as it was |
| Validators.KeptExtrasUnique | ckanext/harvest/logic/validators.py:110-114 | that description of the result admits exactly one form |
| Validators.Flattened.PutTopLevel | ckanext/harvest/logic/validators.py:143-144 | each entry is written at the top-level key `(k,)` over the form's data; the errors are untouched |
| Validators.Flattened.PutTopLevelErrors | ckanext/harvest/logic/validators.py:146-147 | each extra error is written at `(k,)` in the form's errors; the data is untouched |
| Validators.CollectExtraFields | ckanext/harvest/logic/validators.py:121-125 | the whitelist is every field of every plugin's extra schema |
| Validators.AllExtraFields | ckanext/harvest/logic/validators.py:121-125 | a field is whitelisted iff some plugin's extra schema lists it |
| Validators.ExtraSchemaFor | ckanext/harvest/logic/validators.py:127-135 | defines the schema choice: plugins without an extra_schema skipped, an unnamed one raising KeyError, the first of the source type's schema merged over `__extras` |
| Validators.PickExtraSchema | ckanext/harvest/logic/validators.py:127-135 | the schema is `__extras` updated with the schema of the first plugin that has an extra_schema and is named like the source type; plugins without an extra_schema are skipped; a plugin with a schema and no name before that raises KeyError |
| Validators.ExtraSchemaFirstMatch | ckanext/harvest/logic/validators.py:127-135 | when the first plugin with an extra_schema named like the source type is preceded only by plugins without a schema or with another name, the schema is `__extras` updated with its extra_schema |
| Validators.ExtraSchemaNoMatch | ckanext/harvest/logic/validators.py:127-135 | when no plugin with an extra_schema is named like the source type (and each such plugin has a name), only `__extras` is checked |
| Validators.DropUnlisted | ckanext/harvest/logic/validators.py:138-141 | the extra data keeps exactly its whitelisted keys |
| Validators.Whitelist | ckanext/harvest/logic/validators.py:138-141 | the kept keys are the extra data's keys that are whitelisted, with their values |
| Validators.FirstConfigIndex | ckanext/harvest/logic/validators.py:153-154 | the index found is the first extras entry whose key is 'config', or none when there is none |
| Validators.FindConfigExtra | ckanext/harvest/logic/validators.py:153-164 | the loop finds the first config entry, or none |
| Validators.ExtraValidated | ckanext/harvest/logic/validators.py:116-172 | defines the whole extra validator: schema choice, navl validation, whitelist, top-level writes of data and errors, then the config merge; a KeyError from the schema choice is passed on |
| Validators.Flattened.SourceExtraValidator | ckanext/harvest/logic/validators.py:116-172 | a KeyError from an unnamed plugin changes nothing; otherwise data and errors become `ExtraValidated`'s |
| Validators.WithConfig | ckanext/harvest/logic/validators.py:151-172 | defines the config merge on the form's data: the first config entry taken out, its JSON merged under the extra data, and written back as `config` and a new entry when non-empty and error-free |
| Validators.Flattened.MergeConfig | ckanext/harvest/logic/validators.py:151-172 | the form's data becomes `WithConfig`'s: the first config entry is taken out and merged under the extra data, and written back as `config` and a new entry when non-empty and error-free |
| Validators.ExtraValidatedWhitelist | ckanext/harvest/logic/validators.py:137-144 | besides `config` and `extras`, every top-level entry the validator adds or changes is a field some plugin's extra schema lists |
| Validators.ExtraWritesFrame | ckanext/harvest/logic/validators.py:143-172 | outside `config` and `extras`, every entry is either an extra field holding the extra's value or an earlier entry unchanged, and no entry is removed |
| Validators.ExtraWritesOverride | ckanext/harvest/logic/validators.py:143-144 | each extra field other than `config` and `extras` ends at the top level with the extra's value |
| Validators.ApplyExtrasErrors | ckanext/harvest/logic/validators.py:146-147 | the extra errors sit at their top-level keys, and no other error entry changes |
| Validators.OutsideConfigAndExtras | ckanext/harvest/logic/validators.py:151-172 | merging the config removes no entry and changes none but `config` and `extras` |
| Validators.WithConfigMerge | ckanext/harvest/logic/validators.py:151-172 | extras override the stored config's keys; a non-empty, error-free merge writes `config` as its JSON and puts one config entry after the others; otherwise `config` is untouched and the list just loses its first config entry |
| Validators.WithoutConfigDropsFirst | ckanext/harvest/logic/validators.py:153-156 | exactly the first config entry is removed, and the other entries keep their order |
| Validators.StoredConfigMalformed | ckanext/harvest/logic/validators.py:157-164 | JSON that does not load counts as `{}`, and so does a missing config entry; a missing or empty value is read as '{}' |
| Validators.ConfigRoundTrip | ckanext/harvest/logic/validators.py:165-179 | with `loads` inverse to `dumps`, converting the written config brings every merged key back to the top level with its merged value |
| Validators.ConvertedFromConfig | ckanext/harvest/logic/validators.py:174-179 | defines the conversion: a falsy config leaves the form as it is, JSON that does not load is a ValueError, otherwise the config's keys are written at the top level |
| Validators.Flattened.SourceConvertFromConfig | ckanext/harvest/logic/validators.py:174-179 | a falsy config changes nothing; JSON that does not load raises ValueError with nothing changed; otherwise every key of the config is written at the top level |
| Validators.Flattened.NameValidator | ckanext/harvest/logic/validators.py:206-230 | a name used by another source appends the in-use message to `errors[key]` and does not raise; the data is untouched; a name shorter than the minimum or longer than the maximum raises Invalid with its message |
| Validators.NameTakenByOthers | ckanext/harvest/logic/validators.py:211-218 | when editing a source with a non-empty id, the name is taken iff a source with another id has it |

## Left out

- Broker plumbing (connections, consumers, `resubmit_jobs`): publishing is appending to the publisher's list, and acknowledging sets a flag.
- Harvester plugin internals: `gather_stage`, `fetch_stage`, `import_stage`, `info`, `validate_config` and `extra_schema` are fields of the `Harvester`/`Plugin` values.
  - A stage's writes are part of its result.
  - A gather stage's result is the objects it saved. One saved under an id already stored replaces that row, whichever job it belonged to; from then on it is the job's object if it carries the job's id, and an abort deletes it. The model does not require the ids of saved objects to be new.
  - A fetch or import stage writes only guid, package_id, report_status, current and extras of the object it is given.
  - Writes a plugin makes to other rows are not modelled.
- `info()` without a 'name' in the queue handlers (a KeyError there) is not modelled: a queue `Harvester` always has a name.
- Timestamps are "was set" flags, so the double assignment of `fetch_started` (queue.py:223-224) is one flag.
- Logging, i18n and the ORM session calls (`expire_all`, `remove`, `commit`, `save`) are left out; each write is visible at once.
- The row shape of the id query at queue.py:145-147 is modelled as the set of the job's object ids.
- Concurrency between consumer processes and broker redelivery: one handler call at a time. The idempotence of a redelivered message is not stated.
- `urlparse`/`urlunparse`, `json.loads`/`dumps` and navl's `validate` are parameters.
  - `loads` returning None stands for a ValueError.
  - JSON that parses to something other than an object is not modelled.
- `UPDATE_FREQUENCIES` and the package-name length limits live in modules that are not part of this model; they are parameters.
- `lower`/`upper` act on ASCII letters only.
- navl's `missing` marker is taken to be falsy.
- How navl uses what a validator returns (the config validator's result, for instance) is outside the model.
- Validators.SourceIdExists, Validators.JobExists: the id is quoted with single quotes; the escaping `repr` applies to quotes and non-ASCII text is not modelled.
- Validators.SourceUrlValidator: the URL is taken as text; `urlparse` of a non-text value is not modelled.
- Validators.SourceTypeExists, Validators.SourceFrequencyExists: the value is taken as text.
- Validators.Flattened.NameValidator: the name is taken as text, and `errors[key]` is taken to exist, as navl provides it for every field.
- Validators.Flattened.SourceExtraValidator: `'extras'` is taken not to be a whitelisted extra field, and `data[('extras',)]`, when present, to be a list of dicts that all have a 'key'. The code reads 'key' only up to the first config entry, so it also accepts a list whose later entries have no 'key'. That shape, and any other shape, is not modelled.
- Validators.Flattened.KeepNotEmptyExtras: the extras value is taken to be a dict when present.
- Validators.SourceConfigValidator, Validators.PickExtraSchema: a falsy `info()` is an empty map, so `info['name']` is modelled as KeyError; the TypeError of a None response is not distinguished.
