# maubot: a verified model

maubot hosts chat-bot plugins.  A plugin is a zip archive; an instance of a plugin
runs on behalf of a Matrix client.  This project models the parts of maubot whose
correctness is hardest to see by reading, and proves what they promise for every
input, every run and every interleaving.

| module | what it models |
|---|---|
| `ByteCodec`, `ZipDirectory` | the zip directory reader: little-endian fields, the search for the end record, the walk over the central directory, reading a member |
| `ZipArchive` | a writer for archives as sections 4.3.7, 4.3.12 and 4.3.16 of PKWARE's APPNOTE.TXT lay them out, and the round trip through the reader |
| `LineEndings` | normalisation of source line endings |
| `Text`, `Commands`, `Dispatch` | whitespace tokenising, argument parsing, and the dispatch of a message through a command tree |
| `PluginDatabase` | plugins sharing one Postgres pool, as interleaved atomic steps of any number of tasks and proxies |
| `PluginLoader` | loader objects, the registries by path and by id, the zip directory cache, and the plugin upload with its rollbacks |
| `UploadNames`, `Collisions` | the file name derived for an uploaded version, and what happens when it is another plugin's |
| `References`, `Lifecycle` | instances, clients and plugins with their back-references, and the management operations |
| `Scheduler` | the scheduler of background tasks, as interleaved steps of the event loop |

How the source's form is carried over:

- `ZipDirectory.ReadDirectory` and `Commands.ParseArguments` are loops, each proved
  equal to a function that the theorems speak about.
- `PluginLoader.Registry`, `PluginLoader.ZippedPluginLoader`, `Lifecycle.Maubot` and
  `Scheduler.BasicScheduler` are classes whose methods change fields.
- `Lifecycle.Maubot` keeps each field of the Python objects as a map from object to
  value, so that two objects with one id, an object that has left its cache, and
  aliasing between pointers and reference sets are all expressible.
- Where tasks interleave (`PluginDatabase`, `Scheduler`) the model is a step relation,
  and a run is any sequence of enabled steps.

What the source hands to code outside it enters as a parameter that nothing is
assumed about: how names are decoded, how data is decompressed, what a regular
expression or a custom parser accepts, what metadata a file holds, whether a module
imports, how a plugin's start ends.

## Findings

Properties that do not hold as one would expect them, each with the exact condition under
which they do and with inputs at which they do not.

- The end record is found at its place exactly when the archive comment is empty or no
  end-record signature follows the record's start (`ZipArchive.FindsItsEndRecord`).  With the
  signature as comment every archive is refused (`ZipArchive.SignatureAsComment`).
- A reload leaves whole registries whole exactly when no other loader owns the new path
  (`PluginLoader.Registry.Reload`; input: `Collisions.ReloadOntoAnother`).  What survives every
  run without any premise is coherence (`PluginLoader.Registry.RunAll`).
- Replacing a plugin keeps its promise to that plugin exactly when the new file gets another
  path than the old one (`PluginLoader.Registry.UploadReplacement`).  The name the source
  derives is the old one exactly when the same version is uploaded again within the
  millisecond of the stamp in the name (`UploadNames.NameKept`; inputs:
  `UploadNames.SameMillisecond`).
- Replacing a plugin leaves the registries whole exactly when no other plugin owns the new
  path.  Otherwise that plugin's file is overwritten, its path entry is taken, and a rollback
  trashes its file (`PluginLoader.Registry.UploadReplacement`; input:
  `Collisions.UploadOntoAnother`).
- Uploading a new plugin registers it exactly when it preloads under an unused id and nobody
  owns the path.  On an owned path the answer is still that it was created
  (`PluginLoader.Registry.UploadNew`; input: `Collisions.NewOntoAnother`).
- Deleting a client is refused by the database exactly when it has no references and an
  instance row names it, and the client has left the cache by then
  (`Lifecycle.Maubot.DeleteClient`; input: `Lifecycle.RefusedDelete`).  The reference graph
  survives that.
- Disabling an instance does not stop it; when it does end up stopped is stated exactly
  (`Lifecycle.DisabledRunsOn`; input: `Lifecycle.DisablingDoesNotStop`).  An update to a type
  that no plugin has is answered as done (`Lifecycle.UnknownTypeIsIgnored`).
- Connections that are used before `start` has read the server's default path keep the pool
  isolated exactly on servers whose default is the assumed one
  (`PluginDatabase.IsolatedWithoutStart`; input: `PluginDatabase.EarlyTaskLeaks`).  maubot gets
  there when `start` fails: `start_database` has stored the proxy by then
  (maubot/instance.py, lines 311-325), and the query endpoint uses whatever is stored
  (maubot/management/api/instance_database.py, line 109).  After a completed start all is well
  on any server (`PluginDatabase.IsolatedAfterStart`).
- `BasicScheduler.stop` is final unless a function swallows its cancellation, and final
  whatever functions do exactly when no periodic loop is inside its function at that moment
  (`Scheduler.StopIsFinalWhateverHappens`; input: `Scheduler.SwallowRevives`).

## Model

| member | source | states |
|---|---|---|
| `ByteCodec.FromToLittle` | maubot/lib/zipimport.py:413-414 | reading back a number written little-endian in a wide enough field gives the number |
| `ByteCodec.ToFromLittle` | maubot/lib/zipimport.py:442-452 | conversely, writing what was read from a field gives the same bytes |
| `ByteCodec.FieldValues` | maubot/lib/zipimport.py:413-414 | two- and four-byte fields have the least significant byte first, weight by weight |
| `ZipDirectory.RFind` | maubot/lib/zipimport.py:405-405 | the result is an occurrence with none after it, or -1 and there is none |
| `ZipDirectory.FindEndRecord` | maubot/lib/zipimport.py:383-411 | where a position is returned, the end-record signature (50 4B 05 06, as the writer's contract has it) and a whole end record are there |
| `ZipDirectory.WindowSearch` | maubot/lib/zipimport.py:399-411 | searching any tail of the file finds the last signature of the whole file if it lies there, at the shifted position, and nothing otherwise |
| `ZipDirectory.TailSearchRefinesFullSearch` | maubot/lib/zipimport.py:391-411 | in the comment branch the bounded search gives the absolute position of the last signature of the whole file; it is "not a zip file" iff there is none or the last one lies more than 65557 bytes before the end, and "corrupt" iff no whole record follows |
| `ZipDirectory.Locate` | maubot/lib/zipimport.py:413-424 | on success the directory starts exactly its size before the end record, and at archive offset plus directory offset |
| `ZipDirectory.ParsesExactly` | maubot/lib/zipimport.py:434-481 | exactly what the bytes under the cursor come to: end of the directory at another signature than 50 4B 01 02, each error in its case, or a record of the right length and name |
| `ZipDirectory.Utf8Bit` | maubot/lib/zipimport.py:473-473 | the UTF-8 flag is bit 11 |
| `ZipDirectory.ReadDirectory` | maubot/lib/zipimport.py:376-489 | the cursor loop terminates on every file and computes the directory function, errors included |
| `ZipDirectory.WalkFindsRecords` | maubot/lib/zipimport.py:433-487 | a walk that succeeds has read records that lie contiguously from the directory start up to the first place without a signature |
| `ZipDirectory.WalkTabulates` | maubot/lib/zipimport.py:433-487 | contiguous records make the walk succeed with their table |
| `ZipDirectory.TabulateKeepsLast` | maubot/lib/zipimport.py:485-486 | the table maps each name to its last record and has no other names |
| `ZipDirectory.WalkStaysInside` | maubot/lib/zipimport.py:433-471 | every cursor position is inside the file and at least 46 bytes after the one before |
| `ZipDirectory.OffsetsInside` | maubot/lib/zipimport.py:454-456 | every stored offset lies between the archive offset and the directory start |
| `ZipDirectory.DirectoryWalkBounded` | maubot/lib/zipimport.py:413-487 | for every file read successfully: contiguous records from end record minus size, bounded cursor, the table of last records, offsets in range |
| `ZipDirectory.FindEndRecordShift` | maubot/lib/zipimport.py:383-411 | bytes in front move the end record by their number |
| `ZipDirectory.LocateShift` | maubot/lib/zipimport.py:413-424 | bytes in front move directory and archive offset by their number and leave the declared offset |
| `ZipDirectory.WalkShift` | maubot/lib/zipimport.py:433-487 | a moved archive offset moves every stored offset and changes nothing else, errors included |
| `ZipDirectory.GetDataShift` | maubot/lib/zipimport.py:555-595 | reading a moved entry behind a prefix gives the same data or the same error |
| `ZipDirectory.ReadsExactly` | maubot/lib/zipimport.py:555-595 | for every file and entry: the refusals of a cut-off header, of another signature than 50 4B 03 04 and of short data, and otherwise exactly the bytes, inflated iff compressed |
| `ZipDirectory.OffsetShift` | maubot/lib/zipimport.py:376-489 | prepending any bytes to a readable archive keeps names, fields and data and moves each offset by exactly the length |
| `ZipArchive.LocalHeader` | maubot/lib/zipimport.py:566-575 | section 4.3.7 of APPNOTE.TXT: 30 bytes that begin with 50 4B 03 04 |
| `ZipArchive.CentralHeader` | maubot/lib/zipimport.py:434-452 | section 4.3.12: 46 bytes that begin with 50 4B 01 02 |
| `ZipArchive.EndRecord` | maubot/lib/zipimport.py:384-414 | section 4.3.16: 22 bytes that begin with 50 4B 05 06, and the comment |
| `ZipArchive.FindsItsEndRecord` | maubot/lib/zipimport.py:391-411 | a written end record is found at its place if and only if the comment is empty or no signature follows |
| `ZipArchive.SignatureAsComment` | maubot/lib/zipimport.py:405-410 | at the comment that is the signature itself, every archive is refused as corrupt |
| `ZipArchive.LocatesBehind` | maubot/lib/zipimport.py:413-424 | sizes and offsets written into the end record are read back |
| `ZipArchive.ParsesItsRecord` | maubot/lib/zipimport.py:433-486 | a written central header is parsed to the member's fields, name and length |
| `ZipArchive.LaysOutItsRecords` | maubot/lib/zipimport.py:433-487 | the written central directory is a contiguous list of exactly the members' records |
| `ZipArchive.ReadsItsDirectory` | maubot/lib/zipimport.py:376-489 | reading a written archive gives the table of its records |
| `ZipArchive.TableDescribes` | maubot/lib/zipimport.py:485-486 | that table has the members' names only, each with the fields and offset of its last member |
| `ZipArchive.ReadsMemberData` | maubot/lib/zipimport.py:555-595 | the data of any member of a written archive is the member's bytes, inflated if it is compressed |
| `ZipArchive.RoundTrip` | maubot/lib/zipimport.py:376-489 | for every list of members whose fields fit and every comment without a later signature: reading succeeds, describes the members, and returns each last member's data |
| `LineEndings.TwoReplacesAreOnePass` | maubot/lib/zipimport.py:645-648 | the two global replaces equal one left-to-right pass over CR with an optional LF |
| `LineEndings.OnePassRemovesCr` | maubot/lib/zipimport.py:643-648 | no CR is left |
| `LineEndings.Normalization` | maubot/lib/zipimport.py:643-648 | one pass, no CR, idempotent |
| `Text.SplitOfJoin` | maubot/handlers/command.py:58-59 | splitting joined words at the first space gives the first word and the rest joined |
| `Text.WordsOfJoin` | maubot/handlers/command.py:404-409 | the whitespace-separated words of joined words are those words |
| `Text.AsciiSpaces` | maubot/handlers/command.py:408-408 | which characters below 128 are whitespace |
| `Text.StepTakesFirstWord` | maubot/handlers/command.py:404-409 | strip and split at whitespace takes exactly the first word of any text |
| `Commands.ParseArguments` | maubot/handlers/command.py:168-184 | the loop over the arguments computes the recursive parse, replies on errors included |
| `Commands.ParseArgsAppend` | maubot/handlers/command.py:168-184 | parsing a concatenated argument list is parsing the parts in sequence, stopping at the first error |
| `Commands.ParsePlain` | maubot/handlers/command.py:404-409 | one plain argument binds the first word or the empty string and leaves the other words |
| `Commands.ParseCustom` | maubot/handlers/command.py:393-401 | a custom parser gets the first word of any text: its value is bound and the word goes; if it declines, a required argument stops with the usage and an optional one takes nothing; its errors are answered by message, by usage or let through |
| `Commands.ParseRegexp` | maubot/handlers/command.py:367-377 | a regular expression sees the first word, or the stripped text if raw: the matched front goes and is bound, as text or as groups; otherwise as above |
| `Commands.ParseCustomRaw` | maubot/handlers/command.py:393-395 | a raw custom parser gets the stripped text and decides what is left |
| `Commands.Tokenizer` | maubot/handlers/command.py:168-184 | k plain arguments bind the first k words padded with empty strings, the rest holds the other words and is blank iff there are at most k |
| `Commands.TrailingRaw` | maubot/handlers/command.py:404-409 | a raw argument behind them receives the stripped rest, inner whitespace intact |
| `Commands.MatchLeavesSuffix` | maubot/handlers/command.py:367-409 | every match leaves a suffix of its input, all of it if it yields nothing; of a raw custom parser, which returns its own remainder, this is the premise |
| `Commands.RestIsSuffix` | maubot/handlers/command.py:168-184 | the text left by a whole list of such arguments is a suffix of the stripped input |
| `Commands.UnsetCommutes` | maubot/handlers/command.py:168-184 | a name bound to None before or after parsing is the same unless the list binds it |
| `Commands.TransparentOptional` | maubot/handlers/command.py:367-401 | an optional argument that does not match changes nothing but its own binding, wherever it stands |
| `Dispatch.FirstMatch` | maubot/handlers/command.py:161-162 | the first subcommand that accepts the word, none before it does; -1 iff none does |
| `Dispatch.Ignored` | maubot/handlers/command.py:122-126 | the bot's own messages, other message types and texts without a leading `!` are ignored |
| `Dispatch.OnlyItsCommand` | maubot/handlers/command.py:127-130 | the command is what stands before the first space: a handler ignores commands that its matcher refuses in lower case, and gets the rest of those it accepts |
| `Dispatch.IgnoredBelow` | maubot/handlers/command.py:122-123 | every node down the tree checks sender and message type again |
| `Dispatch.CallSubcommandOnce` | maubot/handlers/command.py:157-166 | at most one effect, and none if no subcommand was chosen |
| `Dispatch.InvokeOnce` | maubot/handlers/command.py:115-155 | any node, with any flags and text, has at most one effect |
| `Dispatch.SingleOutcome` | maubot/handlers/command.py:115-184 | dispatch terminates in silence, in one reply, in one call or in one exception of a parser, for every tree, flag setting, matcher and message |
| `Dispatch.PlainLeaf` | maubot/handlers/command.py:131-155 | a leaf on any text: help if there are more words than it takes and it must consume them, otherwise a call with the padded words |
| `Dispatch.PlainNode` | maubot/handlers/command.py:131-155 | any node with plain arguments, on any text and with any flags: the subcommand that the text selects before or after the arguments, help for a missing one, help for words left over, or the call with the padded words |
| `Dispatch.ParseJoined` | maubot/handlers/command.py:168-184 | plain arguments take their own tokens off a printed path |
| `Dispatch.CallJoined` | maubot/handlers/command.py:157-166 | the next token of a printed path selects the subcommand |
| `Dispatch.InvokePath` | maubot/handlers/command.py:115-166 | descending any printed path, in fallthrough or subcommand-first nodes, calls its target once |
| `Dispatch.CommandRoundTrip` | maubot/handlers/command.py:115-184 | printing a path as a message and dispatching it calls exactly that node's function, once, with the path's bindings |
| `Dispatch.NoSuchSubcommand` | maubot/handlers/command.py:141-147 | a printed command that stops short of a subcommand it requires, or names one that there is not, gets the help and nothing else |
| `Dispatch.NamesSelect` | maubot/handlers/command.py:161-163 | where siblings share no name or alias, each of the words of a node selects that node |
| `Dispatch.BindAllLookup` | maubot/handlers/command.py:171-173 | distinct names are bound to their own texts and nothing else changes |
| `Dispatch.RoundTripBindings` | maubot/handlers/command.py:115-184 | with distinct names along the path, the call gets those names, each with its own token, and no others |
| `Dispatch.SpelledLeads` | maubot/handlers/command.py:157-166 | in a tree of distinct whitespace-free sibling names and aliases, a path spelled with words of its nodes selects exactly those nodes |
| `Dispatch.NamedRoundTrip` | maubot/handlers/command.py:115-184 | the round trip under premises a plugin author can see: such a tree with a lower-case root, distinct argument names along the path, plain tokens: the target is called once, with each name bound to its own token and nothing else |
| `PluginDatabase.StepKeepsInv` | maubot/lib/plugin_db.py:55-97 | every atomic step of every task, proxy or pool keeps permits, ownership, paths and bodies consistent |
| `PluginDatabase.RunKeepsInv` | maubot/lib/plugin_db.py:82-97 | so does every interleaving |
| `PluginDatabase.SchemaIsolation` | maubot/lib/plugin_db.py:82-97 | after any interleaving no connection is used by two tasks, and open connections no plugin holds have the default path if no task came in before its proxy knew that path |
| `PluginDatabase.BodySeesItsOwn` | maubot/lib/plugin_db.py:85-88 | in every run, while a body's connection is open, its path is the one the task's own steps set last, and the schema of its plugin if they set none; so every body begins with its own schema |
| `PluginDatabase.ProxiesStayAsCreated` | maubot/lib/plugin_db.py:49-53 | schema and bound of a proxy are those of its creation in every run |
| `PluginDatabase.NoTaskIsStuck` | maubot/lib/plugin_db.py:82-97 | outside the waits for a permit and a connection every task has a step, with an open and with a closed connection, after failures too |
| `PluginDatabase.PoolIsFree` | maubot/lib/plugin_db.py:55-60 | the pool and its other users may open, close, reconnect, take and return connections, and proxies and tasks may come, at any time |
| `PluginDatabase.IsolatedAfterStart` | maubot/lib/plugin_db.py:55-97 | on any server, in every run whose tasks come in after their proxy was started, open connections no plugin holds have the default path |
| `PluginDatabase.EarlyTaskLeaks` | maubot/lib/plugin_db.py:51-51 | on a server with another default, a task that comes in before `start` returns a connection with the wrong path |
| `PluginDatabase.IsolatedWithoutStart` | maubot/lib/plugin_db.py:51-60 | without waiting for `start`, every run keeps connections isolated if and only if the server default is the assumed one |
| `PluginDatabase.PermitConservation` | maubot/lib/plugin_db.py:52-84 | free plus held plus drained permits equal the bound, so no release exceeds it |
| `PluginDatabase.DrainedRun` | maubot/lib/plugin_db.py:62-71 | a drained proxy stays drained |
| `PluginDatabase.FinalDrain` | maubot/lib/plugin_db.py:62-97 | once all permits are drained no task of the proxy holds one, nor in any later step |
| `PluginDatabase.Stop` | maubot/lib/plugin_db.py:62-71 | the draining loop, with any steps of anyone in between: unless it gives up for lack of a free permit, the proxy is fully drained |
| `PluginLoader.Registry.NoSharing` | maubot/loader/zip.py:70-101 | in whole registries no two loaders share a path or an id, and both registries hold the same loaders |
| `PluginLoader.Registry.LoadMeta` | maubot/loader/zip.py:162-172 | exactly when it succeeds, when it raises an import error and when another exception; the metadata is taken over iff it is readable and its id the known one, also when it then proves unusable |
| `PluginLoader.Registry.ReadArchive` | maubot/lib/zipimport.py:376-380 | the parse of the file now on disk, or that it cannot be opened |
| `PluginLoader.Registry.GetImporter` | maubot/loader/zip.py:174-182 | exactly when it succeeds; the importer is for the loader's path; after a reset it and the cache entry equal a fresh parse |
| `PluginLoader.Registry.Load` | maubot/loader/zip.py:202-241 | a load with reset succeeds exactly when metadata, directory, preload checks and modules do, and then importer and cache are fresh; no load changes the id; exactly when the failure is no import error |
| `PluginLoader.Registry.Preload` | maubot/loader/zip.py:70-80 | a new loader exactly when metadata, directory (possibly a stale one) and preload checks are good; the registries are untouched |
| `PluginLoader.Registry.Get` | maubot/loader/zip.py:81-101 | the registered loader of the path, or a new one in both registries under its path, exactly when it preloads and its id is unused; every failure leaves them as they were |
| `PluginLoader.Registry.Move` | maubot/loader/zip.py:245-251 | exactly one entry moves; from whole registries to whole ones iff the new path was nobody else's, otherwise the other loader is lost by path |
| `PluginLoader.Registry.Reload` | maubot/loader/zip.py:243-252 | under its unchanged id and exactly its new path even when it fails; exactly when it succeeds and when its failure is no import error; whole registries stay whole iff the path was not another's; on success importer and directory cache are a fresh parse |
| `PluginLoader.Registry.Delete` | maubot/loader/zip.py:261-277 | exactly its two entries, its file and its archive's directory cache entry disappear, and whole registries stay whole |
| `PluginLoader.Registry.LoadFile` | maubot/loader/zip.py:305-312 | one file: registered, or trashed, or an exception escapes, exactly when preloading raises one that is no import error |
| `PluginLoader.Registry.LoadAll` | maubot/loader/zip.py:297-312 | registered loaders stay, no registered file is lost, every file found is registered or trashed, the registries are as whole as before; an exception escapes exactly when a file that raises it is left unregistered |
| `PluginLoader.Registry.UploadNew` | maubot/management/api/plugin_upload.py:83-92 | which answer in which case; a new loader is registered under the uploaded id iff the answer is "created" and nobody owned the path; on an owned path the owner's file is overwritten, nothing is registered and the answer is "created" all the same; a refused file is gone |
| `PluginLoader.Registry.RollBack` | maubot/management/api/plugin_upload.py:119-141 | back on the old path under the same id and the new file trashed, even when the old file does not load; exactly when it loads and when its failure is no import error |
| `PluginLoader.Registry.UploadReplacement` | maubot/management/api/plugin_upload.py:95-145 | which answer in which case, rollback included; update atomicity: new content on success and the untouched old content after either rollback, iff the new path differs from the old; same id; on every outcome whole registries stay whole iff no other loader owns the new path, and an owner loses its entry and its file; the files afterwards, all of them |
| `PluginLoader.Registry.ReplacementAnswers` | maubot/management/api/plugin_upload.py:115-145 | the answers one by one, over what the two loads find and how the instances start |
| `PluginLoader.Registry.NewAnswers` | maubot/management/api/plugin_upload.py:87-92 | the same for a new plugin |
| `PluginLoader.Registry.UploadVersion` | maubot/management/api/plugin_upload.py:95-145 | the same under the derived file name: the promise to the plugin fails exactly when the same version is uploaded again within the millisecond its name carries |
| `UploadNames.OtherVersionOtherName` | maubot/management/api/plugin_upload.py:100-108 | substituting another version always changes the name, stamps and repeated occurrences included |
| `UploadNames.SameVersionName` | maubot/management/api/plugin_upload.py:101-108 | substituting an equal version with a stamp keeps the name iff it is the same text and every occurrence carries that stamp |
| `UploadNames.AppendedNameDiffers` | maubot/management/api/plugin_upload.py:109-111 | a name without the version in it always changes, for all that `rstrip` may strip |
| `UploadNames.VersionAppended` | maubot/management/api/plugin_upload.py:109-111 | in a name without the version, the new one is appended before the suffix |
| `UploadNames.NameKept` | maubot/management/api/plugin_upload.py:98-111 | the derived name is the old one iff the same version text occurs in it, everywhere with the current stamp |
| `UploadNames.SameMillisecond` | maubot/management/api/plugin_upload.py:101-108 | names for which that happens |
| `UploadNames.NextVersion` | maubot/management/api/plugin_upload.py:100-108 | in a name of the usual form exactly the version changes, whoever may own the new name |
| `Collisions.ReloadOntoAnother` | maubot/loader/zip.py:243-252 | two plugins, and a reload of one onto the path of the other: it succeeds, and the registries no longer hold the same loaders |
| `Collisions.UploadOntoAnother` | maubot/management/api/plugin_upload.py:95-130 | x-v1.0.mbp of plugin a, x-v2.0.mbp of plugin b, and a refused upload of a 2.0: plugin b loses its path entry and its file |
| `Collisions.NewOntoAnother` | maubot/management/api/plugin_upload.py:83-92 | a new plugin uploaded to the path of another: answered as created, not registered, and the other's file overwritten |
| `PluginLoader.Registry.Perform` | maubot/loader/zip.py:95-312 | every operation, failing or not, keeps the registries coherent, and whole ones whole exactly when it does not land on another loader's path |
| `PluginLoader.Registry.Run` | maubot/loader/zip.py:70-312 | operations performed in turn up to the first that lands on another loader's path leave the registries whole, failed reloads included, so every run without a landing does |
| `PluginLoader.Registry.RunAll` | maubot/loader/zip.py:70-312 | whatever lands where, every run keeps the registries coherent |
| `Lifecycle.LiveInstance` | maubot/instance.py:258-262 | a live instance is in the references of the loader and the client it points at, so removing it never raises; both are cached under its type and user, and the user has a client row |
| `References.AttachKeeps` | maubot/instance.py:242-243 | adding both references keeps pointers and reference sets inverse, also when repeated |
| `References.SwitchKeeps` | maubot/instance.py:460-463 | out of the old owner's set and into the new one's keeps them inverse |
| `References.NewOwnerKeeps` | maubot/loader/abc.py:64-65 | a new owner without references keeps them inverse |
| `References.DropOwnerKeeps` | maubot/management/api/plugin.py:43-47 | an owner without references may leave its cache |
| `References.BirthKeeps` | maubot/instance.py:99-112 | a new instance without owners keeps them inverse |
| `References.DeathKeeps` | maubot/instance.py:258-266 | a deleted instance is in no references |
| `Lifecycle.ReferenceGraph` | maubot/instance.py:225-272 | members of any loader's or client's references, cached or not, are live and point back, so they are in at most one of each kind and that owner is cached; a running instance is in the references of a cached loader and a cached client under its type and user |
| `Lifecycle.AttachInv` | maubot/instance.py:242-243 | `load`'s last step keeps the whole invariant |
| `Lifecycle.SwitchClientInv` | maubot/instance.py:459-464 | so does the middle of `update_primary_user` |
| `Lifecycle.SwitchLoaderInv` | maubot/instance.py:477-482 | so does the middle of `update_type` |
| `Lifecycle.PostinitInv` | maubot/instance.py:99-112 | so does a new object for a row |
| `Lifecycle.DeleteInstanceInv` | maubot/instance.py:258-267 | so does deleting a stopped instance |
| `Lifecycle.DropClientInv` | maubot/client.py:542-547 | so does deleting a client without references, also when the foreign key keeps its row |
| `Lifecycle.DropLoaderInv` | maubot/loader/zip.py:261-270 | so does deleting a plugin without references |
| `Lifecycle.ReferencesArePointers` | maubot/loader/abc.py:58-69 | the references of a plugin are exactly the live instances that point at it |
| `Lifecycle.Maubot.GetClient` | maubot/client.py:549-580 | none iff there is no row; otherwise the one cached object, created without references if need be |
| `Lifecycle.Maubot.UpdateEnabled` | maubot/instance.py:491-494 | only that field changes, and the row with it |
| `Lifecycle.Maubot.Load` | maubot/instance.py:225-244 | succeeds iff the plugin is found, the client always being found by the foreign key; both references then, or the instance is disabled |
| `Lifecycle.Maubot.Start` | maubot/instance.py:351-418 | the type, user, enabled and started fields afterwards, and whether it raises, as a function of those before, the known plugins and the plugin's behaviour; pointers it had are kept, and both are there before plugin code runs; other instances untouched |
| `Lifecycle.StartExactly` | maubot/instance.py:351-418 | a start leaves type and user, and says field by field when it ends running, disabled or raising |
| `Lifecycle.Maubot.Stop` | maubot/instance.py:420-436 | exactly this instance stops |
| `Lifecycle.Maubot.UpdatePrimaryUser` | maubot/instance.py:452-467 | refused without change iff the user has no client; otherwise the new user and client, restarted as `start` does |
| `Lifecycle.Maubot.UpdateType` | maubot/instance.py:469-485 | refused without change iff there is no such plugin; otherwise its loader, restarted |
| `Lifecycle.Maubot.UpdateStarted` | maubot/instance.py:487-489 | starts or stops as asked, user and type kept |
| `Lifecycle.Maubot.GetInstance` | maubot/instance.py:501-514 | none iff there is no row; otherwise the one cached object |
| `Lifecycle.Maubot.BringUp` | maubot/management/api/instance.py:55-59 | a fresh instance of a known plugin gets both references and runs iff enabled and its plugin starts |
| `Lifecycle.Maubot.CreateNew` | maubot/instance.py:516-522 | one new cached instance with its row, all others untouched |
| `Lifecycle.Maubot.CreateInstance` | maubot/management/api/instance.py:41-60 | exactly which answer in which case, and the new instance as a whole |
| `Lifecycle.CreationAnswers` | maubot/management/api/instance.py:41-60 | each answer to a request for a new instance with exactly its case |
| `Lifecycle.Maubot.UpdateInstance` | maubot/management/api/instance.py:63-72 | exactly which answer (user not found, an exception at one of the three starts or from the plugin's handler of a new configuration, updated) and the exact type, user, enabled and started fields afterwards; nothing changes if the user is not found, and no other instance ever does |
| `Lifecycle.UpdateHonoured` | maubot/management/api/instance.py:63-71 | a completed update field by field: the user asked for; the type asked for if there is such a plugin and the old one otherwise; enabled as asked for or as settled, unless a later start fails or finds no plugin; running as the last step that starts or stops it leaves it |
| `Lifecycle.UpdateRaises` | maubot/management/api/instance.py:63-71 | exactly when plugin code ends an update: at the switch of user, the new configuration, the start asked for or the switch of type |
| `Lifecycle.EnabledAsRequested` | maubot/instance.py:491-494 | a request for the enabled flag alone sets it, either way, and nothing else |
| `Lifecycle.StartedAsRequested` | maubot/instance.py:487-489 | a request for `started: true` alone starts a stopped, enabled instance whose plugin is there and starts; `false` stops it |
| `Lifecycle.DisabledRunsOn` | maubot/management/api/instance.py:63-71 | an instance disabled by an update runs on iff it runs once its user is settled and is neither stopped explicitly nor moved to a known type; and exactly when such an update raises, at the switch of user or at a new configuration |
| `Lifecycle.DisablingDoesNotStop` | maubot/management/api/instance.py:67-67 | a running instance with nothing but `enabled: false` is disabled and still running |
| `Lifecycle.UnknownTypeIsIgnored` | maubot/management/api/instance.py:70-71 | a request for a type only leaves everything as it is, and is answered as an update, iff there is no such plugin |
| `Lifecycle.Maubot.PutInstance` | maubot/management/api/instance.py:74-85 | with a row the exact update of the saved instance, cached or not; without one the exact answer and the new instance as a whole |
| `Lifecycle.Maubot.RemoveInstance` | maubot/management/api/instance.py:88-97 | not found iff there is no row; otherwise row, cache entry and object gone, the instance stopped |
| `Lifecycle.Maubot.StartMany` | maubot/client.py:319-320 | every instance of a set goes through `start` on its own, whatever the others do; exactly when one of them raises |
| `Lifecycle.Maubot.StopMany` | maubot/client.py:322-323 | exactly the set stops |
| `Lifecycle.Maubot.StartInstances` | maubot/loader/abc.py:83-86 | exactly the enabled references go through `start` |
| `Lifecycle.Maubot.StopInstances` | maubot/loader/abc.py:78-81 | exactly the references stop |
| `Lifecycle.Maubot.StartClient` | maubot/client.py:251-320 | unless running already or refused: started, and all references through `start` |
| `Lifecycle.Maubot.StopClient` | maubot/client.py:332-338 | exactly its references stop |
| `Lifecycle.Maubot.CreateClient` | maubot/management/api/client.py:48-88 | a new row and a cached client without references, iff the user had none |
| `Lifecycle.Maubot.DeleteClient` | maubot/management/api/client.py:151-162 | in use iff it has references; refused by the database, after it has left the cache, iff it has none and an instance row names it; whatever the answer, no instance and no instance row changes |
| `Lifecycle.RefusedDelete` | maubot/client.py:542-547 | a state, reached by loading an instance whose plugin is gone, in which the database refuses: the row stays and the client is no longer cached |
| `Lifecycle.Maubot.AddPlugin` | maubot/loader/zip.py:81-89 | a new plugin without references, iff the id is unused |
| `Lifecycle.Maubot.DeletePlugin` | maubot/management/api/plugin.py:39-48 | in use iff some live instance points at it; otherwise exactly its cache entry goes |
| `Lifecycle.Maubot.ReloadPlugin` | maubot/management/api/plugin.py:51-64 | after a good reload its instances run iff they were enabled and start, and the request raises iff one of those does; after a failed one none of them runs; no other instance changes |
| `Lifecycle.Maubot.LoadInstances` | maubot/__main__.py:169-173 | afterwards every instance row has a cached instance: with both references and otherwise as saved if its plugin is known, disabled and otherwise as saved if not |
| `Lifecycle.Maubot.Perform` | maubot/management/api/instance.py:41-97 | every operation keeps the reference graph |
| `Lifecycle.Maubot.Run` | maubot/instance.py:225-494 | after every sequence of operations, with any plugin behaviour, running instances are anchored in cached owners |
| `Scheduler.StepKeepsInv` | maubot/scheduler.py:103-159 | every slice of every task, callback and cancellation keeps the bookkeeping |
| `Scheduler.TasksAreTracked` | maubot/scheduler.py:103-130 | in every reachable state `tasks` is the live tasks plus the finished ones with a pending callback; a loop that catches errors only ends by cancellation |
| `Scheduler.StepKeepsDoomed` | maubot/scheduler.py:107-152 | a step after the stop calls nothing registered before, unless a cancellation is swallowed |
| `Scheduler.StopIsFinal` | maubot/scheduler.py:154-159 | in every run after `stop` no function registered before is called or entered again, if none of those swallows its cancellation |
| `Scheduler.SwallowRevives` | maubot/scheduler.py:115-130 | a periodic function that swallows it is called again |
| `Scheduler.StepKeepsSpent` | maubot/scheduler.py:107-152 | tasks that are not inside a periodic function cannot call again even if they swallow |
| `Scheduler.StopIsFinalWhateverHappens` | maubot/scheduler.py:103-159 | no later run calls an earlier function if and only if no live loop is inside its function at the stop |
| `Scheduler.CallsExactly` | maubot/scheduler.py:107-152 | in every run a loop and a delayed task call once each time they wake, a background task enters its coroutine once it begins; a delayed or background task runs at most once, and has run when it is in its function; every call is logged for its own registration |
| `Scheduler.OneTaskEach` | maubot/scheduler.py:117-122 | a loop in background mode has exactly one task for each coroutine its function returned, and other loops have none |
| `Scheduler.SleepsOrEnds` | maubot/scheduler.py:123-130 | only a loop goes back to sleep, after a return or an error that it catches; everything else ends, cancelled or not |
| `Scheduler.FailsToSpawn` | maubot/scheduler.py:117-130 | in background mode a function that itself raises ends the loop iff errors are not caught |
| `Scheduler.NoTaskIsStuck` | maubot/scheduler.py:107-152 | every live task has a step, marked or not, and every due callback can run |
| `Scheduler.CancelIsFinal` | maubot/scheduler.py:95-101 | a task whose owner cancels it calls nothing any more in any run, unless its function swallows that |
| `Scheduler.BasicScheduler.RegisterTask` | maubot/scheduler.py:103-105 | one more live, tracked task |
| `Scheduler.BasicScheduler.Stop` | maubot/scheduler.py:154-159 | the loop marks exactly the live registered tasks for cancellation |

## Left out

- HTTP requests, responses, authentication, websockets and the web frontend: transport around the operations modelled.
- Matrix sync, encryption, profiles, tombstones and `update_access_details`: they depend on mautrix, which is not part of this model; `Client.start` is reduced to whether it succeeds.
- `PluginInstance.update_id`: it changes the id that is cache key and hash without moving the cache entry, so the reference graph is claimed for the other operations.
- The configuration text, `update_db_engine`, the web app and the per-instance database of an instance: they touch neither references nor caches.  Of `update_config` the model has whether a request brings a new text and whether the running plugin's handler raises.
- Interleavings inside `asyncio.gather` and between management requests: each operation of `Lifecycle` and `PluginLoader` runs to completion, and no request is cancelled half-way.
- Foreign keys are the database's: that instance rows name existing clients is taken from the schema (maubot/db/upgrade/v01_initial_revision.py, line 61).
- How an upload splits a path into directory and name: `UploadVersion` takes the two parts.  Versions are taken to contain no dash, as PEP 440 writes them.
- Exceptions that are no MaubotZipImportError while the new file is loaded: the source does not roll back then; `UploadReplacement` says exactly when (`Uncaught(false)`) and promises only the registries.
- Freshness of the directory cache on a first load: the source may use a stale entry there, so freshness is claimed after `reload` only.
- The importer's search for an archive in parent directories, and the joined path stored with each entry: plugin paths name the archive itself.
- Decompression, checksums, name decoding, code objects and module execution: foreign functions, kept as parameters.
- The inside of regular expressions and custom parsers: any function that matches, declines or raises; an exception that the argument loop does not catch ends the dispatch as the effect `Raise`.
- Commands.MatchLeavesSuffix: of a custom raw argument, which returns its own remainder, it is a premise that the remainder is a suffix, and all of the text when it declines.
- Commands.RestIsSuffix: the same premise on custom raw arguments.
- Commands.TransparentOptional: the same premise on the optional argument if it is custom raw.
- Command decorators, bound copies and passive handlers: they build the trees that `Dispatch` takes as given.
- `PluginDatabase` models the pool and its tasks as values, because interleaved steps have no single method to live in; that the pool resets connections on release is not relied upon, and cancelled tasks are out.
- PluginDatabase.SchemaIsolation: users of the pool that are no plugins are taken never to set a path, and a body that leaves a transaction open, whose rollback would undo the reset of the path, is not modelled.
- `Scheduler` takes calling a registered function to run none of its code until it is awaited, as for coroutine functions; a plain function that calls `stop` while being called is outside.
- Real time: periods, delays and timeouts only decide when a step happens, and every order of steps is covered.
- The command-line client, configuration, SQL text, schema introspection, logging and the standalone mode: plumbing.
