# plaso core, modelled in Dafny

plaso ("plaso langar að safna öllu") is a forensic timeline tool. Its parsers and plugins read file formats and registry, plist, SQLite, ESE, OLE CF and bencode data. From each record they produce timestamped events. A file-system collector walks a source image and its volume shadow copies and hands each file to the parsers. Formatters and output modules turn the events into text.

This project models the sequential, deterministic core of that pipeline and proves what the code promises about it:

- byte and text layouts are decoded exactly as the code reads them, with the same offsets, bounds checks, error outcomes and constants;
- fixed rules turn each record into events, and the proofs cover how many events, in what order and with which timestamps and descriptions;
- the collector's walk order, skip rules and duplicate suppression;
- the integer timestamp conversions of `plaso/lib/timelib.py`;
- the string handling of the formatters, the output modules and the registry console.

Each core source file is one Dafny module in one file:

| Dafny file | module | source |
|---|---|---|
| appcompatcache.dfy | AppCompatCache | plaso/parsers/winreg_plugins/appcompatcache.py |
| collector.dfy | Collector | plaso/engine/collector.py |
| timelib.dfy | Timelib | plaso/lib/timelib.py |
| plist_interface.dfy | PlistInterface | plaso/parsers/plist_plugins/interface.py |
| cups_ipp.dfy | CupsIpp | plaso/parsers/cups_ipp.py |
| mac_keychain.dfy | MacKeychain | plaso/parsers/mac_keychain.py |
| firefox_cache.dfy | FirefoxCache | plaso/parsers/firefox_cache.py |
| java_idx.dfy | JavaIdx | plaso/parsers/java_idx.py |
| symantec.dfy | Symantec | plaso/parsers/symantec.py |
| symantec_formatter.dfy | SymantecFormatter | plaso/formatters/symantec.py |
| mactime.dfy | Mactime | plaso/parsers/mactime.py |
| mac_securityd.dfy | MacSecuritydLog | plaso/parsers/mac_securityd.py |
| mac_appfirewall.dfy | MacAppFirewall | plaso/parsers/mac_appfirewall.py |
| skydrivelogerr.dfy | SkyDriveLogErr | plaso/parsers/skydrivelogerr.py |
| xchatscrollback.dfy | XChatScrollback | plaso/parsers/xchatscrollback.py |
| winfirewall.dfy | WinFirewall | plaso/parsers/winfirewall.py |
| browser_search.dfy | BrowserSearch | plaso/analysis/browser_search.py |
| mackeeper_cache.dfy | MacKeeperCache | plaso/parsers/sqlite_plugins/mackeeper_cache.py |
| chrome_cookies.dfy | ChromeCookies | plaso/parsers/sqlite_plugins/chrome_cookies.py |
| mac_document_versions.dfy | MacDocumentVersions | plaso/parsers/sqlite_plugins/mac_document_versions.py |
| appusage.dfy | AppUsage | plaso/parsers/sqlite_plugins/appusage.py |
| olecf_summary.dfy | OlecfSummary | plaso/parsers/olecf_plugins/summary.py |
| esedb_interface.dfy | EsedbInterface | plaso/parsers/esedb_plugins/interface.py |
| msiecf.dfy | Msiecf | plaso/parsers/msiecf.py |
| utorrent.dfy | UTorrent | plaso/parsers/bencode_plugins/utorrent.py |
| transmission.dfy | Transmission | plaso/parsers/bencode_plugins/transmission.py |
| officemru.dfy | OfficeMru | plaso/parsers/winreg_plugins/officemru.py |
| usbstor.dfy | UsbStor | plaso/parsers/winreg_plugins/usbstor.py |
| terminal_server.dfy | TerminalServer | plaso/parsers/winreg_plugins/terminal_server.py |
| outlook.dfy | Outlook | plaso/parsers/winreg_plugins/outlook.py |
| plist_bluetooth.dfy | PlistBluetooth | plaso/parsers/plist_plugins/bluetooth.py |
| plist_safari.dfy | PlistSafari | plaso/parsers/plist_plugins/safari.py |
| plist_airport.dfy | PlistAirport | plaso/parsers/plist_plugins/airport.py |
| plist_default.dfy | PlistDefault | plaso/parsers/plist_plugins/default.py |
| winlnk_formatter.dfy | WinLnkFormatter | plaso/formatters/winlnk.py |
| winprefetch_formatter.dfy | WinPrefetchFormatter | plaso/formatters/winprefetch.py |
| filestat_formatter.dfy | FilestatFormatter | plaso/formatters/filestat.py |
| l2t_tln.dfy | L2tTln | plaso/output/l2t_tln.py |
| dynamic.dfy | Dynamic | plaso/output/dynamic.py |
| preg.dfy | Preg | plaso/frontend/preg.py |

Seven modules hold what several source files share:

- **Common** holds bytes, Option and Result, little- and big-endian readers, a file object with a cursor, and the Python 2 semantics of str and int that the parsers rely on: slicing, strip, find, partition, split, replace, lower, int(text, base), str(n) and hexlify.
- **WinReg** holds registry keys, values and the registry event.
- **BencodeValues** holds bencoded values.
- **Formatters** holds the event object as formatters see it.
- **OutputStore** holds what the output modules read from the storage file.
- **YearTracking** holds the year bookkeeping of the two macOS log parsers. The two parsers carry identical copies of it.
- **Sorting** holds Python's sorted() on the report values.

The modelling follows the code:

- Where the code changes state in place, the model is a class with that state as fields, and its methods state the new state. Examples are the collector's fingerprint table, the per-parser year and previous-line fields, the plist FakeFile, and the CUPS list rewritten in place.
- Where the code loops, the model is a method with a loop proved against a specification function.
- Generators are modelled as the sequence of events they yield, together with the outcome that ends them: normal completion, or the exception they raise.
- Foreign libraries and whatever is not visible in the source are parameters of the model:
  - dfvfs, pyesedb, pymsiecf and pyolecf objects;
  - registry keys and plist/bencode values, as input records;
  - `construct` and `pyparsing` structures, given as the byte or text layouts they declare;
  - md5, UTF-16 decoding, json.loads, urllib.unquote, FromTimeParts, FromTimeString, CopyToIsoFormat and LocaltimeToUTC, as functions passed in.

Defects in the code are reproduced as written, not repaired. Some become error outcomes:

- the AttributeError of the missing Vista header structure;
- the TypeError of `data_dict.get('copies', 0)[0]`;
- the keychain internet record's missing argument;
- a repeated line with no previous line;
- the unbound `pre_obj` in ParseUsername;
- the stale split variables of the USBStor plugin.

Others are reproduced exactly:

- the FAT year loop that counts days from year 0;
- keychain comments read through the description offset.

Where the code and its own comments disagree, the model follows the code. For example, the collector's comment at `plaso/engine/collector.py:361-362` speaks of breadth-first traversal, but the code recurses into each subdirectory in turn. The model proves the depth-first order the code has.

## Model

| member | source | states |
|---|---|---|
| AppCompatCache.CheckSignature | plaso/parsers/winreg_plugins/appcompatcache.py:184-207 | FieldError iff fewer than four bytes; the XP, 2003 and 7 signatures give their format; Windows 8 only when an 8.0 or 8.1 entry signature sits at the offset the signature value names; anything else is None |
| AppCompatCache.ParseHeader | plaso/parsers/winreg_plugins/appcompatcache.py:209-257 | RuntimeError for an unsupported format, AttributeError for Vista, FieldError iff the buffer is shorter than the header; the header size is 400, 8 or 128 and the entry count is the u32 at offset 4 except for Windows 8, where it stays 0 |
| AppCompatCache.DetermineCacheEntrySize | plaso/parsers/winreg_plugins/appcompatcache.py:259-327 | fixed sizes for XP and Windows 8; for 2003, Vista and 7, None iff the maximum path size is below the path size, the path size is 0 or they differ by other than 2, else the 64-bit size exactly when the 32-bit path offset is 0 and the 64-bit one is not |
| AppCompatCache.ReadEntryFields | plaso/parsers/winreg_plugins/appcompatcache.py:363-387 | the path size is the first u16; only 2003 has a file size, only Vista and 7 have flags, only 7 a data size |
| AppCompatCache.XpPathSize | plaso/parsers/winreg_plugins/appcompatcache.py:416-421 | the XP path length is the even offset of the first 00 00 pair within the 528-byte path area, or 528 without one |
| AppCompatCache.ScanXpPath | plaso/parsers/winreg_plugins/appcompatcache.py:416-421 | the loop updating string_size computes XpPathSize |
| AppCompatCache.ParseEntryXp | plaso/parsers/winreg_plugins/appcompatcache.py:357-360 | RuntimeError unless the size is the XP entry size; a parsed XP entry has both a modification and an update time |
| AppCompatCache.ParseEntryFields | plaso/parsers/winreg_plugins/appcompatcache.py:362-387 | RuntimeError unless the size is one of the format's two layouts; a parsed entry has a modification time and no update time |
| AppCompatCache.ParseEntry8 | plaso/parsers/winreg_plugins/appcompatcache.py:389-404 | RuntimeError without an 8.0 or 8.1 signature or with another size; the entry size becomes 12 plus the entry's own data size |
| AppCompatCache.ParseCachedEntry | plaso/parsers/winreg_plugins/appcompatcache.py:329-494 | every parsed entry is at least 12 bytes long, so the record loop advances |
| AppCompatCache.ParseCachedEntryRejects | plaso/parsers/winreg_plugins/appcompatcache.py:347-407 | the RuntimeError cases: an unsupported format, a size matching none of the format's layouts, a Windows 8 entry without its signature |
| AppCompatCache.ParseCachedEntryAdvance | plaso/parsers/winreg_plugins/appcompatcache.py:398-494 | a parsed entry lay within the buffer, has a modification time, has an update time exactly for XP, and advances by the given size or, for Windows 8, by 12 plus its data size |
| AppCompatCache.PathFromWholeBuffer | plaso/parsers/winreg_plugins/appcompatcache.py:483-492 | for 2003, Vista and 7 the path and data are slices of the whole buffer at their offsets, taken only when offset and size, or the data size, are positive |
| AppCompatCache.EntryEvents | plaso/parsers/winreg_plugins/appcompatcache.py:562-581 | one event per time the entry has, each carrying 'Cached entry: n' with the path and the entry's offset |
| AppCompatCache.GetEntries | plaso/parsers/winreg_plugins/appcompatcache.py:511-595 | the events and the escaping exception are those of the specification Entries |
| AppCompatCache.RunEntryLoop | plaso/parsers/winreg_plugins/appcompatcache.py:557-589 | the while loop over cached_entry_offset and cached_entry_index computes EntryLoop |
| AppCompatCache.UnsupportedSignatureAlert | plaso/parsers/winreg_plugins/appcompatcache.py:529-536 | an unknown signature gives exactly one alert at the key's last-written time and no exception |
| AppCompatCache.HeaderOnlyBuffer | plaso/parsers/winreg_plugins/appcompatcache.py:538-543 | a buffer no longer than its header yields nothing, and a shorter one ends in FieldError |
| AppCompatCache.UnsupportedEntrySizeAlert | plaso/parsers/winreg_plugins/appcompatcache.py:546-555 | rejected path sizes give exactly one alert at the key's last-written time |
| AppCompatCache.LoopEndsWithSummary | plaso/parsers/winreg_plugins/appcompatcache.py:557-595 | a loop without an exception ends with exactly one summary event, all earlier events being entry events, and its count is exactly the entries read before plus the entries the loop parsed (ParsedOffsets), at most a non-zero declared count |
| AppCompatCache.ParsedOffsets | plaso/parsers/winreg_plugins/appcompatcache.py:557-590 | the cursors of the parsed entries start at the first cursor, lie before the end of the data, each parses, each follows the previous by its entry's size, and there are at most as many as a non-zero declared count leaves |
| AppCompatCache.EntryEventOrder | plaso/parsers/winreg_plugins/appcompatcache.py:569-581 | an entry with both times gives its modification event, then its update event, both at the entry's offset |
| AppCompatCache.SliceWithin | plaso/parsers/winreg_plugins/appcompatcache.py:483-492 | a Python slice as long as asked for lies wholly inside the buffer and is the plain subsequence |
| AppCompatCache.ParserAdvances | plaso/parsers/winreg_plugins/appcompatcache.py:557-589 | whatever the format, parsing an entry either fails or moves the loop forward |
| AppCompatCache.FieldsDispatch | plaso/parsers/winreg_plugins/appcompatcache.py:346-387 | for 2003, Vista and 7 a supported format parses the slice of the value data from the entry's offset, as long as the entry |
| AppCompatCache.FieldsEntry | plaso/parsers/winreg_plugins/appcompatcache.py:362-387 | an entry of either layout's size parses, its path and data read from the whole buffer exactly when their offsets and sizes are non-zero (also lines 483-492) |
| Collector.Queue.Push | plaso/engine/collector.py:406 | ProducePathSpec appends one item to the queue and changes nothing else |
| Collector.TimeHashTimesOnly | plaso/engine/collector.py:328-357 | two files have the same fingerprint iff their four times and nanosecond parts agree, a missing attribute counting as 0 |
| Collector.ScanChild | plaso/engine/collector.py:365-406 | one child yields at most itself as a subdirectory to descend into |
| Collector.ScanChildren | plaso/engine/collector.py:363-406 | the subdirectories found are children of the directory |
| Collector.ScanChildExtends | plaso/engine/collector.py:396-406 | scanning a child only appends to the queue and only adds fingerprints to the table |
| Collector.ScanChildrenExtends | plaso/engine/collector.py:365-406 | scanning all children only appends to the queue and grows the table |
| Collector.WalkExtends | plaso/engine/collector.py:359-412 | a directory walk only appends to the queue and grows the table |
| Collector.WalkAllExtends | plaso/engine/collector.py:408-412 | walking the subdirectories in turn only appends and grows |
| Collector.SkippedChildIgnored | plaso/engine/collector.py:366-380 | an unallocated entry, a link, an entry whose check raises BackEndError and the root's TSK $OrphanFiles leave the state as it was and are not descended into |
| Collector.OrphanFilesDeeperWalked | plaso/engine/collector.py:378-389 | a directory named $OrphanFiles below the root is descended into like any other |
| Collector.DuplicateSuppression | plaso/engine/collector.py:391-406 | with the duplicate check on, a file is queued iff its fingerprint is not yet listed under its inode, and afterwards it is listed; with the check off it is always queued and the table is unchanged |
| Collector.FilesBeforeSubdirectories | plaso/engine/collector.py:363-412 | everything a directory's own scan queues comes before anything queued from its subdirectories: the walk recurses depth-first after the scan |
| Collector.ScanChildrenProducesSpecs | plaso/engine/collector.py:365-406 | a directory scan queues path specifications only |
| Collector.WalkOnlySpecs | plaso/engine/collector.py:359-412 | a walk queues path specifications only |
| Collector.WalkAllOnlySpecs | plaso/engine/collector.py:408-412 | walking the subdirectories queues path specifications only |
| Collector.FaultySiblingContinues | plaso/engine/collector.py:408-412 | a subdirectory whose listing raises AccessError or BackEndError is abandoned after what it queued, and its siblings are still walked |
| Collector.SpecItems | plaso/engine/collector.py:426-427 | one queue item per path specification, in order |
| Collector.FindSpecsProduceMatches | plaso/engine/collector.py:423-427 | with find specifications, exactly the searcher's matches are queued, the table is unchanged and nothing is raised |
| Collector.FileSystemCollector.constructor | plaso/engine/collector.py:302-318 | the duplicate check off, an empty table, directory metadata collected |
| Collector.FileSystemCollector.ProcessChild | plaso/engine/collector.py:365-406 | the loop body for one child updates the table and the queues as ScanChild says |
| Collector.FileSystemCollector.ScanDirectory | plaso/engine/collector.py:363-406 | the first loop of _ProcessDirectory computes ScanChildren: the new state and the subdirectory list |
| Collector.FileSystemCollector.ProcessSubdirectories | plaso/engine/collector.py:408-412 | the second loop recurses into each subdirectory, catching AccessError and BackEndError, as WalkAll |
| Collector.FileSystemCollector.ProcessDirectory | plaso/engine/collector.py:359-412 | the state and listing fault as the specification Walk |
| Collector.FileSystemCollector.Collect | plaso/engine/collector.py:414-432 | the searcher's matches with find specifications, otherwise the walk from the root, as CollectFs |
| Collector.SpecItemsConcat | plaso/engine/collector.py:426-427 | the items of concatenated matches are the concatenated items |
| Collector.VssRunConcat | plaso/engine/collector.py:176-210 | the stores are visited in the given order, converted from 1-based numbers to 0-based indices, and a caught error ends the whole run |
| Collector.VssRunOnlySpecs | plaso/engine/collector.py:178-210 | collecting the stores queues path specifications only |
| Collector.CollectFsOnlySpecs | plaso/engine/collector.py:414-432 | collecting a file system queues path specifications only |
| Collector.EndOfInputOnce | plaso/engine/collector.py:220-268 | a collection run without an exception ends with exactly one end-of-input signal, after path specifications only |
| Collector.MissingSourceSignalsEnd | plaso/engine/collector.py:228-234 | a missing source entry only signals the end of input |
| Collector.UnsupportedSourceRaises | plaso/engine/collector.py:236-241 | a source that is no directory, file or device raises CollectorError and queues nothing |
| Collector.ImageWithoutVss | plaso/engine/collector.py:260-262 | an image without VSS stores collects its file system and then signals the end of input |
| Collector.Collector.constructor | plaso/engine/collector.py:67-96 | a fresh file-system collector on the given queues, no filter and no VSS stores |
| Collector.Collector.SetFilter | plaso/engine/collector.py:270-277 | the filter is set and nothing else changes |
| Collector.Collector.SetVssInformation | plaso/engine/collector.py:287-296 | the store numbers are set and nothing else changes |
| Collector.Collector.ProcessVss | plaso/engine/collector.py:154-218 | the loop over the VSS stores computes VssRun, propagating only the IOError of a store that cannot be opened |
| Collector.Collector.ProcessImage | plaso/engine/collector.py:106-152 | the volume's file system, then its VSS stores unless collecting it failed, as ImageRun |
| Collector.Collector.Collect | plaso/engine/collector.py:220-268 | the whole collection run, as CollectSource |
| Collector.Queue.constructor | plaso/engine/collector.py:67-96 | a new queue holds nothing |
| Timelib.DaysInMonth | plaso/lib/timelib.py:154-175 | ValueError iff the 0-based month is outside 0..11; otherwise 28 to 31 days, 29 exactly for February of a leap year, the DAYS_PER_MONTH table for the other months |
| Timelib.DaysInYear | plaso/lib/timelib.py:178-190 | 366 days exactly in a leap year, 365 otherwise |
| Timelib.YearIsItsMonths | plaso/lib/timelib.py:72 | the twelve months of DAYS_PER_MONTH, with the leap day, add up to the days of the year |
| Timelib.MonthsTotalMonotone | plaso/lib/timelib.py:206-207 | the running day count of the loop never decreases |
| Timelib.DayOfYear | plaso/lib/timelib.py:193-209 | ValueError exactly when the loop reaches a month index above 11, that is for a month above 12 |
| Timelib.DayOfYearInYear | plaso/lib/timelib.py:193-209 | a valid day of a valid month gives a day of the year between 0 and the days of the year |
| Timelib.ComputeDayOfYear | plaso/lib/timelib.py:204-209 | the loop adding the past months computes DayOfYear |
| Timelib.CopyToPosix | plaso/lib/timelib.py:142-151 | the whole seconds, rounded down, of a microsecond timestamp |
| Timelib.FromPosixTime | plaso/lib/timelib.py:359-375 | 0 outside the supported range, else the seconds in microseconds; the result always lies within the range |
| Timelib.PosixRoundTrip | plaso/lib/timelib.py:142-151 | CopyToPosix undoes FromPosixTime within the range |
| Timelib.PosixZero | plaso/lib/timelib.py:359-375 | the result is 0 iff the input is 0 or out of range |
| Timelib.FromPosixTimeWithMicrosecond | plaso/lib/timelib.py:377-394 | 0 when the seconds convert to 0, otherwise the converted seconds plus the microseconds |
| Timelib.EpochWithMicrosecondIsZero | plaso/lib/timelib.py:391-392 | the epoch with microseconds converts to 0, the microseconds being dropped |
| Timelib.ShiftedEpochs | plaso/lib/timelib.py:212-225 | Cocoa and HFS+ times are POSIX times shifted by their epoch differences, 0 when the shifted value is out of range |
| Timelib.FromJavaTime | plaso/lib/timelib.py:341-356 | milliseconds become microseconds: exactly the milliseconds times 1000, with no range check, so the whole seconds are the milliseconds divided by 1000 |
| Timelib.FromWebKitTime | plaso/lib/timelib.py:475-490 | 0 below the minimum plus the WebKit epoch difference, else the input less that difference |
| Timelib.FromFiletime | plaso/lib/timelib.py:278-302 | 0 for a negative FILETIME and for one whose converted value would exceed 2^63 - 1; for every other non-negative FILETIME the 100-nanosecond count since the POSIX epoch divided by 10 and rounded down (negative before 1970) |
| Timelib.FiletimeEpoch | plaso/lib/timelib.py:278-302 | the FILETIME of the POSIX epoch converts to 0 and one second later to 1000000 |
| Timelib.PastYearsAgreeBefore2081 | plaso/lib/timelib.py:258-260 | the as-written year loop over past_year agrees with counting the days from 1980 for years up to 2080 |
| Timelib.SameLeapStatus | plaso/lib/timelib.py:499-512 | year y and year 1980+y have the same leap status except for y = 100 and y = 120 |
| Timelib.CenturyYears | plaso/lib/timelib.py:499-512 | year 100 is not a leap year while 2080 is; year 120 is while 2100 is not |
| Timelib.PastYearsOneDayShort | plaso/lib/timelib.py:258-260 | for FAT years 2081 to 2100 the as-written loop counts one day fewer than the calendar since 1980 |
| Timelib.PastYearsAgreeFrom2101 | plaso/lib/timelib.py:258-260 | from 2101 to 2107 the two counts agree again |
| Timelib.FatSplit | plaso/lib/timelib.py:251-266 | the bit fields of a FAT date and time: day and month less one, a 7-bit year, and seconds in 2-second steps |
| Timelib.FromFatDateTime | plaso/lib/timelib.py:228-275 | 0 exactly for an invalid day, month, hour, minute or second; otherwise whole seconds no earlier than 1980 |
| Timelib.ComputeFromFatDateTime | plaso/lib/timelib.py:249-275 | the method with its loop over past years computes FromFatDateTime |
| Timelib.FatEpoch | plaso/lib/timelib.py:228-275 | the FAT value of 1980-01-01 00:00:00 converts to the FAT epoch |
| Timelib.MonthDictNumbers | plaso/lib/timelib.py:36-48 | the month abbreviations map to the numbers 1 to 12, from "jan" to 1 to "dec" to 12 |
| PlistInterface.Get | plaso/parsers/plist_plugins/interface.py:307 | dict.get: a value iff the key is among the items, and then one stored under it |
| PlistInterface.Iterate | plaso/parsers/plist_plugins/interface.py:126-131 | iterating a list or tuple gives its elements; iterating a scalar raises TypeError |
| PlistInterface.NestedBelowOne | plaso/parsers/plist_plugins/interface.py:216-218 | below depth 1 the recursion yields nothing |
| PlistInterface.DictsInBelowOne | plaso/parsers/plist_plugins/interface.py:216-218 | below depth 1 the dictionaries of a list yield nothing |
| PlistInterface.DepthOneListsItems | plaso/parsers/plist_plugins/interface.py:229-238 | at depth 1 a dictionary yields exactly its own items as (root, key, value), in order |
| PlistInterface.ItemsAtDepthOne | plaso/parsers/plist_plugins/interface.py:229-238 | the items from the i-th on, at depth 1, are yielded one each without descending |
| PlistInterface.RootsExtend | plaso/parsers/plist_plugins/interface.py:188-238 | every yielded root starts with the root the recursion began at |
| PlistInterface.ElemsRootsExtend | plaso/parsers/plist_plugins/interface.py:220-224 | the elements of a list or tuple yield roots extending the current one |
| PlistInterface.ItemsRootsExtend | plaso/parsers/plist_plugins/interface.py:229-238 | the items of a dictionary yield roots extending the current one |
| PlistInterface.NestedRootsExtend | plaso/parsers/plist_plugins/interface.py:231-238 | a nested dictionary or list of dictionaries yields roots extending the current one |
| PlistInterface.DictsInRootsExtend | plaso/parsers/plist_plugins/interface.py:234-238 | the dictionaries of a list yield roots extending the current one |
| PlistInterface.TestDictRecursion | plaso/parsers/plist_plugins/interface_test.py:87-102 | the test's dictionary yields one triple at depth 1 and three at depth 2, with keys DeviceCache and the two device addresses |
| PlistInterface.ScanMatchSound | plaso/parsers/plist_plugins/interface.py:278-283 | the deep match loop ends with exactly the wanted keys that some triple carries, each mapped to a value a triple carries under it |
| PlistInterface.DeepGetKeysFindsReachable | plaso/parsers/plist_plugins/interface.py:277-283 | away from depth 1, GetKeys finds exactly the wanted keys reachable within the depth, with values found under them |
| PlistInterface.GetKeys | plaso/parsers/plist_plugins/interface.py:241-283 | an empty match for a non-dictionary; at depth 1 the requested keys, KeyError for a missing one; otherwise the recursive scan, as GetKeysOf |
| PlistInterface.PickedAll | plaso/parsers/plist_plugins/interface.py:274-276 | a depth-1 match holding every key with its stored value is the pick of those keys |
| PlistInterface.PickedPresentIs | plaso/parsers/plist_plugins/interface.py:305-309 | the default-empty depth-1 match holds exactly the wanted keys present with a value other than None |
| PlistInterface.MatchLoop | plaso/parsers/plist_plugins/interface.py:278-283 | the loop over the triples with its early return computes ScanMatch |
| PlistInterface.GetKeysDefaultEmpty | plaso/parsers/plist_plugins/interface.py:286-316 | missing or None keys are left out instead of raising, as DefaultEmptyOf |
| PlistInterface.DefaultEmptyKeepsPresent | plaso/parsers/plist_plugins/interface.py:305-309 | at depth 1 the result never fails and holds a key iff it is wanted and present with a value other than None |
| PlistInterface.ProcessAccepts | plaso/parsers/plist_plugins/interface.py:89-143 | the plugin accepts iff a name and top level are given, the names agree ignoring case and the wanted keys are all present (in the dictionary, or in the dictionaries of a list); then the match is the wanted keys for a dictionary and empty for a list |
| PlistInterface.Process | plaso/parsers/plist_plugins/interface.py:89-143 | ValueError, WrongPlistPlugin or the match, as ProcessOf |
| PlistInterface.ListKeys | plaso/parsers/plist_plugins/interface.py:128-131 | the loop collects the keys of the list's dictionary elements |
| PlistInterface.ElementKeysSnoc | plaso/parsers/plist_plugins/interface.py:129-131 | one element more adds its keys exactly when it is a dictionary |
| PlistInterface.ReadWithin | plaso/parsers/plist_plugins/interface.py:357-374 | past the end a read gives nothing and leaves the offset; a size 0 or reaching the end reads the rest and moves to the end; otherwise exactly size bytes |
| PlistInterface.ReadsConcatenate | plaso/parsers/plist_plugins/interface.py:372-374 | two reads in a row that stay inside the data equal one read of both sizes |
| PlistInterface.FakeFile.constructor | plaso/parsers/plist_plugins/interface.py:326-333 | the data is kept and the offset starts at 0 |
| PlistInterface.FakeFile.Tell | plaso/parsers/plist_plugins/interface.py:335-341 | the current offset |
| PlistInterface.FakeFile.Seek | plaso/parsers/plist_plugins/interface.py:343-355 | SEEK_SET, SEEK_CUR and SEEK_END set the offset, any other whence leaves it |
| PlistInterface.FakeFile.Read | plaso/parsers/plist_plugins/interface.py:357-374 | the bytes and the new offset as FakeReadAt |
| CupsIpp.ParseHeader | plaso/parsers/cups_ipp.py:198-211 | the 8-byte header parses iff it is all there with version 2.0, giving the big-endian operation and request ids; a short file or another version is UnableToParseFile |
| CupsIpp.TextAt | plaso/parsers/cups_ipp.py:159-161 | a Pascal string read stays within the data and moves forward when it succeeds |
| CupsIpp.ValueAt | plaso/parsers/cups_ipp.py:280-295 | a value read stays within the data and moves forward when it succeeds |
| CupsIpp.TagAt | plaso/parsers/cups_ipp.py:255-270 | a tag read stays within the data and moves forward when it succeeds |
| CupsIpp.NameAt | plaso/parsers/cups_ipp.py:273-277 | a name read stays within the data and moves forward when it succeeds |
| CupsIpp.ReadPairAt | plaso/parsers/cups_ipp.py:245-295 | a pair read stays within the data and moves forward when it succeeds, so the pair loop ends |
| CupsIpp.Bytes | plaso/parsers/cups_ipp.py:159-161 | Latin-1 text encodes to bytes that decode back to it |
| CupsIpp.ValueBytes | plaso/parsers/cups_ipp.py:162-169 | an encoded value fits the one-byte length that precedes it |
| CupsIpp.TextField | plaso/parsers/cups_ipp.py:159-161 | a Pascal string is its length byte and its bytes |
| CupsIpp.TextRoundTrip | plaso/parsers/cups_ipp.py:159-161 | reading an encoded Pascal string gives the text back and moves past it |
| CupsIpp.IntValueRoundTrip | plaso/parsers/cups_ipp.py:166-169 | an integer, general integer or enumeration value is the big-endian u32 after one skipped byte |
| CupsIpp.BoolValueRoundTrip | plaso/parsers/cups_ipp.py:162-165 | a boolean is the byte after one skipped byte, true iff non-zero |
| CupsIpp.TextValueRoundTrip | plaso/parsers/cups_ipp.py:290-291 | every other tag reads a Pascal string |
| CupsIpp.ValueRoundTrip | plaso/parsers/cups_ipp.py:280-295 | every encodable value reads back as itself, the cursor after it |
| CupsIpp.ReadPairStages | plaso/parsers/cups_ipp.py:245-295 | a pair is its tag, then its name, then its value |
| CupsIpp.TagRoundTrip | plaso/parsers/cups_ipp.py:259-267 | a group byte from GROUP_LIST is skipped before the type byte, then one byte is skipped |
| CupsIpp.NameRoundTrip | plaso/parsers/cups_ipp.py:172-175 | a name is a Pascal string followed by one padding byte |
| CupsIpp.EncodedTag | plaso/parsers/cups_ipp.py:259-267 | the tag of an encoded attribute reads back |
| CupsIpp.EncodedName | plaso/parsers/cups_ipp.py:273-274 | the name of an encoded attribute reads back |
| CupsIpp.EncodedValue | plaso/parsers/cups_ipp.py:280-291 | the value of an encoded attribute reads back, ending the attribute |
| CupsIpp.ReadPairRoundTrip | plaso/parsers/cups_ipp.py:245-295 | ReadPair of an encoded attribute, with or without a group byte, gives its name and value and moves past exactly it |
| CupsIpp.Appended | plaso/parsers/cups_ipp.py:223 | setdefault-append adds the key and keeps the others |
| CupsIpp.CollectKeys | plaso/parsers/cups_ipp.py:218-224 | a key is in the dictionary iff it was there or some pair's translated name is it |
| CupsIpp.CollectInFileOrder | plaso/parsers/cups_ipp.py:218-224 | each key holds its values in file order, after any it held before |
| CupsIpp.Quote | plaso/parsers/cups_ipp.py:101-102 | quoting keeps a value containing a comma containing one, and one without free of it |
| CupsIpp.QuoteFrom | plaso/parsers/cups_ipp.py:100-102 | the in-place loop keeps the list length |
| CupsIpp.Texts | plaso/parsers/cups_ipp.py:104 | the texts of a list of text values, in order |
| CupsIpp.QuoteFromAll | plaso/parsers/cups_ipp.py:100-102 | the loop raises TypeError iff a value from the current index on is not text; it leaves earlier values, and quotes exactly the values with a comma |
| CupsIpp.ListToStringJoins | plaso/parsers/cups_ipp.py:82-104 | a text list is quoted in place in the shared dictionary, no other key changes, and the result is the quoted values joined by ', ' |
| CupsIpp.ListToStringRejectsNonText | plaso/parsers/cups_ipp.py:100-102 | a list holding a non-text value raises TypeError |
| CupsIpp.ListStrings | plaso/parsers/cups_ipp.py:69-79 | one string per field key |
| CupsIpp.Emit | plaso/parsers/cups_ipp.py:227-241 | at most one event per time key |
| CupsIpp.OthersAreNotFields | plaso/parsers/cups_ipp.py:69-79 | copies and the three time keys are not among the joined fields |
| CupsIpp.ListToStringKeeps | plaso/parsers/cups_ipp.py:69-79 | joining one field keeps every field text and every other key as it was |
| CupsIpp.ListStringsKeeps | plaso/parsers/cups_ipp.py:69-79 | joining all fields keeps the fields text and the other keys as they were |
| CupsIpp.EventOfBuilds | plaso/parsers/cups_ipp.py:45-80 | with text fields and copies, an event is built at FromPosixTime of the time with the first copies value |
| CupsIpp.NoCopiesRaises | plaso/parsers/cups_ipp.py:77 | without copies, data_dict.get('copies', 0)[0] raises TypeError |
| CupsIpp.StampsConcat | plaso/parsers/cups_ipp.py:227-241 | the times of concatenated events are the concatenated times |
| CupsIpp.TimeEventBuilds | plaso/parsers/cups_ipp.py:227-241 | a buildable dictionary gives an event at a time key exactly when the key is present, and stays buildable |
| CupsIpp.EmitStep | plaso/parsers/cups_ipp.py:227-241 | events are yielded in order |
| CupsIpp.EmitAll | plaso/parsers/cups_ipp.py:227-241 | three built steps yield their events without an exception |
| CupsIpp.EventsPerTimeKey | plaso/parsers/cups_ipp.py:227-241 | a buildable dictionary yields one event per time key present, creation then processing then completion, without an exception |
| CupsIpp.ListStringsOthers | plaso/parsers/cups_ipp.py:69-79 | joining leaves every key outside the joined fields unchanged |
| CupsIpp.EventUser | plaso/parsers/cups_ipp.py:69 | the event's user is the joined user list, and that list stays quoted in the dictionary |
| CupsIpp.QuoteTwice | plaso/parsers/cups_ipp.py:101-102 | quoting twice wraps the value in two pairs of quotes |
| CupsIpp.UserAfterEvent | plaso/parsers/cups_ipp.py:69-102 | after one event, a user with a comma is stored quoted in the shared dictionary |
| CupsIpp.FirstTwoUsers | plaso/parsers/cups_ipp.py:227-236 | the second event quotes the user again because the first event changed the shared list |
| CupsIpp.SharedListQuotedAgain | plaso/parsers/cups_ipp.py:82-104 | with creation and processing times, a user with a comma is quoted once in the first event and twice in the second |
| CupsIpp.AtMostThree | plaso/parsers/cups_ipp.py:189-243 | a file yields at most three events |
| CupsIpp.FileObject.constructor | plaso/parsers/cups_ipp.py:198-199 | the file read from offset 0 |
| CupsIpp.FileObject.Rewind | plaso/parsers/cups_ipp.py:199 | seek(0) |
| CupsIpp.FileObject.ReadByte | plaso/parsers/cups_ipp.py:157 | a byte iff one is left, the offset after it; at the end the offset is the end |
| CupsIpp.FileObject.ReadBytes | plaso/parsers/cups_ipp.py:157-169 | n bytes iff n are left, the offset after them |
| CupsIpp.FileObject.ReadText | plaso/parsers/cups_ipp.py:159-161 | the text and the new offset as TextAt |
| CupsIpp.FileObject.ReadTag | plaso/parsers/cups_ipp.py:255-270 | the tag and the new offset as TagAt |
| CupsIpp.FileObject.ReadName | plaso/parsers/cups_ipp.py:273-277 | the name and the new offset as NameAt |
| CupsIpp.FileObject.ReadValue | plaso/parsers/cups_ipp.py:280-294 | the value and the new offset as ValueAt |
| CupsIpp.FileObject.ReadPair | plaso/parsers/cups_ipp.py:245-295 | the pair and the new offset as ReadPairAt |
| CupsIpp.DataDictObject.constructor | plaso/parsers/cups_ipp.py:218 | an empty dictionary |
| CupsIpp.DataDictObject.SetDefaultAppend | plaso/parsers/cups_ipp.py:223 | the value is appended under the key, as Appended |
| CupsIpp.DataDictObject.ListToStrings | plaso/parsers/cups_ipp.py:69-79 | the nine joins in turn, each changing the shared dictionary, as ListStrings |
| CupsIpp.DataDictObject.ListToString | plaso/parsers/cups_ipp.py:82-104 | the join of one key, changing the shared dictionary, as ListToStringOf |
| CupsIpp.NewEvent | plaso/parsers/cups_ipp.py:45-80 | the event and the changed dictionary as EventOf |
| CupsIpp.TimeEvent | plaso/parsers/cups_ipp.py:227-241 | an event for a present time key, as TimeEventOf |
| CupsIpp.ReadPairs | plaso/parsers/cups_ipp.py:218-224 | the pair loop appends every pair until the end marker or a failed read, under its translated name, as Collect |
| CupsIpp.YieldEvents | plaso/parsers/cups_ipp.py:227-241 | the events and the exception as EventsOf |
| CupsIpp.Parse | plaso/parsers/cups_ipp.py:189-243 | the whole parse as ParseOf |
| MacKeychain.FixedAt | plaso/parsers/mac_keychain.py:394 | a fixed-length text is its n bytes iff they are there, the cursor after them |
| MacKeychain.TextAt | plaso/parsers/mac_keychain.py:180-181 | a Pascal string with a u32 length is there iff its length and bytes fit, and then it is those bytes, the cursor after them |
| MacKeychain.DbHeaderAt | plaso/parsers/mac_keychain.py:256-259 | the database header parses iff its bytes are all there |
| MacKeychain.TableOffsets | plaso/parsers/mac_keychain.py:271-277 | the offsets are read iff the schema's count of them fits, one per table |
| MacKeychain.TablePositions | plaso/parsers/mac_keychain.py:243-278 | table positions exist iff header and schema fit, the magic is 'kych' with version 1.0 and all offsets fit; one per table, each past the header |
| MacKeychain.TimeAt | plaso/parsers/mac_keychain.py:182-192 | a time structure parses iff its bytes are there, the cursor after it |
| MacKeychain.TimestampOf | plaso/parsers/mac_keychain.py:280-302 | a timestamp iff all six text fields are decimal integers, and then FromTimeParts of them in UTC |
| MacKeychain.TimeField | plaso/parsers/mac_keychain.py:328-334 | reading a time fails only with FieldError or AttributeError (the warning call on a None result) |
| MacKeychain.TextField | plaso/parsers/mac_keychain.py:180-181 | a Pascal string read raises FieldError exactly when TextAt finds none |
| MacKeychain.SsgpBytes | plaso/parsers/mac_keychain.py:324 | the encrypted data without its first four bytes |
| MacKeychain.TimesOf | plaso/parsers/mac_keychain.py:326-334 | the creation and modification times at their record offsets, each relative to the record start |
| MacKeychain.OptionalText | plaso/parsers/mac_keychain.py:337-352 | 'N/A' when the stored offset is 0, otherwise the Pascal string read where the cursor is sent |
| MacKeychain.NamesOf | plaso/parsers/mac_keychain.py:354-360 | the entry and account names at their record offsets |
| MacKeychain.EntryHeaderOf | plaso/parsers/mac_keychain.py:304-364 | reading the common attributes fails only with a read fault |
| MacKeychain.LocationOf | plaso/parsers/mac_keychain.py:384-404 | reading the location fails only with FieldError |
| MacKeychain.InternetEntry | plaso/parsers/mac_keychain.py:366-420 | an internet record yields at most one event before its exception, and the cursor moves forward |
| MacKeychain.InternetBody | plaso/parsers/mac_keychain.py:381-420 | after the header, at most one event, and after one the cursor is at the record end |
| MacKeychain.InternetAfterHeader | plaso/parsers/mac_keychain.py:384-420 | after the common attributes, at most one event, the cursor at the record end |
| MacKeychain.InternetEnd | plaso/parsers/mac_keychain.py:407-420 | after the location, at most one event, the cursor at the record end |
| MacKeychain.InternetEvents | plaso/parsers/mac_keychain.py:411-420 | one creation event with the location; the modification event call lacks its ssgp_hash argument and raises TypeError exactly when the two times differ |
| MacKeychain.ApplicationEvents | plaso/parsers/mac_keychain.py:445-452 | a creation event, and a modification event exactly when the times differ, both with the entry name and encrypted data |
| MacKeychain.ApplicationEntry | plaso/parsers/mac_keychain.py:422-452 | an application record yields at most two events, and the cursor moves forward |
| MacKeychain.ApplicationBody | plaso/parsers/mac_keychain.py:437-452 | after the header, at most two events, the cursor at the record end |
| MacKeychain.SsgpHash | plaso/parsers/mac_keychain.py:324 | hexlify gives two characters per byte |
| MacKeychain.EntryOf | plaso/parsers/mac_keychain.py:232-239 | one record of the table's type yields at most two events |
| MacKeychain.RecordsFrom | plaso/parsers/mac_keychain.py:233-239 | n records yield at most two events each |
| MacKeychain.TableEvents | plaso/parsers/mac_keychain.py:215-239 | a table fails only with a read fault |
| MacKeychain.TablesFrom | plaso/parsers/mac_keychain.py:215-239 | the tables in turn fail only with a read fault |
| MacKeychain.RejectedExactlyWithoutTables | plaso/parsers/mac_keychain.py:209-213 | UnableToParseFile exactly when the structure check gives no table or an empty table list, and then nothing is yielded |
| MacKeychain.NotKeychainRejected | plaso/parsers/mac_keychain.py:256-263 | a short file or a wrong magic or version is rejected without events |
| MacKeychain.OffsetsInSchemaOrder | plaso/parsers/mac_keychain.py:272-277 | the i-th table position is the i-th stored offset plus the header size |
| MacKeychain.NothingAfterShortRecord | plaso/parsers/mac_keychain.py:376-380 | once a record header is cut off, the remaining records of the table yield nothing |
| MacKeychain.UnreadTableSkipped | plaso/parsers/mac_keychain.py:218-239 | a table whose header is cut off, or whose record type is neither internet nor application, yields nothing |
| MacKeychain.EntryFieldsAtOffsets | plaso/parsers/mac_keychain.py:304-364 | each attribute is read at its stored offset relative to the record start, with 'N/A' for an absent description or comment; the comments are read through the text_description offset |
| MacKeychain.CommentsRepeatDescription | plaso/parsers/mac_keychain.py:346-350 | with both present, the comments equal the description |
| MacKeychain.CursorAtRecordEnd | plaso/parsers/mac_keychain.py:407-409 | after a record yields, the cursor is at the record start plus its entry length |
| MacKeychain.LocationFields | plaso/parsers/mac_keychain.py:384-404 | no location gives 'N/A' three times; otherwise where is the location text followed by the URL when it is present, the protocol four bytes, and its type translated |
| MacKeychain.ProtocolTranslation | plaso/parsers/mac_keychain.py:194-198 | 'htps' becomes 'https' and untranslated types stay as they are |
| MacKeychain.InvalidTimeRaises | plaso/parsers/mac_keychain.py:295-302 | a non-numeric year makes the ValueError handler call format on None, which raises AttributeError |
| MacKeychain.ApplicationBodyUnfolded | plaso/parsers/mac_keychain.py:437-452 | the application body is the header's exception, or its events with the cursor at the record end |
| MacKeychain.InternetBodyUnfolded | plaso/parsers/mac_keychain.py:381-420 | the internet body is the header's exception or what the location read leads to |
| MacKeychain.ReadText | plaso/parsers/mac_keychain.py:180-181 | the text and the new offset as TextAt |
| MacKeychain.ReadTextField | plaso/parsers/mac_keychain.py:180-181 | the text and the new offset as TextField |
| MacKeychain.ReadTime | plaso/parsers/mac_keychain.py:326-334 | the time and the new offset as TimeField |
| MacKeychain.ReadOptionalText | plaso/parsers/mac_keychain.py:337-352 | the text and the new offset as OptionalText |
| MacKeychain.ReadEntryHeader | plaso/parsers/mac_keychain.py:304-364 | the seek and read sequence of _ReadEntryHeader, as EntryHeaderOf |
| MacKeychain.DecodeRecordHeader | plaso/parsers/mac_keychain.py:151-166 | the record header fields decoded as RecordHeaderAt |
| MacKeychain.DecodeInetHeader | plaso/parsers/mac_keychain.py:171-179 | the internet header fields decoded as InetHeaderAt |
| MacKeychain.ReadLocation | plaso/parsers/mac_keychain.py:384-404 | the location and the new offset as LocationOf |
| MacKeychain.ReadEntryInternet | plaso/parsers/mac_keychain.py:366-420 | the generator's events, exception and cursor as InternetEntry |
| MacKeychain.ReadInternetBody | plaso/parsers/mac_keychain.py:381-420 | as InternetBody |
| MacKeychain.ReadInternetEnd | plaso/parsers/mac_keychain.py:407-420 | as InternetEnd |
| MacKeychain.ReadEntryApplication | plaso/parsers/mac_keychain.py:422-452 | the generator's events, exception and cursor as ApplicationEntry |
| MacKeychain.ReadApplicationBody | plaso/parsers/mac_keychain.py:437-452 | as ApplicationBody |
| MacKeychain.ReadEntry | plaso/parsers/mac_keychain.py:232-239 | one record of the table's type, as EntryOf |
| MacKeychain.ReadTable | plaso/parsers/mac_keychain.py:215-239 | one table's loop over its records, as TableEvents |
| MacKeychain.VerifyStructure | plaso/parsers/mac_keychain.py:243-278 | the table positions as TablePositions, the cursor after what was read |
| MacKeychain.Parse | plaso/parsers/mac_keychain.py:200-241 | the whole parse as ParseOf |
| FirefoxCache.Words | plaso/parsers/firefox_cache.py:72-83 | n big-endian 32-bit words read from a position |
| FirefoxCache.WordsAt | plaso/parsers/firefox_cache.py:72-83 | the i-th word is the big-endian u32 at position plus 4i |
| FirefoxCache.AcceptByQuotient | plaso/parsers/firefox_cache.py:146-153 | a candidate is accepted iff its request size and fetch count are positive, its major version is 1 and its record size floor-divided by the block size is below 256 |
| FirefoxCache.RequestMethod | plaso/parsers/firefox_cache.py:176-177 | empty without 'request-method\0'; otherwise the text after the first marker up to the next NUL or the end |
| FirefoxCache.ResponseCode | plaso/parsers/firefox_cache.py:179-181 | empty without 'response-head\0'; otherwise the text after the first marker up to the first CR LF or the end |
| FirefoxCache.NextBlock | plaso/parsers/firefox_cache.py:193-197 | the seek after a record lands beyond what was read and at least one block on |
| FirefoxCache.NextBlockAligned | plaso/parsers/firefox_cache.py:193-197 | the seek keeps the reader a whole number of blocks from the record start, at most one block past what was read, and a full block past when that was already aligned |
| FirefoxCache.EventOf | plaso/parsers/firefox_cache.py:35-56 | the event carries the header's fields at its last-fetched POSIX time, and the URL is the request without its last byte |
| FirefoxCache.NextRecordOf | plaso/parsers/firefox_cache.py:155-199 | a record fails only with IOError, a returned one moves the reader at least one block, and the reader always moves while inside the file |
| FirefoxCache.AcceptedRecordOf | plaso/parsers/firefox_cache.py:170-199 | an accepted header always gives an event with that header, and the reader moves at least a block |
| FirefoxCache.ReadEnd | plaso/parsers/firefox_cache.py:171-174 | after the request and headers reads the reader is past the record header |
| FirefoxCache.AcceptedRecordEnd | plaso/parsers/firefox_cache.py:193-197 | the reader ends at least a block past the record start |
| FirefoxCache.NextRecordCases | plaso/parsers/firefox_cache.py:158-168 | a cut-off header raises IOError with the reader at the end of the data; otherwise a record is returned iff the header is accepted, a rejected one moves the reader exactly one block, and a returned event has the header read |
| FirefoxCache.AcceptedRecordAligned | plaso/parsers/firefox_cache.py:193-197 | the next candidate is a whole number of blocks past the record start and within one block after its end |
| FirefoxCache.SkipSpace | plaso/parsers/firefox_cache.py:85-86 | pyparsing's whitespace skip: the first non-space position at or after i |
| FirefoxCache.BlockSizeFor | plaso/parsers/firefox_cache.py:123-134 | 4096 iff the record size is at least 4096, 256 iff it is below 1024, and 1024 otherwise |
| FirefoxCache.ProbeFrom | plaso/parsers/firefox_cache.py:114-144 | the probe fails only with UnableToParseFile, and an offset found is within what is probed |
| FirefoxCache.ProbeLimit | plaso/parsers/firefox_cache.py:112 | the probe reads at most the file size and at most 4 MiB |
| FirefoxCache.ConfigOf | plaso/parsers/firefox_cache.py:96-144 | the configuration fails only with UnableToParseFile, and does for any name that neither starts with '_CACHE_00' nor starts with five hex digits, 'm' and two digits, whatever follows them |
| FirefoxCache.AlternativeNamePrefix | plaso/parsers/firefox_cache.py:85-86 | the alternative name is matched as a prefix, each token after optional whitespace: '01ABCm02' and '01ABCm023' are cache names, '01ABm02' is not (also line 104) |
| FirefoxCache.ProbeFindsAcceptedRecord | plaso/parsers/firefox_cache.py:114-136 | a configuration found points at a record accepted with the 256-byte block, and its block size is the one that record's size selects |
| FirefoxCache.ParseOf | plaso/parsers/firefox_cache.py:201-216 | the parse fails iff the configuration does, and then with UnableToParseFile before any event |
| FirefoxCache.EventsAccepted | plaso/parsers/firefox_cache.py:210-216 | every yielded record's header is accepted for the block size |
| FirefoxCache.AtMostOneEventPerBlock | plaso/parsers/firefox_cache.py:210-216 | no more events than blocks from the first record to the end |
| FirefoxCache.RejectedSkipsOneBlock | plaso/parsers/firefox_cache.py:165-168 | a rejected candidate yields nothing and the scan resumes one block on |
| FirefoxCache.RecordsStep | plaso/parsers/firefox_cache.py:210-216 | one loop step: an event is appended, an IOError is swallowed, and the rest of the scan follows from the new offset |
| FirefoxCache.NextRecordAccepted | plaso/parsers/firefox_cache.py:165-199 | an accepted header takes the record-reading path |
| FirefoxCache.AcceptedRecordRead | plaso/parsers/firefox_cache.py:170-199 | the accepted record is the event of the request and headers read, the reader sent to the next block |
| FirefoxCache.NextRecordRejected | plaso/parsers/firefox_cache.py:165-168 | a rejected header raises IOError and the reader moves exactly one block from the record start |
| FirefoxCache.DecodeRecordHeader | plaso/parsers/firefox_cache.py:72-83 | the ten big-endian fields of the header, as RecordHeaderAt |
| FirefoxCache.NextRecord | plaso/parsers/firefox_cache.py:155-199 | the record or the IOError and the new reader offset, as NextRecordOf |
| FirefoxCache.ReadAcceptedRecord | plaso/parsers/firefox_cache.py:170-199 | as AcceptedRecordOf |
| FirefoxCache.GetFirefoxConfig | plaso/parsers/firefox_cache.py:96-144 | the probing loop's result, as ConfigOf |
| FirefoxCache.Parse | plaso/parsers/firefox_cache.py:201-216 | the record loop's events, as ParseOf |
| JavaIdx.MagicAt | plaso/parsers/java_idx.py:71-75 | the 6-byte prefix (busy, incomplete, big-endian version) is there exactly when the file has 6 bytes |
| JavaIdx.VersionDispatch | plaso/parsers/java_idx.py:137-153 | a cut-off prefix, a flag above 1 or a version outside 602..605 gives UnableToParseFile and nothing else; a file that yields events passed all three checks |
| JavaIdx.UtfAt | plaso/parsers/java_idx.py:116-120 | a u16-length string is there iff its length and bytes fit, and then it is exactly those bytes, the cursor after them |
| JavaIdx.UtfsStopAtFailure | plaso/parsers/java_idx.py:104-114 | once a string is cut off, reading further strings of the same structure fails at the same place |
| JavaIdx.ReadUtf | plaso/parsers/java_idx.py:117-120 | reads the string and moves the cursor as UtfAt says |
| JavaIdx.ReadUtfs | plaso/parsers/java_idx.py:104-114 | reads k strings in a row, as UtfsAt says, stopping at the first that is cut off |
| JavaIdx.Section602At | plaso/parsers/java_idx.py:77-90 | a 6.02 section has IP 'Unknown' |
| JavaIdx.ReadSection602 | plaso/parsers/java_idx.py:158-163 | IDX_602_STRUCT read: dates at bytes 7 and 15, URL the second string, the field count after the third; result and cursor as Section602At |
| JavaIdx.SectionOneAt | plaso/parsers/java_idx.py:92-102 | section one is there iff its 42 bytes are |
| JavaIdx.ReadSectionOne | plaso/parsers/java_idx.py:172-173 | result and cursor as SectionOneAt |
| JavaIdx.ReadSectionTwo | plaso/parsers/java_idx.py:174-179 | URL the second string, IP the fourth, then the field count; result and cursor as SectionTwoAt |
| JavaIdx.ReadSections | plaso/parsers/java_idx.py:158-183 | the version dispatch: 6.02 section; else 2 bytes skipped for 6.03/6.04, section one, and section two at 128 only for files over 128 bytes, 'Unknown' URL and IP and no fields otherwise |
| JavaIdx.HeadersFrom | plaso/parsers/java_idx.py:188-197 | the header loop fails only with FieldError |
| JavaIdx.HeadersAreLastDate | plaso/parsers/java_idx.py:188-197 | the loop fails iff a pair is cut off, and otherwise ends with the conversion of the last 'date' field's value, or the date it started with |
| JavaIdx.LastDate | plaso/parsers/java_idx.py:191-197 | there is a last date iff some field is named 'date' |
| JavaIdx.ReadHeaders | plaso/parsers/java_idx.py:185-197 | the loop over the fields updating download_date, as HeadersFrom from None |
| JavaIdx.EventsOf | plaso/parsers/java_idx.py:203-221 | one to three events |
| JavaIdx.EventsShape | plaso/parsers/java_idx.py:203-221 | hosted date first at FromJavaTime(last modified); an expiration event iff the expiration is non-zero; a download event last iff the download date is non-zero; all carry the version, URL and IP |
| JavaIdx.ParsedHasOrigin | plaso/parsers/java_idx.py:199-201 | every event has a non-empty URL and IP |
| JavaIdx.UnknownOrigins | plaso/parsers/java_idx.py:158-183 | 6.02 events have IP 'Unknown'; 6.03-6.05 files of at most 128 bytes have URL and IP 'Unknown' and no download event |
| JavaIdx.ParseOf | plaso/parsers/java_idx.py:122-221 | an error exactly when nothing is yielded |
| JavaIdx.ParseOfMagic | plaso/parsers/java_idx.py:149-153 | with the prefix read, an invalid one is UnableToParseFile and a valid one goes on to the body |
| JavaIdx.ParseAfterMagic | plaso/parsers/java_idx.py:155-221 | the parse after the prefix, as ParseBody |
| JavaIdx.Parse | plaso/parsers/java_idx.py:122-221 | the generator's events and exception, as ParseOf |
| JavaIdx.UtfsAt | plaso/parsers/java_idx.py:104-114 | when k strings in a row are all there, they are k strings and the cursor has not moved back |
| JavaIdx.CountAt | plaso/parsers/java_idx.py:114 | a 32-bit field count is there exactly when four bytes remain |
| JavaIdx.SectionOneStart | plaso/parsers/java_idx.py:164-172 | section one never starts before the end of the 6-byte prefix |
| JavaIdx.PairsAt | plaso/parsers/java_idx.py:188-190 | when n header pairs are all there, they are n pairs of field and value |
| JavaIdx.LastDateOfCons | plaso/parsers/java_idx.py:188-197 | the last date of the pairs is the last date of the later pairs when they have one, else the date of the first pair when it is a 'date' field |
| JavaIdx.ParseBody | plaso/parsers/java_idx.py:155-221 | after a valid prefix, an error exactly when nothing is yielded |
| Symantec.Pairs | plaso/parsers/symantec.py:110-112 | one pair per two characters of the field, a last odd character dropped |
| Symantec.GetTimestamp | plaso/parsers/symantec.py:87-118 | the only exceptions are TypeError (missing field) and ValueError |
| Symantec.EmptyTimeIsZero | plaso/parsers/symantec.py:107-108 | an empty time field is 0 |
| Symantec.HexByte | plaso/parsers/symantec.py:110-112 | two hex digits read back as their byte |
| Symantec.HexDecode | plaso/parsers/symantec.py:110-112 | decoding the pairs of a hex-encoded byte string gives the bytes back |
| Symantec.TimeOfOctets | plaso/parsers/symantec.py:113-116 | a decodable field is FromTimeParts of year+1970, month+1, day, hour, minute, second in the parser's zone |
| Symantec.TimeRoundTrip | plaso/parsers/symantec.py:89-116 | six octets written as hex (either case) decode to exactly the date and time they encode |
| Symantec.DocumentedExample | plaso/parsers/symantec.py:99-116 | '200A13080122' decodes to 2002-11-19 08:01:34 |
| Symantec.PairsDropOdd | plaso/parsers/symantec.py:110-112 | an odd last character has no partner |
| Symantec.TimeLength | plaso/parsers/symantec.py:110-112 | a non-empty field of a length other than 12 or 13 is a ValueError; at 13 the last character is ignored |
| Symantec.IntOf | plaso/parsers/symantec.py:67-79 | int() of a column fails with TypeError exactly when the column is missing, else ValueError |
| Symantec.VerifyRowAccepts | plaso/parsers/symantec.py:57-85 | a row is accepted iff its time decodes to non-zero, its event is 1..77 and its category 1..4 |
| Symantec.VerifyRowRaises | plaso/parsers/symantec.py:66-81 | VerifyRow raises (ValueError only) iff the time is valid and the event, or with the event in range the category, is present but not a number |
| Symantec.ParseRow | plaso/parsers/symantec.py:120-124 | exactly one event, with the decoded time and the row as attributes, or the time field's exception |
| Symantec.AcceptedRowParses | plaso/parsers/symantec.py:57-124 | an accepted row parses into one event with a non-zero time |
| Symantec.HexValues | plaso/parsers/symantec.py:110-112 | each pair read as a base-16 integer, one value per pair, None when one does not parse |
| Symantec.Octets | plaso/parsers/symantec.py:110-112 | the unpacking into six names: six values or none |
| Symantec.HexOctets | plaso/parsers/symantec.py:89-99 | the encoding the log uses: two hexadecimal digits per byte |
| Symantec.DigitsPair | plaso/parsers/symantec.py:111 | x[0] + x[1] in base 16 is the first digit times 16 plus the second |
| Symantec.PairsCons | plaso/parsers/symantec.py:111-112 | the zip takes the first two characters as the first pair |
| Symantec.HexValuesCons | plaso/parsers/symantec.py:110-111 | the values of a pair and more pairs are its value and theirs |
| Symantec.HeadPair | plaso/parsers/symantec.py:89-99 | the encoding starts with the first byte's two digits, which read back as it |
| Symantec.HexDecodeStep | plaso/parsers/symantec.py:110-112 | the decoding of a leading pair and the rest is its value and the rest's values |
| Symantec.ExampleEncoding | plaso/parsers/symantec.py:99 | the bytes 32, 10, 19, 8, 1, 34 encode as '200A13080122' |
| SymantecFormatter.GetMessages | plaso/formatters/symantec.py:167-197 | WrongFormatter and no change for another data type; TypeError at the first step whose code is a list, with the earlier steps done (MapCodes of the prefix); otherwise the attributes become Mapped of the old ones |
| SymantecFormatter.MapStep | plaso/formatters/symantec.py:182-184 | one hasattr step: TypeError and no change for a list-valued code, otherwise MapCode |
| SymantecFormatter.FirstUnhashable | plaso/formatters/symantec.py:182-196 | the step it names has a present list-valued code and no earlier step has; with none, no step has |
| SymantecFormatter.StepState | plaso/formatters/symantec.py:182-196 | before step k, with no earlier step raising, the code still holds its original value, step k raises exactly when it is the first to, and otherwise completes the first k + 1 steps |
| SymantecFormatter.MapCodesSnoc | plaso/formatters/symantec.py:182-196 | the first k + 1 steps are the first k followed by step k |
| SymantecFormatter.StepDone | plaso/formatters/symantec.py:182-196 | one lookup-and-set step after k completed steps either raises TypeError as the first raising step, leaving the first k steps done, or completes the first k + 1 steps |
| SymantecFormatter.NoStepRaises | plaso/formatters/symantec.py:182-196 | when no lookup raises, the five steps together are exactly Mapped |
| SymantecFormatter.EventListRaises | plaso/formatters/symantec.py:182-184 | a list-valued event code raises at the first step, before any *_map attribute is set |
| SymantecFormatter.MappedSteps | plaso/formatters/symantec.py:182-196 | the five hasattr steps in the order of the source |
| SymantecFormatter.MapCodeFrame | plaso/formatters/symantec.py:182-196 | one step changes only its own *_map attribute |
| SymantecFormatter.MapCodesFrame | plaso/formatters/symantec.py:182-196 | the steps change only their *_map attributes |
| SymantecFormatter.MapCodesSet | plaso/formatters/symantec.py:182-196 | after steps with distinct names each target holds its own code's name |
| SymantecFormatter.CodeMapsDistinct | plaso/formatters/symantec.py:182-196 | no code attribute is a *_map attribute and the five *_map attributes differ |
| SymantecFormatter.MappedCode | plaso/formatters/symantec.py:182-196 | a present code gets its table name or 'Unknown'; an absent code leaves its *_map attribute as it was (unset if unset); a list-valued code makes GetMessages raise at or before this step, so Mapped is never reached |
| SymantecFormatter.MappedOthers | plaso/formatters/symantec.py:182-196 | every other attribute is unchanged |
| SymantecFormatter.MappedIdempotent | plaso/formatters/symantec.py:182-196 | formatting an already formatted event changes nothing more |
| SymantecFormatter.ActionTables | plaso/formatters/symantec.py:186-196 | action1 and action2 use ACTION_1_2_NAMES, action0 ACTION_0_NAMES |
| SymantecFormatter.Action12Codes | plaso/formatters/symantec.py:116-123 | ACTION_1_2_NAMES names exactly the codes 1-6 |
| SymantecFormatter.Action0Codes | plaso/formatters/symantec.py:124-139 | ACTION_0_NAMES names exactly the codes 1-13 |
| SymantecFormatter.CategoryCodes | plaso/formatters/symantec.py:110-115 | CATEGORY_NAMES names exactly the codes 1-4 |
| SymantecFormatter.Event15Unknown | plaso/formatters/symantec.py:30-50 | event code '15' has no name and is shown as 'Unknown' |
| Mactime.VerifyRowAccepts | plaso/parsers/mactime.py:84-100 | accepted iff the md5 is text matching ^[0-9a-fA-F]+$ and the size is the canonical text of an integer |
| Mactime.VerifyRowRaises | plaso/parsers/mactime.py:84-97 | KeyError iff no md5 column; TypeError iff the md5 is not text, or it matches and size is None; nothing else raises |
| Mactime.CanonicalShape | plaso/parsers/mactime.py:89-98 | an accepted size is digits after an optional '-' with no leading zero |
| Mactime.SizeExamples | plaso/parsers/mactime.py:89-98 | '012' and '12a' are rejected |
| Mactime.ConvertCell | plaso/parsers/mactime.py:104-108 | int(value, 10) raises (TypeError) exactly for a field that is not text |
| Mactime.ConvertIntText | plaso/parsers/mactime.py:104-108 | the text of an integer converts to that integer |
| Mactime.BodyRow.ConvertFields | plaso/parsers/mactime.py:104-108 | same keys; TypeError iff some field is not text; otherwise the row is Converted of the old row; on the error every field is old or converted |
| Mactime.AllConverted | plaso/parsers/mactime.py:104-108 | with every field visited the row is the converted one |
| Mactime.ConvertedNormal | plaso/parsers/mactime.py:104-108 | every decimal field became its integer, every other field is unchanged, same keys |
| Mactime.AcceptedSizeConverts | plaso/parsers/mactime.py:89-108 | an accepted row's size becomes the integer it is the text of |
| Mactime.ConvertTwice | plaso/parsers/mactime.py:104-108 | a converted row with an integer cannot be converted again without TypeError |
| Mactime.IndexOf | plaso/parsers/mactime.py:77-82 | each description sits at its key in the time table |
| Mactime.EventsFrom | plaso/parsers/mactime.py:110-115 | at most one event per remaining time key |
| Mactime.EventsFromBuilt | plaso/parsers/mactime.py:110-115 | every event is for a truthy time, built from that time and the row |
| Mactime.EventsFromComplete | plaso/parsers/mactime.py:110-115 | there is an event for each truthy time |
| Mactime.EventsOfShape | plaso/parsers/mactime.py:110-115 | at most 4 events; one with description d iff d's time is truthy, carrying that time and the row's fields |
| Mactime.ParseRow | plaso/parsers/mactime.py:102-115 | TypeError and no events iff a field is not text; otherwise the row is converted in place and the events are those of the converted row |
| Mactime.InodeBeforeDash | plaso/parsers/mactime.py:52-62 | an inode is read from the text before the first '-' |
| Mactime.InodeOfDecimal | plaso/parsers/mactime.py:52-62 | a decimal inode with a '-' suffix is that decimal |
| Mactime.InodeFallback | plaso/parsers/mactime.py:52-62 | non-decimal inode text is 0; an integer inode stays |
| Mactime.NoDashInDigits | plaso/parsers/mactime.py:54-55 | digit text has no '-' (helper) |
| Mactime.EventFields | plaso/parsers/mactime.py:45-50 | user_sid is '' without uid, the canonical text of a decimal uid's integer, or the uid text; filename 'N/A' without name |
| Mactime.BodyRow.constructor | plaso/parsers/mactime.py:102-104 | the row holds the cells of the CSV line as read |
| YearTracking.GetYearCases | plaso/parsers/mac_securityd.py:225-247 | the year of the creation time, else of the change time, else the current year, also when the conversion fails |
| YearTracking.StartYear | plaso/parsers/mac_securityd.py:158-163 | a kept non-zero year stays; otherwise the file's year or, when that is 0, the current year, never 0 when the current year is not |
| YearTracking.MonthOf | plaso/parsers/mac_securityd.py:166 | a month iff the lower-cased name is a MONTH_DICT key, and then its number from 1 to 12 |
| YearTracking.MonthNames | plaso/parsers/mac_securityd.py:166 | 'Jan' is 1, 'Dec' 12, 'NOV' 11 |
| YearTracking.AdvanceGap | plaso/parsers/mac_securityd.py:166-170 | after a known month, an earlier month adds one to the year and a later or equal one does not; the remembered month is kept |
| YearTracking.AdvanceFirst | plaso/parsers/mac_securityd.py:167-168 | without a remembered month, the first month becomes it and the year does not change |
| YearTracking.AdvanceUnknownMonth | plaso/parsers/mac_securityd.py:166-170 | an unknown month (None) after a known one adds a year, as None sorts below every integer |
| YearTracking.AdvanceMonotone | plaso/parsers/mac_securityd.py:165-170 | a line moves the year by 0 or 1 |
| YearTracking.GetTimestamp | plaso/parsers/mac_securityd.py:205-223 | TypeError iff the month is unknown; otherwise FromTimeParts of the year, month, day and time in UTC |
| MacSecuritydLog.VerifyStructure | plaso/parsers/mac_securityd.py:124-137 | true iff the line parses, its month name is known and its day, month and time in 2012 give a non-zero timestamp |
| MacSecuritydLog.MacSecuritydLogParser.constructor | plaso/parsers/mac_securityd.py:116-122 | the kept year from the preprocessing object, no remembered month and no previous line |
| MacSecuritydLog.MacSecuritydLogParser.ParseRecord | plaso/parsers/mac_securityd.py:139-203 | the new parser state and the result are those of ParseRecordOf on the old state |
| MacSecuritydLog.GapPersists | plaso/parsers/mac_securityd.py:165-170 | a month earlier than the remembered one adds one to the year, whether or not the line is kept |
| MacSecuritydLog.LastMonthUpdate | plaso/parsers/mac_securityd.py:167-179 | a kept line's month is remembered; a dropped line leaves the old month, or its own when none was remembered |
| MacSecuritydLog.DroppedLine | plaso/parsers/mac_securityd.py:176-178 | a line with timestamp 0 yields nothing and does not become the previous line |
| MacSecuritydLog.LogLineRemembered | plaso/parsers/mac_securityd.py:181-203 | a kept log line becomes the previous line and yields its event with its own message |
| MacSecuritydLog.RepeatedReuses | plaso/parsers/mac_securityd.py:184-188 | a repeated line yields the previous line's event with 'Repeated <n> times: ' before its message, and raises AttributeError when there is no previous line |
| MacSecuritydLog.UnknownMonthRaises | plaso/parsers/mac_securityd.py:166-175 | an unknown month name raises TypeError in FromTimeParts after the year update |
| MacSecuritydLog.OtherKey | plaso/parsers/mac_securityd.py:139-145 | any other structure key yields nothing and changes nothing |
| MacSecuritydLog.EventFields | plaso/parsers/mac_securityd.py:190-203 | the sender is stripped; a blank caller and an empty security API become 'unknown'; the other fields are copied |
| MacSecuritydLog.BlankCaller | plaso/parsers/mac_securityd.py:193-195 | a caller of spaces only is 'unknown' |
| MacSecuritydLog.RunYear | plaso/parsers/mac_securityd.py:165-170 | over a run of lines the year grows by at most one per line and never falls |
| MacSecuritydLog.YearRollover | plaso/parsers/mac_securityd.py:165-179 | a January line after a kept December line is dated in the next year |
| MacAppFirewall.VerifyStructure | plaso/parsers/mac_appfirewall.py:110-120 | true iff the line parses with status 'Error' and action 'creating /var/log/appfirewall.log' |
| MacAppFirewall.DecodeAction | plaso/parsers/mac_appfirewall.py:171-177 | the strict UTF-8 decoding of the action when it succeeds, otherwise the decoding that drops bad bytes |
| MacAppFirewall.MacAppFirewallParser.constructor | plaso/parsers/mac_appfirewall.py:102-108 | the kept year from the preprocessing object, no remembered month and no previous line |
| MacAppFirewall.MacAppFirewallParser.ParseRecord | plaso/parsers/mac_appfirewall.py:122-184 | the new parser state and the result are those of ParseRecordOf on the old state |
| MacAppFirewall.GapPersists | plaso/parsers/mac_appfirewall.py:148-153 | a month earlier than the remembered one adds one to the year |
| MacAppFirewall.DroppedLine | plaso/parsers/mac_appfirewall.py:149-162 | a line with timestamp 0 yields nothing, keeps the previous line and remembers its month only when none was; a kept line's month is remembered |
| MacAppFirewall.RepeatedCopiesPrevious | plaso/parsers/mac_appfirewall.py:164-169 | a repeated line yields the previous line's event at its own time, and raises AttributeError when there is no previous line |
| MacAppFirewall.LogLineRemembered | plaso/parsers/mac_appfirewall.py:166-184 | a kept log line becomes the previous line and yields its event |
| MacAppFirewall.EventFields | plaso/parsers/mac_appfirewall.py:171-184 | the process name is stripped, the action decoded, the other fields copied |
| MacAppFirewall.UnknownMonthRaises | plaso/parsers/mac_appfirewall.py:149-158 | an unknown month name raises TypeError in FromTimeParts after the year update |
| MacAppFirewall.OtherKey | plaso/parsers/mac_appfirewall.py:122-128 | any other structure key yields nothing and changes nothing |
| SkyDriveLogErr.HeaderTimestamp | plaso/parsers/skydrivelogerr.py:189-208 | a missing hour, minute, second or millisecond gives the same timestamp as an explicit 0; with all given it is FromTimeParts of the date and time with the milliseconds scaled to microseconds; with none, midnight of the date |
| SkyDriveLogErr.LineTimestampCases | plaso/parsers/skydrivelogerr.py:210-234 | a line timestamp is 0 when the short year is negative or the month or day is missing or zero; otherwise it is FromTimeParts with 2000 added to the short year (missing meaning 0) and the milliseconds scaled to microseconds |
| SkyDriveLogErr.ParseLine | plaso/parsers/skydrivelogerr.py:153-163 | no event exactly when the line timestamp is 0 |
| SkyDriveLogErr.ParseHeader | plaso/parsers/skydrivelogerr.py:165-187 | no event exactly when the header timestamp is 0 |
| SkyDriveLogErr.VerifyStructure | plaso/parsers/skydrivelogerr.py:128-141 | true exactly when the line parses as a header whose timestamp is non-zero |
| SkyDriveLogErr.EventFields | plaso/parsers/skydrivelogerr.py:161-187 | a log line event carries the line timestamp, module, source code and text, with no CR LF left in the detail; a header event has no module or source code, the text 'log_start ver_str ver_num' and the detail 'lt_str details' |
| SkyDriveLogErr.NoCrlfLeft | plaso/parsers/skydrivelogerr.py:160-163 | replacing every CR LF with a space leaves no CR LF in the detail |
| SkyDriveLogErr.DetailWithoutCrlf | plaso/parsers/skydrivelogerr.py:160-163 | a detail with no CR LF is kept unchanged |
| SkyDriveLogErr.ReplaceIsJoin | plaso/parsers/skydrivelogerr.py:160-163 | the replacement is the same as splitting the detail on CR LF and joining the parts with spaces |
| SkyDriveLogErr.NoCrlfAround | plaso/parsers/skydrivelogerr.py:183-185 | joining two texts without CR LF by one space gives no CR LF |
| SkyDriveLogErr.OtherKey | plaso/parsers/skydrivelogerr.py:143-151 | a key other than 'logline' or 'header' gives no event |
| SkyDriveLogErr.AsWrittenDiffers | plaso/parsers/skydrivelogerr.py:153-182 | as written, ParseRecord raises ValueError exactly when the corrected parser would skip a header or log line for its zero timestamp, and agrees with it otherwise |
| SkyDriveLogErr.AsWrittenVerifyDiffers | plaso/parsers/skydrivelogerr.py:135-140 | as written, VerifyStructure raises ValueError exactly when a header parses but the corrected check rejects it, and agrees with it otherwise |
| SkyDriveLogErr.MonthZeroLine | plaso/parsers/skydrivelogerr.py:156-159 | a log line with month 00 makes the code as written raise ValueError, where the corrected parser skips it |
| XChatScrollback.ColorDigits | plaso/parsers/xchatscrollback.py:104 | the up to two digits the colour word takes after '\x03' |
| XChatScrollback.StripDecorators | plaso/parsers/xchatscrollback.py:104-105 | the stripped text is never longer than the input (also line 187) |
| XChatScrollback.NoDecoratorLeft | plaso/parsers/xchatscrollback.py:104-105 | no character of '\x02\x07\x08\x0f\x16\x1d\x1f' survives the stripping (also line 187) |
| XChatScrollback.ColorLeftBeforeDigits | plaso/parsers/xchatscrollback.py:104 | a '\x03' that survives is followed by three digits, the case where the max=3 word does not match |
| XChatScrollback.KeepOther | plaso/parsers/xchatscrollback.py:104 | a kept character other than '\x03' keeps that property |
| XChatScrollback.KeepColor | plaso/parsers/xchatscrollback.py:104 | a kept '\x03' before three digits keeps that property |
| XChatScrollback.DigitsKept | plaso/parsers/xchatscrollback.py:104-105 | digits in front of the text are kept as they are |
| XChatScrollback.PlainTextKept | plaso/parsers/xchatscrollback.py:104-105 | text without colour or decorator characters is unchanged (also line 187) |
| XChatScrollback.StripExamples | plaso/parsers/xchatscrollback.py:104-105 | '\x0304x\x02' strips to 'x', and '\x03123' is kept whole |
| XChatScrollback.WhiteCount | plaso/parsers/xchatscrollback.py:108-111 | the length of the leading whitespace pyparsing skips |
| XChatScrollback.BlankCount | plaso/parsers/xchatscrollback.py:112-114 | the length of the leading whitespace pyparsing skips when tabs are kept |
| XChatScrollback.CharIndex | plaso/parsers/xchatscrollback.py:110 | the first position of a character, or None when it does not occur |
| XChatScrollback.CharIndexAfter | plaso/parsers/xchatscrollback.py:110 | the first position of c in prefix + c + rest is the length of the prefix when the prefix has no c |
| XChatScrollback.ToLineEnd | plaso/parsers/xchatscrollback.py:112 | SkipTo(LineEnd()): a prefix of the text without newline |
| XChatScrollback.SuffixNoDecorator | plaso/parsers/xchatscrollback.py:187-189 | a part of stripped text has no decorator either |
| XChatScrollback.EntryText | plaso/parsers/xchatscrollback.py:112 | the entry text has no tab and no newline, and no decorator when its input had none (also line 189) |
| XChatScrollback.EntryTextOfLine | plaso/parsers/xchatscrollback.py:189 | a one-line text that does not start with whitespace has its tabs turned into spaces and nothing else changed (also line 112) |
| XChatScrollback.SplitNickname | plaso/parsers/xchatscrollback.py:108-111 | the nickname has no '>' and the text starts within the input |
| XChatScrollback.NicknameAndText | plaso/parsers/xchatscrollback.py:108-114 | a nickname without '>' and a text without tab or newline (also lines 188-190) |
| XChatScrollback.NicknameTextNoDecorator | plaso/parsers/xchatscrollback.py:187-189 | the text of stripped input has no decorator |
| XChatScrollback.NoNickname | plaso/parsers/xchatscrollback.py:111 | text that does not start with '<' has no nickname |
| XChatScrollback.UnclosedNickname | plaso/parsers/xchatscrollback.py:110-111 | a '<' without a later '>' gives no nickname and the whole text |
| XChatScrollback.NicknameTaken | plaso/parsers/xchatscrollback.py:108-111 | '<nick>text' gives nick as the nickname and the text after '>' |
| XChatScrollback.VerifyStructure | plaso/parsers/xchatscrollback.py:127-145 | true iff the line parses, its epoch is an integer and FromPosixTime of it is non-zero |
| XChatScrollback.EpochZeroRejected | plaso/parsers/xchatscrollback.py:142-144 | epoch 0 is rejected |
| XChatScrollback.ParseRecord | plaso/parsers/xchatscrollback.py:147-166 | an event iff the key is 'logline' and the epoch is an integer; it has offset 0, that epoch, and the nickname and text of the stripped text |
| XChatScrollback.EventText | plaso/parsers/xchatscrollback.py:161-190 | an event's text has no tab, newline or decorator, and its nickname no '>' |
| WinFirewall.VerifyStructure | plaso/parsers/winfirewall.py:88-95 | true exactly when the line is '#Version: 1.5' |
| WinFirewall.WinFirewallParser.constructor | plaso/parsers/winfirewall.py:75-86 | no version, no software, the UTC zone in use, and the local zone taken from the preprocessing object or UTC when it has none |
| WinFirewall.WinFirewallParser.ParseCommentRecord | plaso/parsers/winfirewall.py:107-117 | the new settings are CommentSettings of the old ones and the comment |
| WinFirewall.VersionComment | plaso/parsers/winfirewall.py:110-111 | a comment starting 'Version:' stores the text after its first ':' as the version and changes nothing else |
| WinFirewall.TimeComment | plaso/parsers/winfirewall.py:114-117 | a 'Time' comment switches to the local zone when the text after ':' contains 'local' in any case, and the mode stays as it was otherwise; version and software are kept |
| WinFirewall.LocalZoneSticks | plaso/parsers/winfirewall.py:107-117 | once the local zone is in use, no later comment switches it off |
| WinFirewall.ZoneAfterComments | plaso/parsers/winfirewall.py:114-135 | log lines are read in the local zone once a comment has switched to it, and in UTC when none has |
| WinFirewall.LocalStep | plaso/parsers/winfirewall.py:107-117 | one comment leaves the local zone in use exactly when it already was or the comment is a 'Time' comment whose value mentions 'local' |
| WinFirewall.LocalAfterComments | plaso/parsers/winfirewall.py:114-117 | after a run of comments the local zone is in use exactly when it was before or one of them switches to it |
| WinFirewall.FoldLocal | plaso/parsers/winfirewall.py:107-117 | for any per-comment step that turns the local zone on exactly on some comments and never off, the settings after a run of comments use it exactly when they did before or one of those comments occurs |
| WinFirewall.TimeFormatLocal | plaso/parsers/winfirewall.py:114-117 | the comment 'Time Format: Local' switches to the local zone |
| WinFirewall.LineTimestamp | plaso/parsers/winfirewall.py:123-138 | no timestamp exactly when the date or the time is missing; otherwise FromTimeParts of the date and time parts in the chosen zone |
| WinFirewall.WinFirewallParser.ParseLogLine | plaso/parsers/winfirewall.py:119-163 | no event exactly when the date or time is missing or the timestamp is 0; otherwise a new event of the firewall data type whose attributes are the base attributes updated by the line's fields |
| WinFirewall.WinFirewallParser.ParseRecord | plaso/parsers/winfirewall.py:97-105 | a comment updates the settings and gives no event; a log line leaves the settings alone and gives what ParseLogLine gives; any other key changes nothing and gives no event |
| WinFirewall.AttributeIsLastStored | plaso/parsers/winfirewall.py:146-161 | each attribute holds the converted value of the last field with that name that is stored; a name no field stores keeps its base value, or stays absent |
| WinFirewall.DateTimeNotCopied | plaso/parsers/winfirewall.py:147-150 | 'date', 'time' and fields whose every value is '-' are never stored |
| WinFirewall.NumberBecomesInteger | plaso/parsers/winfirewall.py:156-157 | a field of decimal digits is stored as its integer value |
| WinFirewall.OtherValues | plaso/parsers/winfirewall.py:149-159 | a word int() rejects is stored as text, a group is stored as its parts joined with nothing between them, and '-' is not stored |
| WinFirewall.EighthEventSize | plaso/parsers/winfirewall_test.py:61 | the size field '576' is stored as the integer 576 |
| Sorting.Insert | plaso/analysis/browser_search.py:208 | inserting keeps every element and adds x once |
| Sorting.Sort | plaso/analysis/browser_search.py:208-212 | sorted() returns a permutation of its input |
| Sorting.ConsSorted | plaso/analysis/browser_search.py:208 | an element no later one is below, in front of a sorted sequence, gives a sorted sequence |
| Sorting.InsertSorted | plaso/analysis/browser_search.py:208 | inserting into a sorted sequence keeps it sorted |
| Sorting.SortSorted | plaso/analysis/browser_search.py:208-212 | under a strict order the result is sorted |
| Sorting.StrLessAsymmetric | plaso/analysis/browser_search.py:208 | Python's string order is asymmetric |
| Sorting.StrLessTransitive | plaso/analysis/browser_search.py:208 | and transitive |
| Sorting.StrLessTotal | plaso/analysis/browser_search.py:208 | and relates any two different strings |
| Sorting.StrLessOrder | plaso/analysis/browser_search.py:208 | so it is a strict order |
| BrowserSearch.SpaceCount | plaso/analysis/browser_search.py:66 | the length of the leading whitespace run |
| BrowserSearch.WordLength | plaso/analysis/browser_search.py:66 | the length of the leading run without whitespace |
| BrowserSearch.FirstWord | plaso/analysis/browser_search.py:66 | split()[0]: None (the IndexError) iff the text is all whitespace; otherwise a non-empty word without whitespace |
| BrowserSearch.WordLengthAll | plaso/analysis/browser_search.py:66 | text without whitespace is one word |
| BrowserSearch.FirstWordWhole | plaso/analysis/browser_search.py:66 | split()[0] of a non-empty text without whitespace is the text itself |
| BrowserSearch.Plus | plaso/analysis/browser_search.py:83 | replace('+', ' ') keeps the length and leaves no '+' |
| BrowserSearch.KeyValue | plaso/analysis/browser_search.py:62-63 | partitioning at the first key gives what follows it, and partitioning that at the stop character gives the value before it |
| BrowserSearch.QueryTerm | plaso/analysis/browser_search.py:58-66 | the text between the first 'q=' and the next '&' is returned when it is one word |
| BrowserSearch.EmptyQueryKeepsRest | plaso/analysis/browser_search.py:63-65 | with nothing between 'q=' and '&', the whole rest after 'q=' is returned |
| BrowserSearch.BlankQueryRaises | plaso/analysis/browser_search.py:66 | an all-whitespace text between 'q=' and '&' raises IndexError |
| BrowserSearch.GoogleTerm | plaso/analysis/browser_search.py:73-121 | Google, the generic engines and DuckDuckGo return the term after 'q=' with '+' turned into spaces |
| BrowserSearch.SearchNeeded | plaso/analysis/browser_search.py:68-121 | without 'search' Google and the generic engines return None, without 'q=' DuckDuckGo does too |
| BrowserSearch.GoogleDropsEmpty | plaso/analysis/browser_search.py:79-83 | Google returns None where the generic extraction gives an empty term, and the same as it otherwise |
| BrowserSearch.YandexTerm | plaso/analysis/browser_search.py:104-114 | Yandex returns the word after 'text=' up to '&' with '+' turned into spaces |
| BrowserSearch.YandexEmpty | plaso/analysis/browser_search.py:108-111 | nothing between 'text=' and '&' gives None |
| BrowserSearch.GmailTerm | plaso/analysis/browser_search.py:124-133 | Gmail returns the path segment after 'search/' with '+' turned into spaces |
| BrowserSearch.GmailCompose | plaso/analysis/browser_search.py:131 | a segment with '?compose' is cut before it |
| BrowserSearch.CountAllStep | plaso/analysis/browser_search.py:184-190 | one more matched filter is one more counting step |
| BrowserSearch.CountAllStops | plaso/analysis/browser_search.py:184-190 | once a callback raises, the remaining filters change nothing |
| BrowserSearch.CountAllEffect | plaso/analysis/browser_search.py:184-190 | each counter entry grows by at most the number of matched filters, and not at all when no filter's callback name starts its key |
| BrowserSearch.ExaminedChanges | plaso/analysis/browser_search.py:170-190 | the counter changes only for a non-empty URL from a WEBHIST source with a matching filter for the key |
| BrowserSearch.AnalyzeBrowserSearchPlugin.constructor | plaso/analysis/browser_search.py:157-168 | the counter starts empty |
| BrowserSearch.AnalyzeBrowserSearchPlugin.ExamineEvent | plaso/analysis/browser_search.py:170-190 | the new counter and the outcome, as Examined of the old counter |
| BrowserSearch.Store | plaso/analysis/browser_search.py:203-204 | after storing, the key looks up to the value |
| BrowserSearch.StoreOther | plaso/analysis/browser_search.py:203-204 | storing one key leaves the others as they were |
| BrowserSearch.NameLacksColon | plaso/analysis/browser_search.py:145-155 | no callback name contains ':' |
| BrowserSearch.SplitAtColon | plaso/analysis/browser_search.py:202 | partitioning 'name:term' at the first ':' gives the name and the term when the name has no ':' |
| BrowserSearch.KeySplit | plaso/analysis/browser_search.py:190-202 | a counter key splits back into its callback name and its term |
| BrowserSearch.FileStores | plaso/analysis/browser_search.py:202-204 | filing a key records its count under its engine and term |
| BrowserSearch.FileKeeps | plaso/analysis/browser_search.py:202-204 | filing another key keeps what was recorded |
| BrowserSearch.FileHolds | plaso/analysis/browser_search.py:202-204 | after filing, a key's count is recorded, whether it was filed now or before |
| BrowserSearch.GroupedLast | plaso/analysis/browser_search.py:201-204 | the grouping of the counter keys is the grouping of all but the last, with the last filed |
| BrowserSearch.GroupedStep | plaso/analysis/browser_search.py:201-204 | a recorded count survives one more filing |
| BrowserSearch.GroupedHolds | plaso/analysis/browser_search.py:201-204 | every counted key ends up under its engine and term with its count |
| BrowserSearch.GroupedFinds | plaso/analysis/browser_search.py:200-204 | every counter entry ends up in the results under its callback name and term with its count |
| BrowserSearch.AnalyzeBrowserSearchPlugin.CompileReport | plaso/analysis/browser_search.py:192-220 | the results are the counter grouped by engine and the lines are the report of those results |
| BrowserSearch.TermLines | plaso/analysis/browser_search.py:211-213 | one line per term |
| BrowserSearch.TermLinesAppend | plaso/analysis/browser_search.py:211-213 | one more term is one more line at the end |
| BrowserSearch.TermLinesAt | plaso/analysis/browser_search.py:211-213 | the i-th line is the count and the term of the i-th term |
| BrowserSearch.BlocksAppend | plaso/analysis/browser_search.py:208-216 | one more engine is its block appended |
| BrowserSearch.BlocksStep | plaso/analysis/browser_search.py:208-216 | the blocks of the first e + 1 engines are those of the first e and then the e-th block |
| BrowserSearch.EngineOrder | plaso/analysis/browser_search.py:208 | comparing engines by name is a strict order |
| BrowserSearch.TermOrder | plaso/analysis/browser_search.py:211-212 | comparing terms by count, then by text, reversed, is a strict order |
| BrowserSearch.EnginesAscending | plaso/analysis/browser_search.py:208 | the engines are sorted by name, with the same entries |
| BrowserSearch.TermsDescending | plaso/analysis/browser_search.py:211-212 | the terms are sorted by count descending, ties by term descending, with the same entries |
| BrowserSearch.BlockShape | plaso/analysis/browser_search.py:209-216 | a block is the engine heading, one line per term in sorted order, and an empty line |
| BrowserSearch.WriteTerms | plaso/analysis/browser_search.py:211-213 | the term loop's lines, as TermLines |
| BrowserSearch.WriteBlock | plaso/analysis/browser_search.py:209-216 | one engine's lines, as Block |
| BrowserSearch.WriteBlocks | plaso/analysis/browser_search.py:208-216 | the engine loop's lines, as Blocks |
| MacKeeperCache.Get | plaso/parsers/sqlite_plugins/mackeeper_cache.py:50-57 | dict.get: a value stored under the key, or None when no pair has the key |
| MacKeeperCache.BracketPart | plaso/parsers/sqlite_plugins/mackeeper_cache.py:85-87 | with a '[', the data part is what lies between the first '[' and the next ']' |
| MacKeeperCache.CommentPart | plaso/parsers/sqlite_plugins/mackeeper_cache.py:88-90 | text starting with '//' and no '[' gives '{' and what follows the first '{' |
| MacKeeperCache.NoCharNoFind | plaso/parsers/sqlite_plugins/mackeeper_cache.py:85 | a text without a character does not contain it |
| MacKeeperCache.CallPresent | plaso/parsers/sqlite_plugins/mackeeper_cache.py:91 | '(' followed by '{' is a '({' |
| MacKeeperCache.ParenPart | plaso/parsers/sqlite_plugins/mackeeper_cache.py:91-93 | a '({' call gives what lies between the first '(' and the last ')' |
| MacKeeperCache.NoPart | plaso/parsers/sqlite_plugins/mackeeper_cache.py:85-96 | without '[', a leading '//' or '({' the result is empty |
| MacKeeperCache.UndecodableIsEmpty | plaso/parsers/sqlite_plugins/mackeeper_cache.py:98-101 | a data part json.loads rejects gives an empty dictionary |
| MacKeeperCache.PairLines | plaso/parsers/sqlite_plugins/mackeeper_cache.py:68-76 | at most one line per pair |
| MacKeeperCache.ListedIff | plaso/parsers/sqlite_plugins/mackeeper_cache.py:68-76 | a line is listed iff some pair whose key is not body, datetime, type, room, rooms or id formats to it |
| MacKeeperCache.OnlyExcluded | plaso/parsers/sqlite_plugins/mackeeper_cache.py:71-73 | a dictionary of excluded keys only lists nothing |
| MacKeeperCache.DictToList | plaso/parsers/sqlite_plugins/mackeeper_cache.py:68-76 | the loop's lines, as PairLines |
| MacKeeperCache.QuotedItems | plaso/parsers/sqlite_plugins/mackeeper_cache.py:44 | one quoted item per list element, as the list repr prints them |
| MacKeeperCache.ChatRoom | plaso/parsers/sqlite_plugins/mackeeper_cache.py:50-54 | a room is stored only when it is truthy |
| MacKeeperCache.ParseChatData | plaso/parsers/sqlite_plugins/mackeeper_cache.py:28-65 | fails iff the body is present and not a string; never both sid and user; the id is the data's id |
| MacKeeperCache.PlainBody | plaso/parsers/sqlite_plugins/mackeeper_cache.py:39-40 | a body not starting with '//' is the text with newlines turned into spaces |
| MacKeeperCache.NoBody | plaso/parsers/sqlite_plugins/mackeeper_cache.py:45-46 | without a body the text is 'No text.' |
| MacKeeperCache.UserSplit | plaso/parsers/sqlite_plugins/mackeeper_cache.py:57-63 | a truthy user int() accepts becomes the sid, another truthy user stays the user, a falsy one is dropped |
| MacKeeperCache.RoomFallback | plaso/parsers/sqlite_plugins/mackeeper_cache.py:50-54 | a truthy 'rooms' wins, else a truthy 'room', else none |
| MacKeeperCache.DigitUserIsSid | plaso/parsers/sqlite_plugins/mackeeper_cache.py:57-61 | a decimal user string becomes the numeric sid |
| MacKeeperCache.EventAsWritten | plaso/parsers/sqlite_plugins/mackeeper_cache.py:110-136 | the event as the code builds it: event_type is always None, since the key read is 'event_type' and the key stored is 'entry_type' |
| MacKeeperCache.Event | plaso/parsers/sqlite_plugins/mackeeper_cache.py:110-136 | the corrected event keeps the entry type, the text and the URL |
| MacKeeperCache.CategoryOf | plaso/parsers/sqlite_plugins/mackeeper_cache.py:165-182 | a URL is a plain entry iff it does not end in 'plist' and is neither an event, an account nor a support chat URL |
| MacKeeperCache.ChatEntry | plaso/parsers/sqlite_plugins/mackeeper_cache.py:182-204 | fails iff ParseChatData does; the label follows the entry type; a generic entry's text is its pair lines joined by ';' or 'No additional data.' |
| MacKeeperCache.ParseReceiverData | plaso/parsers/sqlite_plugins/mackeeper_cache.py:156-206 | the event carries the request key as URL and the added-time description |
| MacKeeperCache.ParseReceiverDataAsWritten | plaso/parsers/sqlite_plugins/mackeeper_cache.py:156-206 | as written, the event never has an event type |
| MacKeeperCache.PlistRow | plaso/parsers/sqlite_plugins/mackeeper_cache.py:165-167 | a 'plist' URL is a configuration definition with its fixed text |
| MacKeeperCache.ZeobitEventRow | plaso/parsers/sqlite_plugins/mackeeper_cache.py:168-174 | an event URL's text is its query with '&' turned into spaces |
| MacKeeperCache.AccountRow | plaso/parsers/sqlite_plugins/mackeeper_cache.py:175-181 | an account URL is account activity, 'Unknown activity.' without a '#' |
| MacKeeperCache.OtherRow | plaso/parsers/sqlite_plugins/mackeeper_cache.py:159-206 | any other URL gives a 'MacKeeper Entry' event with no data |
| MacKeeperCache.ChatRow | plaso/parsers/sqlite_plugins/mackeeper_cache.py:182-204 | a chat URL's data parses iff the chat data does, with 'Chat ' and the entry label |
| MacKeeperCache.EventTypeLost | plaso/parsers/sqlite_plugins/mackeeper_cache.py:133-192 | for a chat row the corrected event has the entry type and the one as written has none |
| ChromeCookies.StripDotShape | plaso/parsers/sqlite_plugins/chrome_cookies.py:52-53 | the stored host is the host key with at most one leading '.' removed, and one is removed exactly when the key starts with '.' |
| ChromeCookies.CookieUrl | plaso/parsers/sqlite_plugins/chrome_cookies.py:63-68 | the URL starts with 'https://' exactly when the cookie is secure |
| ChromeCookies.NewEvent | plaso/parsers/sqlite_plugins/chrome_cookies.py:34-68 | the event's time is the WebKit timestamp converted, its description is the usage, secure is the truth of the column, and the URL is built from that flag, the stripped host and the path |
| ChromeCookies.CookieEvents | plaso/parsers/sqlite_plugins/chrome_cookies.py:115-129 | three events when the row has an expiry, two otherwise |
| ChromeCookies.CookieEventsOrder | plaso/parsers/sqlite_plugins/chrome_cookies.py:115-129 | first the creation time, then the last access time, then, when present, 'Cookie Expires' at the expiry time |
| ChromeCookies.CookieEventsAgree | plaso/parsers/sqlite_plugins/chrome_cookies.py:52-68 | every event of a row has the stripped host, the cookie name and value, the path, the URL and the truth of the httponly and persistent columns (also lines 115-129) |
| ChromeCookies.PluginUrlAgrees | plaso/parsers/sqlite_plugins/chrome_cookies.py:147-148 | the URL set on the cookie plugins' events is the same URL the row's own events carry (also lines 63-68) |
| ChromeCookies.EnrichedIdempotent | plaso/parsers/sqlite_plugins/chrome_cookies.py:140-148 | setting the row's fields on an event twice gives the same attributes as setting them once |
| ChromeCookies.EnrichedMatchesOwnEvents | plaso/parsers/sqlite_plugins/chrome_cookies.py:140-148 | a plugin event's host, URL, cookie name, httponly and persistent agree with those of the row's own events, and every other attribute is kept |
| ChromeCookies.Enrich | plaso/parsers/sqlite_plugins/chrome_cookies.py:140-148 | the event's attributes are Enriched of the old ones |
| ChromeCookies.Flatten | plaso/parsers/sqlite_plugins/chrome_cookies.py:133-149 | all the plugins' events together are as many as the plugins' events summed |
| ChromeCookies.TotalLengthSnoc | plaso/parsers/sqlite_plugins/chrome_cookies.py:133-149 | summing from the first plugin or from the last gives the same total |
| ChromeCookies.FlattenHas | plaso/parsers/sqlite_plugins/chrome_cookies.py:133-149 | an event is yielded exactly when some cookie plugin yields it |
| ChromeCookies.EnrichAll | plaso/parsers/sqlite_plugins/chrome_cookies.py:135-149 | each of one plugin's events gets the row's fields, even when it is yielded more than once |
| ChromeCookies.ParseCookieRow | plaso/parsers/sqlite_plugins/chrome_cookies.py:105-151 | the row's own events are CookieEvents of the row, the plugins' events are all of them in plugin order, and each of them has the row's fields set |
| MacDocumentVersions.DocumentVersionsRow | plaso/parsers/sqlite_plugins/mac_document_versions.py:45-102 | one creation-time event per row, at the version time converted from POSIX time, whose version path is '/.DocumentRevisions-V100/' followed by the row's version path, with the row's name and last time |
| MacDocumentVersions.SidFromPath | plaso/parsers/sqlite_plugins/mac_document_versions.py:91-97 | when the second '/'-separated part of the version path is all digits, it is the user identifier |
| MacDocumentVersions.NoSlashNoSid | plaso/parsers/sqlite_plugins/mac_document_versions.py:93-95 | a version path without '/' has no user identifier |
| MacDocumentVersions.NonDigitNoSid | plaso/parsers/sqlite_plugins/mac_document_versions.py:93-95 | a second part that is not all digits gives no user identifier |
| MacDocumentVersions.SidTextNone | plaso/parsers/sqlite_plugins/mac_document_versions.py:52-97 | the stored user identifier is the text 'None' exactly when none was found |
| MacDocumentVersions.PathIsDirectory | plaso/parsers/sqlite_plugins/mac_document_versions.py:99 | the stored path is the row's path up to its last '/' |
| MacDocumentVersions.PathWithoutDirectory | plaso/parsers/sqlite_plugins/mac_document_versions.py:99 | a path without '/' is stored as empty |
| AppUsage.ParseApplicationUsageRow | plaso/parsers/sqlite_plugins/appusage.py:46-97 | one event per row, at the last time converted from POSIX time, described as 'Application ' followed by the row's event, with the application path, bundle identifier and count of the row |
| AppUsage.ParseRows | plaso/parsers/sqlite_plugins/appusage.py:77-97 | one event per row of the query, in the query's order |
| AppUsage.PosixMonotone | plaso/lib/timelib.py:359-374 | converting POSIX times in the supported range keeps their order |
| AppUsage.EventsInOrder | plaso/parsers/sqlite_plugins/appusage.py:77-95 | rows ordered by last time within the supported range give events in timestamp order |
| AppUsage.OutOfRangeBreaksOrder | plaso/parsers/sqlite_plugins/appusage.py:77-95 | a last time beyond the supported range converts to 0, so the events of ordered rows can come out of order |
| OlecfSummary.AddNew | plaso/parsers/olecf_plugins/summary.py:149-166 | an attribute is only ever added: a named property not yet present is set to its value, and every present attribute is kept |
| OlecfSummary.SummaryTime | plaso/parsers/olecf_plugins/summary.py:168-187 | a property gives at most one time |
| OlecfSummary.EditTimeIgnored | plaso/parsers/olecf_plugins/summary.py:168-187 | the edit time, and any property that is not a FILETIME, gives no event time |
| OlecfSummary.TimeEvents | plaso/parsers/olecf_plugins/summary.py:189-193 | one event per remembered time, in order, each with the summary attributes |
| OlecfSummary.SummaryPropsKeep | plaso/parsers/olecf_plugins/summary.py:110-187 | the properties of a section never change an attribute already set, and only append times |
| OlecfSummary.SummarySectionsKeep | plaso/parsers/olecf_plugins/summary.py:96-108 | the sections never change an attribute already set |
| OlecfSummary.FirstSummaryValueWins | plaso/parsers/olecf_plugins/summary.py:142-166 | an attribute holds the value of the first property with its name |
| OlecfSummary.NotYetNamed | plaso/parsers/olecf_plugins/summary.py:142-166 | no property with a name means no attribute with that name |
| OlecfSummary.SuffixProps | plaso/parsers/olecf_plugins/summary.py:104-108 | reading the properties in two parts, one after the other, gives the same state as reading them at once |
| OlecfSummary.OtherClassIgnored | plaso/parsers/olecf_plugins/summary.py:105-106 | a section of another class identifier changes nothing |
| OlecfSummary.SummaryEventsOrder | plaso/parsers/olecf_plugins/summary.py:189-203 | the remembered times in order, then the root creation time and then the root modification time when they are non-zero, each a FILETIME event named 'Summary Information' with the attributes (also lines 26-45) |
| OlecfSummary.OleCfSummaryInfo.constructor | plaso/parsers/olecf_plugins/summary.py:81-94 | the root times are kept and the attributes and times are those read from the sections starting from none |
| OlecfSummary.OleCfSummaryInfo.InitFromPropertySet | plaso/parsers/olecf_plugins/summary.py:96-108 | the new state is SummarySections of the old state and the sections |
| OlecfSummary.OleCfSummaryInfo.InitFromSection | plaso/parsers/olecf_plugins/summary.py:104-108 | the new state is SummaryProps of the old state and one section's properties |
| OlecfSummary.OleCfSummaryInfo.InitFromPropertyValue | plaso/parsers/olecf_plugins/summary.py:110-187 | the new state is SummaryStep of the old state and the property |
| OlecfSummary.OleCfSummaryInfo.GetEventObjects | plaso/parsers/olecf_plugins/summary.py:189-203 | the events are SummaryEvents of the remembered times, the attributes and the root times |
| OlecfSummary.SummaryGetEntries | plaso/parsers/olecf_plugins/summary.py:392-408 | the events of every item in order, each item read into its own summary object |
| OlecfSummary.DocStepEffect | plaso/parsers/olecf_plugins/summary.py:276-327 | a 32-bit version property always sets application_version to its text, and no property changes any other attribute that is already set |
| OlecfSummary.VersionHalves | plaso/parsers/olecf_plugins/summary.py:318-324 | the version text is the upper 16 bits, a '.', and the lower 16 bits, and the two halves make up the value |
| OlecfSummary.DocPropsKeep | plaso/parsers/olecf_plugins/summary.py:262-353 | reading properties never changes an attribute already set other than application_version |
| OlecfSummary.LastVersionWins | plaso/parsers/olecf_plugins/summary.py:321-324 | the last version property decides application_version, unlike the other attributes |
| OlecfSummary.OleCfDocumentSummaryInfoEvent.constructor | plaso/parsers/olecf_plugins/summary.py:247-260 | the FILETIME timestamp converted, the usage, the name 'Document Summary Information' and the attributes read from the sections |
| OlecfSummary.OleCfDocumentSummaryInfoEvent.InitFromPropertySet | plaso/parsers/olecf_plugins/summary.py:262-274 | the new attributes are DocSections of the old ones and the sections |
| OlecfSummary.OleCfDocumentSummaryInfoEvent.InitFromSection | plaso/parsers/olecf_plugins/summary.py:270-274 | the new attributes are DocProps of the old ones and one section's properties |
| OlecfSummary.OleCfDocumentSummaryInfoEvent.InitFromPropertyValue | plaso/parsers/olecf_plugins/summary.py:276-353 | the new attributes are DocStep of the old ones and the property |
| OlecfSummary.ItemEvents | plaso/parsers/olecf_plugins/summary.py:375-382 | an item gives one event for each non-zero root time, each with the item's attributes and the document summary name |
| OlecfSummary.DocEntriesCount | plaso/parsers/olecf_plugins/summary.py:375-382 | every item gives as many events as there are non-zero root times |
| OlecfSummary.StatesConcat | plaso/parsers/olecf_plugins/summary.py:375-382 | the events of two runs of items are those of each run, one after the other |
| OlecfSummary.EntriesOfItem | plaso/parsers/olecf_plugins/summary.py:375-382 | new event objects whose states are ItemEvents of the item's attributes |
| OlecfSummary.DocGetEntries | plaso/parsers/olecf_plugins/summary.py:363-382 | new event objects whose states are DocEntries of the items and the root times |
| EsedbInterface.GetRecordValueKind | plaso/parsers/esedb_plugins/interface.py:128-165 | a value is None exactly for a single NULL column, an integer exactly for a single integer column, a float and a string likewise, and the raw data for multi-value, boolean, GUID, binary and other columns; integers, strings and data are the record's own readings |
| EsedbInterface.Convert | plaso/parsers/esedb_plugins/interface.py:78-126 | every converter gives None for a false value and raises AttributeError for a true number; a unicode text the ASCII codec cannot encode raises ValueError (UnicodeEncodeError), and an ASCII one comes back unchanged from the ASCII converter |
| EsedbInterface.UnicodeAsItsBytes | plaso/parsers/esedb_plugins/interface.py:87-100 | an ASCII unicode text converts exactly as the byte string of its characters: the ASCII converter gives the text back and the base-16 converter two hexadecimal digits per character |
| EsedbInterface.Int64RoundTrip | plaso/parsers/esedb_plugins/interface.py:102-126 | the big-endian and little-endian 64-bit converters read back an unsigned integer from its eight-byte encoding |
| EsedbInterface.ReadLEIsLE | plaso/parsers/esedb_plugins/interface.py:115-126 | reading eight bytes little-endian from the start is their little-endian value |
| EsedbInterface.ShortInt64 | plaso/parsers/esedb_plugins/interface.py:102-126 | fewer than eight bytes make the 64-bit converters raise FieldError |
| EsedbInterface.TextConverters | plaso/parsers/esedb_plugins/interface.py:78-100 | ASCII data converts to its characters and other data raises ValueError; base-16 always succeeds with two digits per byte |
| EsedbInterface.Names | plaso/parsers/esedb_plugins/interface.py:181-182 | the column names of the record's values, in order |
| EsedbInterface.RecordValuesKeys | plaso/parsers/esedb_plugins/interface.py:179-206 | the values' keys are exactly the record's column names |
| EsedbInterface.FirstOfPrefix | plaso/parsers/esedb_plugins/interface.py:181-187 | whether a value is the first with its column name does not depend on the values after it |
| EsedbInterface.FirstOfLast | plaso/parsers/esedb_plugins/interface.py:181-187 | the last value is the first with its name exactly when no earlier value has that name |
| EsedbInterface.RecordValuesOk | plaso/parsers/esedb_plugins/interface.py:179-206 | the values are read without an error exactly when every value that is the first with its column name converts without one |
| EsedbInterface.RecordValuesStep | plaso/parsers/esedb_plugins/interface.py:181-204 | a duplicate column is skipped, and otherwise the value is added or its error raised |
| EsedbInterface.FirstValueWins | plaso/parsers/esedb_plugins/interface.py:181-204 | each column holds the value of the first entry with its name |
| EsedbInterface.NoMappings | plaso/parsers/esedb_plugins/interface.py:189-204 | without value mappings every column holds GetRecordValue of its first entry |
| EsedbInterface.CallbackNamed | plaso/parsers/esedb_plugins/interface.py:189-202 | a column without a mapping, or whose mapping names no converter method, keeps GetRecordValue unconverted |
| EsedbInterface.GetRecordValues | plaso/parsers/esedb_plugins/interface.py:167-206 | the loop's result is RecordValues of the entries and the mappings |
| EsedbInterface.PrefixErr | plaso/parsers/esedb_plugins/interface.py:181-204 | once a value's conversion raises, the values after it do not change the error |
| EsedbInterface.GetTableNames | plaso/parsers/esedb_plugins/interface.py:208-221 | the names of the database's tables, one per table, in order |
| EsedbInterface.TableEventsCases | plaso/parsers/esedb_plugins/interface.py:241-269 | a table gives no events when it has no callback name, no such callback method or is missing from the database, and otherwise the events of its callback |
| EsedbInterface.NoTablesNoEvents | plaso/parsers/esedb_plugins/interface.py:241-269 | a database without tables gives no events |
| EsedbInterface.TableMapMerge | plaso/parsers/esedb_plugins/interface.py:74-76 | the table map holds the required and the optional tables, an optional table's callback wins over a required one's |
| EsedbInterface.EseDbPlugin.constructor | plaso/parsers/esedb_plugins/interface.py:70-76 | the required tables are the names of the required map and the tables are both maps merged |
| EsedbInterface.EseDbPlugin.GetEntries | plaso/parsers/esedb_plugins/interface.py:223-269 | ValueError without a database, otherwise the events of every table in the map's order |
| EsedbInterface.EseDbPlugin.Process | plaso/parsers/esedb_plugins/interface.py:271-298 | ValueError without a database, WrongPlugin when a required table is missing, otherwise the events of GetEntries |
| Msiecf.HttpHeadersCases | plaso/parsers/msiecf.py:62-65 | an event has HTTP headers exactly when the item is a cache item whose data starts with 'HTTP', and they are the data without its last byte |
| Msiecf.ParseUrlShape | plaso/parsers/msiecf.py:94-158 | one primary-time event, then a secondary-time event when that time is positive, an expiration event when that time is positive (read as FILETIME in format 4.7 and as FAT date time otherwise), and a last-checked event read as FAT date time when that time is positive |
| Msiecf.ParseUrlFields | plaso/parsers/msiecf.py:131-158 | every event of an item has the item's offset, location, hit count, file name, cached file size and headers, and the recovered flag (also lines 40-65) |
| Msiecf.DescriptionsFixed | plaso/parsers/msiecf.py:96-129 | cache and cookie items are access and modification times; weekly history is a creation time with the secondary time turned from local time to UTC; unknown types keep 'Primary Time' and 'Secondary Time' |
| Msiecf.CollectConcat | plaso/parsers/msiecf.py:183-209 | the events of two runs of items are those of each run, one after the other |
| Msiecf.CollectRecovered | plaso/parsers/msiecf.py:196-202 | every event of the recovered items is marked recovered, and none of the others is |
| Msiecf.ParseItemsRecovered | plaso/parsers/msiecf.py:183-209 | every event carries the recovered flag its item list was read with |
| Msiecf.ReadErrorSkipped | plaso/parsers/msiecf.py:183-194 | an item whose reading raises IOError, or one that is not a URL item, contributes no events and does not disturb the others |
| Msiecf.CollectSkip | plaso/parsers/msiecf.py:183-194 | an item giving no events can be dropped from the list |
| Msiecf.ParseList | plaso/parsers/msiecf.py:183-209 | the loop's events are ParseItems of the item list |
| Msiecf.Parse | plaso/parsers/msiecf.py:160-211 | UnableToParseFile when the file cannot be opened, otherwise the events of the items followed by those of the recovered items |
| BencodeValues.Get | plaso/parsers/bencode_plugins/utorrent.py:88-100 | dict.get finds a value exactly when some entry has the key, and then it is the value of the first entry with that key |
| BencodeValues.PosixOf | plaso/parsers/bencode_plugins/utorrent.py:40 | an integer timestamp is converted from POSIX time, and anything else gives 0 |
| BencodeValues.Minutes | plaso/parsers/bencode_plugins/utorrent.py:43 | seconds // 60 succeeds exactly when the seed time is an integer |
| BencodeValues.MinutesFloor | plaso/parsers/bencode_plugins/transmission.py:41 | floor division: the minutes are the largest whole number whose sixty-fold is at most the seconds, negative seconds included |
| BencodeValues.Chain | plaso/parsers/bencode_plugins/transmission.py:76-89 | a generator that has raised yields nothing more; otherwise its events are followed by those of the next step |
| UTorrent.NewEvent | plaso/parsers/bencode_plugins/utorrent.py:31-43 | the event exists exactly when the seed time can be divided into minutes, and then carries the POSIX timestamp converted, the description, the path, the caption and the seed time in whole minutes |
| UTorrent.GetEntries | plaso/parsers/bencode_plugins/utorrent.py:56-119 | when any torrent entry fails the first pass, no events and the error it raises |
| UTorrent.BadTorrentRejects | plaso/parsers/bencode_plugins/utorrent.py:84-92 | a torrent entry without caption or path, or with a negative seed time, makes the plugin raise WrongBencodePlugin before any event |
| UTorrent.OtherKeysIgnored | plaso/parsers/bencode_plugins/utorrent.py:84-96 | keys not containing '.torrent' change neither the check nor the events |
| UTorrent.AddedAndCompleted | plaso/parsers/bencode_plugins/utorrent.py:103-111 | 'added_on' and 'completed_on' give an added and a downloaded event at their POSIX times with the seed time in minutes |
| UTorrent.NonZero | plaso/parsers/bencode_plugins/utorrent.py:113-116 | the modification times kept are those of the list that are not zero |
| UTorrent.ModEventsNonZero | plaso/parsers/bencode_plugins/utorrent.py:112-119 | one modification event per non-zero modification time, in order |
| UTorrent.NonIntegerSeedtime | plaso/parsers/bencode_plugins/utorrent.py:103-107 | a seed time that is text makes the first event raise TypeError (also line 43) |
| Transmission.IfSet | plaso/parsers/bencode_plugins/transmission.py:76-89 | a date gives at most one event time |
| Transmission.SetDates | plaso/parsers/bencode_plugins/transmission.py:76-89 | at most the added, done and activity dates, in that order |
| Transmission.EventsFor | plaso/parsers/bencode_plugins/transmission.py:76-89 | one event per set date |
| Transmission.DateEventOk | plaso/parsers/bencode_plugins/transmission.py:30-89 | with an integer seed time, a date gives an event exactly when it is set, with the seed time in whole minutes |
| Transmission.EventsForConcat | plaso/parsers/bencode_plugins/transmission.py:76-89 | the events of the dates are those of each part, one after the other |
| Transmission.ChainClean | plaso/parsers/bencode_plugins/transmission.py:76-89 | running the three date checks one after the other without an error yields their events in order |
| Transmission.EventsOfSetDates | plaso/parsers/bencode_plugins/transmission.py:72-89 | the events are those of the set dates in the order added, done, activity, each with the destination and the seed time in minutes |
| Transmission.MissingSeedingTime | plaso/parsers/bencode_plugins/transmission.py:41-89 | a missing or non-integer seed time raises TypeError at the first set date, and no set date means no error |
| Transmission.NoDatesNoEvents | plaso/parsers/bencode_plugins/transmission.py:72-89 | no set date means no events |
| WinReg.GetValue | plaso/parsers/winreg_plugins/terminal_server.py:41 | a value found by name is one of the key's values with that name, and none is found when no value has it |
| WinReg.GetSubkey | plaso/parsers/winreg_plugins/usbstor.py:90-99 | a subkey found by name is one of the key's subkeys with that name, and none is found when no subkey has it |
| WinReg.SourceAppend | plaso/parsers/winreg_plugins/outlook.py:76 | ': ' followed by the plugin's description |
| WinReg.Collect | plaso/parsers/winreg_plugins/terminal_server.py:71-91 | at most one event per value |
| WinReg.CollectConcat | plaso/parsers/winreg_plugins/terminal_server.py:71-91 | the events of two runs of values are those of each run, one after the other |
| WinReg.CollectFrom | plaso/parsers/winreg_plugins/terminal_server.py:71-91 | every event comes from one of the values |
| WinReg.CollectSkip | plaso/parsers/winreg_plugins/terminal_server.py:74-79 | a value that gives no event can be dropped from the list |
| OfficeMru.RunEnd | plaso/parsers/winreg_plugins/officemru.py:56 | the end of the run of [0-9A-Z] characters from i |
| OfficeMru.LineEnd | plaso/parsers/winreg_plugins/officemru.py:56 | the first newline at or after i, or the end: how far '.' reaches |
| OfficeMru.LastStar | plaso/parsers/winreg_plugins/officemru.py:56 | the last '*' before e, the one a greedy '.*\*' stops at, or None when there is none |
| OfficeMru.MatchAt | plaso/parsers/winreg_plugins/officemru.py:56 | a match at i ends past i, its FILETIME group is a non-empty run of [0-9A-Z], its file name has no newline |
| OfficeMru.MatchGroups | plaso/parsers/winreg_plugins/officemru.py:56 | after the '[F00000000][T' prefix: a match ends past p, with the same group shapes |
| OfficeMru.MatchName | plaso/parsers/winreg_plugins/officemru.py:56 | after ']': the FILETIME group is the run before it, and the file name runs to the end of the line |
| OfficeMru.GetEntries | plaso/parsers/winreg_plugins/officemru.py:58-96 | at most one event per value |
| OfficeMru.ValueEventCases | plaso/parsers/winreg_plugins/officemru.py:61-74 | a value gives an event iff its name is 'Item <digits>' in any case, its data a non-empty string, and findall finds exactly one entry in it |
| OfficeMru.ValueEventShape | plaso/parsers/winreg_plugins/officemru.py:91-96 | the event is at the key path, maps the value name to its data, and appends ': ' and the description to the source |
| OfficeMru.OnlyItemOneTimed | plaso/parsers/winreg_plugins/officemru.py:86-89 | every value other than 'Item 1' gets timestamp 0 |
| OfficeMru.ItemOneTimed | plaso/parsers/winreg_plugins/officemru.py:76-89 | 'Item 1' is at the FILETIME of its hexadecimal group, 0 when that does not parse |
| OfficeMru.EventsFromValues | plaso/parsers/winreg_plugins/officemru.py:58-96 | every event comes from one of the key's values and describes it |
| OfficeMru.NamesAccepted | plaso/parsers/winreg_plugins/officemru.py:49 | 'Item 1', 'ITEM 12' and 'item 7' with a trailing newline match the name pattern |
| OfficeMru.NamesRejected | plaso/parsers/winreg_plugins/officemru.py:49 | 'Item', 'Item 1a', 'Item  1' and 'MRU0' do not |
| OfficeMru.RunEndAt | plaso/parsers/winreg_plugins/officemru.py:56 | the run ends at the first character outside [0-9A-Z] |
| OfficeMru.LineEndAtEnd | plaso/parsers/winreg_plugins/officemru.py:56 | without a newline the line runs to the end |
| OfficeMru.LastStarAt | plaso/parsers/winreg_plugins/officemru.py:56 | the greedy match stops at the last '*' |
| OfficeMru.EntryLayout | plaso/parsers/winreg_plugins/officemru.py:51-56 | where each part of "[F00000000][T<time>]<mid>*<name>" sits |
| OfficeMru.NameGroup | plaso/parsers/winreg_plugins/officemru.py:56 | the file name group is everything after the last '*' on the line when no backslash follows it |
| OfficeMru.MatchAtStart | plaso/parsers/winreg_plugins/officemru.py:56 | text starting with the prefix and a run closed by ']' matches at 0 |
| OfficeMru.LastMatch | plaso/parsers/winreg_plugins/officemru.py:70 | a match that reaches the end of the text is the only one findall gives from it |
| OfficeMru.SingleEntry | plaso/parsers/winreg_plugins/officemru.py:51-74 | an Office 12 or 14 entry on one line gives exactly one (FILETIME, file name) pair |
| OfficeMru.OfficeFourteenEntry | plaso/parsers/winreg_plugins/officemru_test.py:55-59 | an Office 14 value of the form the test expects gives its FILETIME text and its path |
| OfficeMru.FileTimeRoundTrip | plaso/parsers/winreg_plugins/officemru.py:76-80 | the upper-case hexadecimal text of n reads back as n |
| OfficeMru.FileTimePrefixed | plaso/parsers/winreg_plugins/officemru.py:76-80 | int(..., 16) also accepts a '0X' prefix |
| OfficeMru.FileTimeUnreadable | plaso/parsers/winreg_plugins/officemru.py:76-80 | a group with a letter beyond 'F' (other than the prefix's X) is a ValueError, so 0 |
| OfficeMru.TestEntryTime | plaso/parsers/winreg_plugins/officemru_test.py:49-53 | FILETIME 0x01CD0146EA1EADB0 is 2012-03-13 18:27:15.083 in microseconds since 1970 |
| UsbStor.SplitFields | plaso/parsers/winreg_plugins/usbstor.py:52-57 | the subkey name gives device type, vendor, product and revision exactly when splitting it on '&' gives four parts |
| UsbStor.SplitJoined | plaso/parsers/winreg_plugins/usbstor.py:52-53 | four '&'-free parts joined with '&' split back into the same four fields |
| UsbStor.TimesEvents | plaso/parsers/winreg_plugins/usbstor.py:104-109 | one event per first-insertion time |
| UsbStor.FirstInsertTimes | plaso/parsers/winreg_plugins/usbstor.py:88-102 | the list is FirstInserts of the device key |
| UsbStor.FirstInsertsDistinct | plaso/parsers/winreg_plugins/usbstor.py:88-102 | at most three first-insertion times, none repeated, exactly the last-written times of the Device Parameters, LogConf and Properties subkeys that exist, Device Parameters' first |
| UsbStor.AddNewDistinct | plaso/parsers/winreg_plugins/usbstor.py:94-102 | a time already in the list is not added again, and the list so far is kept |
| UsbStor.UpdateDict | plaso/parsers/winreg_plugins/usbstor.py:64-78 | the dictionary is DeviceDict of the old one and the device key |
| UsbStor.DeviceDictForgets | plaso/parsers/winreg_plugins/usbstor.py:64-78 | what a device key sets does not depend on the device key before it |
| UsbStor.DeviceDictFields | plaso/parsers/winreg_plugins/usbstor.py:59-78 | the serial is the device key's name; friendly_name and parent_id_prefix are present exactly when those values exist; the subkey name and the four fields are kept |
| UsbStor.FriendlyNameData | plaso/parsers/winreg_plugins/usbstor.py:67-69 | friendly_name is the data of the FriendlyName value |
| UsbStor.InsertionEvents | plaso/parsers/winreg_plugins/usbstor.py:104-109 | the loop's events are TimesEvents of the first-insertion times |
| UsbStor.DeviceKeyEvents | plaso/parsers/winreg_plugins/usbstor.py:64-109 | the device key's dictionary, then its events: DeviceEvents of that dictionary |
| UsbStor.DeviceEventsShape | plaso/parsers/winreg_plugins/usbstor.py:80-109 | a device key gives one last-connected event at its own last-written time, then one per first-insertion time, all with the dictionary and the key path |
| UsbStor.DevicesStep | plaso/parsers/winreg_plugins/usbstor.py:64-109 | each device key adds its events after those of the device keys before it |
| UsbStor.DeviceKeysEvents | plaso/parsers/winreg_plugins/usbstor.py:64-109 | the loop's events are DevicesEvents of the device keys |
| UsbStor.DevicesLastConnected | plaso/parsers/winreg_plugins/usbstor.py:82-109 | every device key's event is a last-connected one |
| UsbStor.FirstConnectedFirst | plaso/parsers/winreg_plugins/usbstor.py:42-49 | each subkey yields first a first-connected event with only its name at its last-written time, and every later event is last-connected |
| UsbStor.SubkeyBody | plaso/parsers/winreg_plugins/usbstor.py:40-109 | the fields carried on are those of Carried, and the subkey's events end in UnboundLocalError when no fields were ever split |
| UsbStor.SubkeyStep | plaso/parsers/winreg_plugins/usbstor.py:40-109 | a subkey adds its events after those of the earlier subkeys, unless an error already ended them |
| UsbStor.PrefixError | plaso/parsers/winreg_plugins/usbstor.py:52-59 | once an error ends the events, later subkeys add nothing |
| UsbStor.StaleFields | plaso/parsers/winreg_plugins/usbstor.py:52-62 | a name that does not split keeps the fields of an earlier subkey, and no error is raised |
| UsbStor.UnboundAtFirst | plaso/parsers/winreg_plugins/usbstor.py:40-59 | when the first subkey's name does not split, its first-connected event is all that is yielded before UnboundLocalError |
| UsbStor.GetEntries | plaso/parsers/winreg_plugins/usbstor.py:38-109 | the events and the error are EventsOf of the key's path and its subkeys |
| UsbStor.DeviceDictKeeps | plaso/parsers/winreg_plugins/usbstor.py:64-78 | a device key changes only serial, friendly_name and parent_id_prefix |
| UsbStor.DeviceDictOnlyRest | plaso/parsers/winreg_plugins/usbstor.py:64-78 | two dictionaries that agree on everything but those three keys agree after the same device key |
| UsbStor.DeviceDictSets | plaso/parsers/winreg_plugins/usbstor.py:64-78 | the serial is the device key's name; friendly_name and parent_id_prefix are present exactly when the FriendlyName and ParentIdPrefix values exist |
| TerminalServer.OneEventPerServer | plaso/parsers/winreg_plugins/terminal_server.py:38-54 | one event per server subkey, in order, at the key's last-written time and path, whose only text is UsernameHint |
| TerminalServer.UsernameCases | plaso/parsers/winreg_plugins/terminal_server.py:41-47 | the user name is the UsernameHint value when that holds a non-empty string, and the text 'None' when the value is missing, empty or not a string |
| TerminalServer.MruEntries | plaso/parsers/winreg_plugins/terminal_server.py:69-91 | at most one event per value |
| TerminalServer.MruValueCases | plaso/parsers/winreg_plugins/terminal_server.py:71-82 | a value gives an event exactly when it is named and holds a non-empty string, and the event maps the name to the data at the key's path |
| TerminalServer.MruTimestamp | plaso/parsers/winreg_plugins/terminal_server.py:84-87 | only 'MRU0' is at the key's last-written time; every other entry is at 0 |
| TerminalServer.MruEventsFromValues | plaso/parsers/winreg_plugins/terminal_server.py:69-91 | every event comes from one of the key's values, and one with a timestamp comes from MRU0 |
| TerminalServer.MruSkips | plaso/parsers/winreg_plugins/terminal_server.py:74-79 | the default value, an empty string and an integer give no event |
| Outlook.HexText | plaso/parsers/winreg_plugins/outlook.py:67 | the text starts with '0x' and has at least eight digits after it |
| Outlook.HexTextRoundTrip | plaso/parsers/winreg_plugins/outlook.py:67 | the text reads back as the value with int(text, 16) |
| Outlook.DwordText | plaso/parsers/winreg_plugins/outlook.py:67 | a 32-bit value gives exactly ten characters |
| Outlook.AcceptedValues | plaso/parsers/winreg_plugins/outlook.py:57-62 | the values that give events are among the key's values, each named and holding a non-zero integer |
| Outlook.GetEntries | plaso/parsers/winreg_plugins/outlook.py:52-78 | the loop's events are EventsFrom of the key's values with the counter at 0 |
| Outlook.EventsCount | plaso/parsers/winreg_plugins/outlook.py:55-78 | one event per accepted value |
| Outlook.EventOfAccepted | plaso/parsers/winreg_plugins/outlook.py:66-78 | the k-th event maps the k-th accepted value's name to its hexadecimal text at the key's path, and is at the last-written time only when no value was accepted before it |
| Outlook.OnlyFirstTimed | plaso/parsers/winreg_plugins/outlook.py:69-72 | only the first event is at the key's last-written time; the others are at 0 |
| Outlook.SkippedValue | plaso/parsers/winreg_plugins/outlook.py:56-78 | a skipped value does not advance the counter: removing it leaves the events unchanged |
| PlistBluetooth.DeviceEventsRooted | plaso/parsers/plist_plugins/bluetooth.py:48-78 | every event of a device is under the root '/DeviceCache' |
| PlistBluetooth.DevicesFromRooted | plaso/parsers/plist_plugins/bluetooth.py:48-78 | every event of the device loop is under '/DeviceCache' |
| PlistBluetooth.AllRooted | plaso/parsers/plist_plugins/bluetooth.py:42-78 | every event the plugin yields for a plist is under '/DeviceCache' |
| PlistBluetooth.SuffixedKeysDiffer | plaso/parsers/plist_plugins/bluetooth.py:57-76 | the paired key and the three '<device>/<field>' keys are pairwise distinct |
| PlistBluetooth.HasKeyConcat | plaso/parsers/plist_plugins/bluetooth.py:55-78 | a key is in concatenated events iff it is in one part |
| PlistBluetooth.UpdateKey | plaso/parsers/plist_plugins/bluetooth.py:62-78 | an update event has the key '<device>/<field>', and there is one iff the field's value is truthy |
| PlistBluetooth.RecordsParts | plaso/parsers/plist_plugins/bluetooth.py:55-78 | a device's events are the paired event, then the discovery, name and services events |
| PlistBluetooth.PairedChoice | plaso/parsers/plist_plugins/bluetooth.py:55-60 | the event keyed by the device itself exists iff the device is paired and has a LastInquiryUpdate key, truthy or not |
| PlistBluetooth.UpdateChoice | plaso/parsers/plist_plugins/bluetooth.py:62-78 | the '<device>/<field>' event exists iff that field is set and truthy |
| PlistBluetooth.DeviceEventsRecords | plaso/parsers/plist_plugins/bluetooth.py:50-78 | a dictionary entry with a usable name and a PairedDevices value that supports 'in' gives exactly its records, with no exception |
| PlistBluetooth.PairedDescription | plaso/parsers/plist_plugins/bluetooth.py:56 | the paired event's description is 'Paired:True ' and the name text |
| PlistSafari.MakeEvent | plaso/parsers/plist_plugins/safari.py:31-48 | the display title is stored exactly when it differs from the title, a missing one counting as None |
| PlistSafari.EntryEvents | plaso/parsers/plist_plugins/safari.py:73-86 | an entry gives at most one event, never at time 0, and an entry that is not a dictionary raises AttributeError |
| PlistSafari.OnlyVersionOne | plaso/parsers/plist_plugins/safari.py:68-71 | a history file whose version is not 1 yields nothing and raises nothing |
| PlistSafari.UnusableDateSkipped | plaso/parsers/plist_plugins/safari.py:74-84 | an entry whose date float() rejects, or whose Cocoa time converts to 0, is skipped and the loop goes on |
| PlistSafari.EventsNonZero | plaso/parsers/plist_plugins/safari.py:73-86 | no event is at time 0, and there is at most one per entry |
| PlistSafari.UsableDateEmits | plaso/parsers/plist_plugins/safari.py:74-86 | an entry with a usable integer date yields one visit event at its Cocoa time converted |
| PlistAirport.NetworkEvent | plaso/parsers/plist_plugins/airport.py:44-50 | a network's event is at '/RememberedNetworks', key 'item', at its LastConnected time; a dictionary lacking one of the keys raises KeyError and a value that is no dictionary TypeError |
| PlistAirport.OneEventEach | plaso/parsers/plist_plugins/airport.py:44-50 | when every remaining network gives an event, the loop yields exactly those events in order and raises nothing |
| PlistAirport.FirstFaultEnds | plaso/parsers/plist_plugins/airport.py:44-50 | the first network that raises ends the generator with its exception, after the events of the networks before it |
| PlistAirport.OneEventPerNetwork | plaso/parsers/plist_plugins/airport.py:35-50 | one event per remembered network, in order, each at that network's LastConnected time |
| PlistDefault.DatesExactly | plaso/parsers/plist_plugins/default.py:63-65 | an event is yielded exactly for each date value RecurseKey reaches, with its root and key |
| PlistDefault.NeverRejects | plaso/parsers/plist_plugins/default.py:32-52 | every plist is accepted, whatever its name and keys, and its events are those of its date values within the default depth |
| Formatters.EventObject.constructor | plaso/formatters/winlnk.py:89-98 | an event with the given data type and attributes |
| Formatters.EventObject.SetAttribute | plaso/formatters/winlnk.py:94-98 | setattr: the named attribute gets the value and the others are kept |
| WinLnkFormatter.Strings | plaso/formatters/winlnk.py:69-74 | the path parts are usable as text exactly when every one is a string, and then they are those strings in order |
| WinLnkFormatter.GetMessages | plaso/formatters/winlnk.py:78-100 | WrongFormatter and no change for another data type; otherwise the event's attributes and the error are those of Formatted |
| WinLnkFormatter.Precedence | plaso/formatters/winlnk.py:62-76 | the local path wins, then the network path, and with neither and no relative path the linked path is 'Unknown' |
| WinLnkFormatter.RelativeJoin | plaso/formatters/winlnk.py:68-74 | with a working directory, the linked path is the directory, a backslash and the relative path, and the directory is what comes before its last backslash |
| WinLnkFormatter.RelativeAlone | plaso/formatters/winlnk.py:68-74 | without a working directory the linked path is the relative path, and a relative path that is not text raises TypeError |
| WinLnkFormatter.LinkedPathReadsPaths | plaso/formatters/winlnk.py:52-76 | the linked path depends on the four path attributes only |
| WinLnkFormatter.OutputsAreNotPaths | plaso/formatters/winlnk.py:94-98 | setting the description or the linked path leaves the path attributes alone |
| WinLnkFormatter.DescriptionAndNothingElse | plaso/formatters/winlnk.py:93-98 | an existing description is kept and a missing one becomes 'Empty description'; every other attribute is kept, and only description and linked_path are added |
| WinLnkFormatter.FormattedIdempotent | plaso/formatters/winlnk.py:93-98 | formatting the same event twice gives the same attributes as formatting it once |
| WinPrefetchFormatter.Hex8 | plaso/formatters/winprefetch.py:67-70 | '{:08X}' gives at least eight characters |
| WinPrefetchFormatter.Hex8RoundTrip | plaso/formatters/winprefetch.py:67-70 | the serial number's text reads back as the number in base 16 |
| WinPrefetchFormatter.Hex8Dword | plaso/formatters/winprefetch.py:67-70 | a 32-bit serial number gives exactly eight digits |
| WinPrefetchFormatter.VolumesStrings | plaso/formatters/winprefetch.py:64-71 | the volume loop's fragments or first exception, as Iterations |
| WinPrefetchFormatter.GetMessages | plaso/formatters/winprefetch.py:59-76 | WrongFormatter and no change for another data type; otherwise the exception and new attributes of Formatted |
| WinPrefetchFormatter.Index | plaso/formatters/winprefetch.py:70-71 | value[i]: the i-th item of a list and the i-th character of a text, IndexError past the end, TypeError for None, a number or a bool |
| WinPrefetchFormatter.TextDevicePaths | plaso/formatters/winprefetch.py:66-71 | a text of device paths gives its i-th character as the i-th device path |
| WinPrefetchFormatter.SerialTypeDeferred | plaso/formatters/winprefetch.py:66-71 | a text serial number fails only when formatted: AttributeError first for a missing device path, ValueError otherwise |
| WinPrefetchFormatter.UnindexableRaises | plaso/formatters/winprefetch.py:70-71 | a serial number or device path that is None, a number or a bool raises TypeError at its lookup |
| WinPrefetchFormatter.IterationsStep | plaso/formatters/winprefetch.py:65-71 | one more iteration appends its fragment or stops with its exception |
| WinPrefetchFormatter.AllOk | plaso/formatters/winprefetch.py:65-71 | when every fragment up to k can be built, k iterations succeed and give exactly those k fragments, in order |
| WinPrefetchFormatter.ErrorPersists | plaso/formatters/winprefetch.py:65-71 | once an iteration raises, later ones do not run |
| WinPrefetchFormatter.AllFragments | plaso/formatters/winprefetch.py:65-71 | with enough serial numbers and paths, k iterations give k fragments |
| WinPrefetchFormatter.FragmentOk | plaso/formatters/winprefetch.py:66-71 | the fragment of index i is volume i + 1 with the i-th serial number and path |
| WinPrefetchFormatter.FragmentAt | plaso/formatters/winprefetch.py:65-71 | the i-th of k fragments is volume i + 1 with the i-th serial number and path |
| WinPrefetchFormatter.TooFewSerials | plaso/formatters/winprefetch.py:65-71 | more volumes than serial numbers raises, IndexError when nothing raised earlier |
| WinPrefetchFormatter.NoErrorBefore | plaso/formatters/winprefetch.py:65-71 | iterations whose fragments all exist do not raise |
| WinPrefetchFormatter.VolumesStringSet | plaso/formatters/winprefetch.py:73-74 | volumes_string is set iff nothing raised and there is at least one volume |
| WinPrefetchFormatter.IterationsLength | plaso/formatters/winprefetch.py:65-71 | k iterations that succeed give k fragments |
| FilestatFormatter.PfileStatFormatter.constructor | plaso/formatters/filestat.py:24-34 | no source string yet |
| FilestatFormatter.PfileStatFormatter.GetSources | plaso/formatters/filestat.py:36-46 | WrongFormatter for another data type; the formatting error when fs_type or timestamp_desc is not text; otherwise the source string is SourceString of the event's attributes |
| FilestatFormatter.PfileStatFormatter.GetMessages | plaso/formatters/filestat.py:48-66 | WrongFormatter and no change for another data type; otherwise the attributes become Marked of the old ones |
| FilestatFormatter.SourceDefaults | plaso/formatters/filestat.py:42-44 | without fs_type and timestamp_desc the source string is 'Unknown FS Time' |
| FilestatFormatter.SourceRoundTrip | plaso/formatters/filestat.py:42-44 | the source string splits back at its first space into the file system type and the timestamp description |
| FilestatFormatter.SourceErrors | plaso/formatters/filestat.py:42-44 | formatting raises ValueError exactly when fs_type or timestamp_desc is present but neither text nor None |
| FilestatFormatter.UnallocatedIff | plaso/formatters/filestat.py:63-64 | 'unallocated' is added exactly when allocated is present and false, and nothing else changes |
| FilestatFormatter.MarkedIdempotent | plaso/formatters/filestat.py:63-64 | marking twice is marking once |
| OutputStore.Span | plaso/output/dynamic.py:219-220 | the store numbers from the lower bound up to but excluding the upper one, each mapped to the storage information |
| OutputStore.RangeMap | plaso/output/l2t_tln.py:55-58 | one storage information object maps exactly the store numbers its range covers, and none without a range |
| OutputStore.BuildPreprocesses | plaso/output/dynamic.py:216-220 | the loop over the storage information builds Preprocesses of the list |
| OutputStore.UpdateUnion | plaso/output/dynamic.py:216-220 | storing a number after merging two maps is storing it in the later one |
| OutputStore.PreprocessLookup | plaso/output/dynamic.py:216-220 | a store number is mapped exactly when some range covers it, and then to the last storage information covering it |
| OutputStore.UpperBound | plaso/output/l2t_tln.py:55-58 | the upper bound of a range is a store number of its own only when the range is read inclusively, as l2t_tln does and dynamic does not; the lower bound always is |
| OutputStore.AddRange | plaso/output/dynamic.py:218-220 | the inner loop maps every store number of the range to the information object over what was mapped before |
| OutputStore.PreprocessDomain | plaso/output/dynamic.py:216-220 | a store number is mapped iff some storage information's range covers it |
| OutputStore.PreprocessLast | plaso/output/dynamic.py:216-220 | a mapped store number is mapped to a covering storage information after which no other covers it |
| L2tTln.PosixOf | plaso/output/l2t_tln.py:90 | an integer timestamp becomes CopyToPosix of it; any value that is neither an integer nor a boolean raises TypeError |
| L2tTln.Cleaned | plaso/output/l2t_tln.py:112-117 | replace('\|', ' ') succeeds iff the value is a string, and then is it with every '\|' a space |
| L2tTln.L2ttln.constructor | plaso/output/l2t_tln.py:42-45 | no host or preprocessing maps and no output yet |
| L2tTln.L2ttln.Start | plaso/output/l2t_tln.py:47-59 | the store's hostnames (or none), the preprocessing per store number with the range's end included, and the header line appended |
| L2tTln.L2ttln.EventBody | plaso/output/l2t_tln.py:69-119 | the event's line appended or nothing, with the exception of Body |
| L2tTln.L2ttln.WriteEvent | plaso/output/l2t_tln.py:61-67 | as EventBody, with NoFormatterFound swallowed |
| L2tTln.NoTimestampSkipped | plaso/output/l2t_tln.py:78-79 | an event without a timestamp writes nothing and raises nothing |
| L2tTln.NoFormatterRaises | plaso/output/l2t_tln.py:81-85 | an event with a timestamp and no formatter raises NoFormatterFound and writes nothing |
| L2tTln.IntTextLacksDelimiter | plaso/output/l2t_tln.py:110-111 | the decimal time has no '\|' |
| L2tTln.CleanedLacksDelimiter | plaso/output/l2t_tln.py:112-117 | a cleaned field has no '\|' |
| L2tTln.SevenColumns | plaso/output/l2t_tln.py:110-119 | a written line ends in a newline and splits at '\|' into exactly the seven fields: time, source, host, user, message, zone and notes, each cleaned |
| L2tTln.TimeField | plaso/output/l2t_tln.py:90 | the time column is the timestamp in whole seconds, rounded down, and its text reads back as that number |
| L2tTln.NotesDefault | plaso/output/l2t_tln.py:104-108 | truthy notes are kept; otherwise 'File: <display_name> inode: <inode>' |
| L2tTln.HostFallback | plaso/output/l2t_tln.py:94-96 | with a store and no truthy hostname, the store number's hostname or '' |
| L2tTln.HostKept | plaso/output/l2t_tln.py:91-96 | without a store, or with a truthy hostname, the event's hostname is kept |
| L2tTln.UserFromStore | plaso/output/l2t_tln.py:98-102 | with a store, the username is the one the preprocessing object resolves unless that is '-'; a store number has preprocessing iff a store range covers it, end included |
| L2tTln.NonStringHost | plaso/output/l2t_tln.py:113 | a hostname that is not text raises AttributeError |
| L2tTln.TextTimestamp | plaso/output/l2t_tln.py:90 | a text timestamp raises TypeError |
| Dynamic.Tag | plaso/output/dynamic.py:66-73 | '-' when the event has no truthy tag, otherwise its tags joined by single spaces |
| Dynamic.Handle | plaso/output/dynamic.py:62-194 | the message and source methods raise NoFormatterFound without a formatter, and the date and time methods AttributeError without a timestamp |
| Dynamic.CellsErrorPersists | plaso/output/dynamic.py:233-245 | once a field's method raises, the rest of the row is not built and the exception stands |
| Dynamic.CellsOk | plaso/output/dynamic.py:233-245 | the row is built iff every field's value is |
| Dynamic.CellsRow | plaso/output/dynamic.py:233-245 | a built row has one value per field, the i-th being the i-th field's value |
| Dynamic.CellsError | plaso/output/dynamic.py:233-245 | a failed row fails with the exception of its first failing field |
| Dynamic.SpaceAfterEach | plaso/output/dynamic.py:247-249 | a helper of the escaping proofs: doubles the length |
| Dynamic.Escaped | plaso/output/dynamic.py:247-249 | one text per value, the separator replaced by a space |
| Dynamic.EscapedLacks | plaso/output/dynamic.py:247-249 | no escaped value contains a one-character separator other than the space |
| Dynamic.RowColumns | plaso/output/dynamic.py:247-250 | the line ends in a newline and splitting it at the separator gives back exactly the escaped values, one column per field |
| Dynamic.PlainField | plaso/output/dynamic.py:240-243 | a field without a parse method, and timestamp_desc, is the attribute or '-' (also lines 62-64) |
| Dynamic.InodeFallback | plaso/output/dynamic.py:182-190 | an inode attribute other than '-' wins; otherwise the path specification's image inode, or '-' |
| Dynamic.HostnameFallback | plaso/output/dynamic.py:120-128 | with a store and no truthy hostname, the store number's hostname or '-' |
| Dynamic.UsernameFailures | plaso/output/dynamic.py:130-144 | a store number without preprocessing information raises AttributeError, and a user_sid without a store raises UnboundLocalError |
| Dynamic.UsernameFromStore | plaso/output/dynamic.py:130-144 | a username resolved through the store comes from an information object whose store range covers the event's store number (also lines 211-215) |
| Dynamic.DefaultRowWithoutFormatter | plaso/output/dynamic.py:207-231 | the default fields of an event without a formatter raise NoFormatterFound |
| Dynamic.Dynamic.constructor | plaso/output/dynamic.py:196-200 | no fields, the ',' separator, no host or preprocessing maps and no output yet |
| Dynamic.Dynamic.Start | plaso/output/dynamic.py:196-223 | the filter's fields or the default ten, its separator or ',', the store's maps, and the header line appended |
| Dynamic.Dynamic.StoreMaps | plaso/output/dynamic.py:214-219 | the hostnames and the per store number preprocessing from the store, nothing else changed |
| Dynamic.Dynamic.WriteHeader | plaso/output/dynamic.py:222-223 | the fields joined by the separator, and a newline, appended |
| Dynamic.Dynamic.Selected | plaso/output/dynamic.py:198-212 | the filter's non-empty fields or the default ten; the filter's separator or ',' |
| Dynamic.Dynamic.EventBody | plaso/output/dynamic.py:233-250 | the row's line appended when every field's value is there; otherwise the exception and no output |
| Dynamic.Dynamic.Row | plaso/output/dynamic.py:235-245 | the field loop's row, as Cells |
| Dynamic.Dynamic.CellOf | plaso/output/dynamic.py:236-245 | one field's value, as Cell |
| Dynamic.Dynamic.WriteEvent | plaso/output/dynamic.py:225-231 | as EventBody, with NoFormatterFound swallowed and no output written for it |
| Dynamic.CollectOk | plaso/output/dynamic.py:233-245 | for any field method, the row loop completes iff every field's value is there |
| Dynamic.CollectRow | plaso/output/dynamic.py:233-245 | for any field method, a completed row holds the fields' values in field order |
| Dynamic.CollectError | plaso/output/dynamic.py:233-245 | for any field method, a failed row fails with the exception of a field all of whose predecessors succeeded |
| Dynamic.CollectFirstError | plaso/output/dynamic.py:233-245 | the first raising field decides the row's exception, whatever follows it |
| Dynamic.NotSpecial | plaso/output/dynamic.py:39-60 | timestamp_desc, parser, display_name, store_number, store_index and filename have no parse method of their own |
| Dynamic.DateTimeCell | plaso/output/dynamic.py:108-110 | an event with a timestamp has the ISO form of it as its datetime |
| Dynamic.SourceCellWithoutFormatter | plaso/output/dynamic.py:86-90 | the short source of an event without a formatter raises NoFormatterFound |
| Preg.StripCurlyBrace | plaso/frontend/preg.py:782-784 | replacing '}' by '}}' and then '{' by '{{' doubles every brace of either kind and keeps every other character |
| Preg.DoubledTwice | plaso/frontend/preg.py:782-784 | the two replace calls in that order double each brace exactly once |
| Preg.StripCurlyBraceFormats | plaso/frontend/preg.py:782-784 | the result is format-safe: str.format reads it back as the original text |
| Preg.BracesPaired | plaso/frontend/preg.py:782-784 | the result grows by one character per brace, and a text without braces is kept |
| Preg.ExpandKeysRedirect | plaso/frontend/preg.py:258-263 | the loop over the list it appends to ends with the keys followed by the Wow6432Node redirect of every software key not yet redirected, in order |
| Preg.RedirectShape | plaso/frontend/preg.py:261-263 | the redirect of a key under the Software prefix puts Wow6432Node right after that prefix |
| Preg.RedirectNotRedirected | plaso/frontend/preg.py:261 | a redirect is never redirected again, so the appended keys add nothing |
| Preg.RedirectsFinal | plaso/frontend/preg.py:258-263 | no appended key qualifies for a redirect |
| Preg.RedirectsLength | plaso/frontend/preg.py:258-263 | at most one redirect per key |
| Preg.Needle | plaso/frontend/preg.py:1107-1110 | the lower-cased plugin name always starts with 'winreg', with 'winreg_' put in front when it does not |
| Preg.NeedleIgnoresCase | plaso/frontend/preg.py:1108 | the case of the given plugin name makes no difference |
| Preg.Matching | plaso/frontend/preg.py:1112-1114 | never more plugins chosen than there are key plugins |
| Preg.MatchingMembers | plaso/frontend/preg.py:1112-1114 | a key plugin is chosen exactly when its lower-cased name contains the needle |
| Preg.MatchingOrdered | plaso/frontend/preg.py:1112-1114 | the chosen plugins keep the order of the key plugin names |
| Preg.GetFormatString | plaso/frontend/preg.py:838-853 | the alignment starts at 15 and grows to the length of every value name shorter than 30, never reaching 30; it is 15 or the length of some name, and the format string is built from it |
| Preg.TypePaths | plaso/frontend/preg.py:338-363 | each registry type gives at most three file patterns |
| Preg.RestorePattern | plaso/frontend/preg.py:339-363 | with restore points each known type gets its usual patterns and then one pattern under the restore path |
| Preg.NoRestoreWithout | plaso/frontend/preg.py:325-363 | without restore points no pattern is under the restore path |
| Preg.UnknownTypeNoPaths | plaso/frontend/preg.py:338-363 | a type other than the five known ones gives no pattern |
| Preg.Patterns | plaso/frontend/preg.py:336-363 | the loop gathers the patterns of the types in order |
| Preg.ExpandAll | plaso/frontend/preg.py:366-369 | expanding keeps one path per pattern |
| Preg.ExpandFailure | plaso/frontend/preg.py:368-372 | one pattern that cannot be expanded makes the whole expansion fail |
| Preg.ExpandSuccess | plaso/frontend/preg.py:368-369 | when every pattern expands, each path is its pattern's expansion |
| Preg.GetRegistryFilePaths | plaso/frontend/preg.py:325-374 | the given type, or the plugins' types without one, gives the patterns; the expanded paths are returned, or the unexpanded patterns when some expansion fails |
| Preg.RegCache.constructor | plaso/frontend/preg.py:64-83 | the cache holds the hive, with the type UNKNOWN |
| Preg.RegCache.SetHiveType | plaso/frontend/preg.py:85-102 | the hive type becomes the first type in REG_TYPES whose marker keys are all in the hive, or UNKNOWN; the hive is unchanged |
| Preg.RegCache.HiveTypeFrom | plaso/frontend/preg.py:89-100 | the loop over the types, skipping UNKNOWN, stops at the first whose keys are all present |
| Preg.RegCache.Found | plaso/frontend/preg.py:93-97 | the inner loop finds a type exactly when each of its keys is in the hive |
| Preg.UnknownIff | plaso/frontend/preg.py:89-100 | the guess is UNKNOWN exactly when no type's marker keys are all present |
| Preg.GuessedPresent | plaso/frontend/preg.py:89-100 | a guessed type has every marker key in the hive |
| Preg.HiveTypeGuess | plaso/frontend/preg.py:76-102 | for REG_TYPES itself: UNKNOWN exactly when no marker key set is complete, otherwise a type whose keys are all there |
| Preg.Insert | plaso/frontend/preg.py:1070 | putting a timestamp into an ascending list keeps it strictly ascending, with the timestamp added to its elements |
| Preg.Ascending | plaso/frontend/preg.py:1070 | sorted over the dictionary's keys is strictly ascending and holds exactly the timestamps |
| Preg.Timestamps | plaso/frontend/preg.py:1055-1057 | one timestamp per event, in order |
| Preg.GroupOf | plaso/frontend/preg.py:1055-1057 | a timestamp's group is non-empty exactly when some event has that timestamp |
| Preg.Bodies | plaso/frontend/preg.py:1082-1083 | one body per event |
| Preg.GroupingGroups | plaso/frontend/preg.py:1054-1057 | the setdefault loop maps exactly the events' timestamps, each to its events in order |
| Preg.GroupCount | plaso/frontend/preg.py:1054-1064 | there are as many groups as distinct timestamps |
| Preg.NoGroups | plaso/frontend/preg.py:1059-1060 | there are no groups exactly when there are no events |
| Preg.ParseKeyEvents | plaso/frontend/preg.py:1054-1085 | the grouping loop and the printing loop give the lines of the plugin's events |
| Preg.GroupLinesOf | plaso/frontend/preg.py:1069-1085 | the printing loop over the sorted timestamps gives the header of the first event, each group's lines and a closing blank line |
| Preg.BodiesOf | plaso/frontend/preg.py:1082-1083 | the inner loop gives the body of every event of the group |
| Preg.GroupContent | plaso/frontend/preg.py:1077-1083 | a group's lines hold its events, with its time line only when there are several timestamps |
| Preg.GroupsLinesContent | plaso/frontend/preg.py:1070-1083 | the groups' lines hold the events grouped in the given order, and a time line per group only when there are several timestamps |
| Preg.PluginContent | plaso/frontend/preg.py:1069-1085 | the header and closing blank line add no event and no time line |
| Preg.GroupsConcatGrows | plaso/frontend/preg.py:1054-1057 | one event more adds it to the grouped events exactly when its timestamp is in the order |
| Preg.GroupsPermute | plaso/frontend/preg.py:1054-1083 | grouping by every timestamp of the events, once each, prints every event exactly once |
| Preg.EventLinesShape | plaso/frontend/preg.py:1054-1085 | the printed bodies are all the events, grouped by ascending timestamp; there is a time line per timestamp exactly when there are several, and the first line is the header, without its timestamp exactly then |
| Preg.SeveralTimestamps | plaso/frontend/preg.py:1062-1067 | there are several groups exactly when two events differ in timestamp |
| Preg.GroupsLinesBodies | plaso/frontend/preg.py:1070-1083 | the event bodies printed, in order, are the events grouped by the timestamps in the order |
| Preg.GroupsLinesTimes | plaso/frontend/preg.py:1077-1080 | a time line is printed per timestamp, in order, exactly when the timestamp is excluded from the header |
| Common.ThenThen | plaso/parsers/winreg_plugins/usbstor.py:46-86 | yielding two runs of events before a generator's rest is yielding their concatenation before it |
| Common.ReadLE | plaso/parsers/esedb_plugins/interface.py:115-126 | an n-byte little-endian read succeeds exactly when the n bytes are inside the buffer, and its value fits in n bytes |
| Common.ReadBE | plaso/parsers/esedb_plugins/interface.py:102-113 | an n-byte big-endian read succeeds exactly when the n bytes are inside the buffer, and its value fits in n bytes |
| Common.LEOfEncodeLE | plaso/parsers/esedb_plugins/interface.py:115-126 | the little-endian value of a value's n-byte little-endian encoding is the value |
| Common.BEOfEncodeBE | plaso/parsers/esedb_plugins/interface.py:102-113 | the big-endian value of a value's n-byte big-endian encoding is the value |
| Common.LEAtIsLE | plaso/parsers/winreg_plugins/appcompatcache.py:184-207 | reading n bytes at an offset by index is the little-endian value of that slice |
| Common.LEAtSlice | plaso/parsers/winreg_plugins/appcompatcache.py:363-387 | reading inside a slice reads the same bytes of the whole buffer |
| Common.PySlice | plaso/parsers/winreg_plugins/appcompatcache.py:483-492 | Python slicing: within bounds it is the plain subsequence, past the end it is cut short or empty, and it is as long as asked exactly when it ends inside the sequence |
| Common.DropLast | plaso/parsers/firefox_cache.py:171 | s[:-1] is everything but the last element, and empty for an empty sequence |
| Common.Strip | plaso/parsers/mac_securityd.py:192-193 | str.strip() leaves neither leading nor trailing whitespace and never lengthens the text |
| Common.StripNoSpace | plaso/parsers/mac_securityd.py:192-193 | a text without surrounding whitespace is kept by strip() |
| Common.Find | plaso/parsers/mactime.py:52-62 | str.find gives the first position where the text occurs, or none when it does not |
| Common.RFind | plaso/parsers/sqlite_plugins/mac_document_versions.py:99 | str.rfind gives the last position where the text occurs, or none when it does not |
| Common.Partition | plaso/parsers/winfirewall.py:111-115 | str.partition with a non-empty separator, as every caller passes: the three parts make up the text; the separator is found at its first occurrence, and when it does not occur the text comes back whole with two empty parts |
| Common.PartitionFirst | plaso/parsers/winfirewall.py:111-115 | partitioning at the first occurrence of the separator cuts the text there |
| Common.RPartitionHead | plaso/parsers/sqlite_plugins/mac_document_versions.py:99 | the head of str.rpartition is never longer than the text |
| Common.BeforeLastChar | plaso/parsers/sqlite_plugins/mac_document_versions.py:99 | the head of rpartition is what precedes the last occurrence of the separator |
| Common.NoCharHead | plaso/parsers/sqlite_plugins/mac_document_versions.py:99 | without the separator the head of rpartition is empty |
| Common.Split | plaso/parsers/winreg_plugins/usbstor.py:53 | str.split gives at least one part and no part contains the separator |
| Common.SplitFirst | plaso/parsers/winreg_plugins/usbstor.py:53 | splitting peels off the text before the first separator |
| Common.SplitNone | plaso/parsers/winreg_plugins/usbstor.py:53 | a text without the separator splits into itself |
| Common.JoinSplit | plaso/parsers/skydrivelogerr.py:160-163 | joining the parts of a split with the same separator gives the text back |
| Common.SplitJoin | plaso/parsers/winreg_plugins/usbstor.py:52-53 | parts without the separator, joined by it, split back into the same parts |
| Common.ReplaceChar | plaso/parsers/winfirewall.py:154 | every occurrence of one character is replaced by another, and nothing else changes |
| Common.NoSepLeft | plaso/parsers/skydrivelogerr.py:160-163 | replacing every separator by a space leaves no separator, when the separator has no space in it |
| Common.Lower | plaso/parsers/winfirewall.py:116 | str.lower() maps each character on its own and keeps the length |
| Common.PyInt | plaso/parsers/mactime.py:104-108 | int(text, base) accepts only texts that are not blank |
| Common.PyIntDigits | plaso/parsers/winfirewall.py:156-157 | int() of a bare digit string is the digits' value |
| Common.PyIntHexPrefix | plaso/parsers/winreg_plugins/officemru.py:77 | int(text, 16) accepts a '0x' or '0X' prefix before the digits |
| Common.NatToStr | plaso/parsers/mactime.py:94 | str() of a non-negative integer is digits, with a leading zero only for 0, whose value is the integer |
| Common.IntToStrRoundTrip | plaso/parsers/mactime.py:94 | int(str(n), 10) is n for every integer |
| Common.DigitChar | plaso/parsers/mactime.py:94 | each decimal digit character has the value it is written for |
| Common.Chars | plaso/parsers/java_idx.py:116-120 | bytes read into a Python 2 str give one character per byte, with the same code |
| Common.Hexlify | plaso/parsers/esedb_plugins/interface.py:99-100 | hexadecimal encoding gives two digits per byte |
| Common.NatToHex | plaso/parsers/winreg_plugins/outlook.py:67 | the hexadecimal digits of a number, with the number as their value |
| Common.PadLeft | plaso/parsers/winreg_plugins/outlook.py:67 | zero-padding to a width keeps the text at its end and is exactly as long as the width or the text, whichever is longer |
| Common.ZeroPadded | plaso/parsers/winreg_plugins/outlook.py:67 | zero-padding leaves the value of hexadecimal digits unchanged |
| Common.LeadingZeros | plaso/parsers/winreg_plugins/outlook.py:67 | zeros in front of hexadecimal digits change neither their validity nor their value |
| Common.HexLength | plaso/parsers/winreg_plugins/outlook.py:67 | a number below 16 to the k has at most k hexadecimal digits |
| Common.ReadAt | plaso/parsers/java_idx.py:168 | file_object.read(n) returns at most n bytes, exactly the next n when they are there, and moves the cursor past what it returned |
| Common.FileObject.constructor | plaso/parsers/java_idx.py:136 | a file object over the file's bytes with the cursor at the start |
| Common.FileObject.Seek | plaso/parsers/java_idx.py:175 | seek moves the cursor to the given offset |
| Common.FileObject.Read | plaso/parsers/java_idx.py:168 | read returns what ReadAt gives and moves the cursor there |
| Common.FileObject.ReadField | plaso/parsers/java_idx.py:138 | parse_stream of an n-byte field succeeds exactly when the n bytes are left; it returns them and moves past them, and otherwise the cursor is left where the failed read stopped |
| Common.FileObject.ReadU16 | plaso/parsers/java_idx.py:116-120 | a big-endian 16-bit read succeeds exactly when two bytes are left, and gives their value |
| Common.FileObject.ReadU32 | plaso/parsers/java_idx.py:114 | a big-endian 32-bit read succeeds exactly when four bytes are left, and gives their value |
| Common.PyIntNegative | plaso/parsers/mactime.py:104-108 | int() of '-' and a digit string is minus the digits' value |
| Common.PyIntUnsigned | plaso/parsers/mactime.py:104-108 | int() of an unsigned text without surrounding spaces is its digits' value exactly when every character is a digit of the base, and raises otherwise |
| Common.PyIntPrefixed | plaso/parsers/winreg_plugins/officemru.py:77 | int(text, 16) of '0x' or '0X' and more is the value of the rest exactly when the rest is all hexadecimal digits |

## Left out

General:

- I/O, logging and print are not modelled; `print value` in `plaso/parsers/winfirewall.py:153` and the registry console's printing are among them.
- Concurrency: the collector's queues behind ProducePathSpec and SignalEndOfInput are an append-only sequence of items.
- Floating point is not modelled. RoundToSeconds, the ESE floating-point columns, the float() in the Safari plugin and float values in utorrent data are taken as integers.
- The datetime, pytz and dateutil code in timelib is not part of this model. FromTimeParts, FromTimeString, CopyToDatetime, CopyToIsoFormat, LocaltimeToUTC and GetCurrentYear are function parameters. FromTimeParts returns 0 on invalid input.
- The `construct` and `pyparsing` machinery is not modelled. Each structure is specified by the byte or text layout it declares. The grammars of the text parsers (securityd, appfirewall, SkyDrive, XChat, Windows Firewall) are given as the parsed structure, and construct's error messages are not modelled.
- md5 in FileSystemCollector._CalculateNTFSTimeHash is modelled by the time tuple itself, which is injective like the digest is meant to be.
- UTF-16 decoding (`binary.Ut16StreamCopyToString` and pyolecf's property decoding) is a function parameter, or the raw byte slice is kept.
- json.loads, urllib.unquote, filters.GetFilter and the formatter manager are parameters.
- The pyesedb, pymsiecf and pyolecf objects, dfvfs file entries and registry keys are abstract input records.
- Python 2 dict iteration order is modelled as a given sequence order. This covers _TIMESTAMP_DESC_MAP in mactime, REG_TYPES in preg, utorrent dictionaries, ESE column maps and the browser-search report.
- Preg.GetRegistryFilePaths: GetRegistryTypes, which asks each plugin for its registry type, is a parameter giving the types.
- Unicode is not modelled beyond code points. There is no normalisation. str.lower(), re.I and isdigit are ASCII only. The unicode() of non-ASCII byte strings is not modelled.
- The event objects' attribute dictionaries are maps. The EventTag objects are not modelled.
- The event counts the tests expect of their image, hive, plist and cache files are not modelled: 574, 58 and 4 Firefox cache events, 10 XChat events, 15 Windows Firewall events, 5 Office MRU events and 14 Bluetooth events. The plist test dictionary, written out in the model, is the exception.
- The modules outside the core are not part of this model: eventdata.py, event.py, text_parser.py, the interactive parts of preg.py, pshell.py, the database output modules and the preprocessors.

By module:

- AppCompatCache: the Vista header is unreachable because CheckSignature never returns Vista. It is kept as the AttributeError the code would raise. The RuntimeError of ParseCachedEntry is an error outcome that ends GetEntries.
- Collector: the searcher behind find specifications is a parameter giving its matches. The dfvfs faults are fields of the input entries: an IsAllocated() or IsLink() that raises, and a listing fault raised after the children.
- Mactime: PosixTimeEvent's conversion (event.py) is not part of this model, so the event keeps the raw time cell. The CSV reading and its restkey list are not modelled.
- JavaIdx: `if section_one` is always true, for a parsed structure, so it is not modelled as a test.
- MacAppFirewall: the ValueError caught around FromTimeParts has no effect, because FromTimeParts returns 0 itself.
- SkyDriveLogErr: the multi-line end marker of the grammar is not modelled. use_local_zone is never read.
- XChatScrollback: the ParseException branch cannot happen, because the message entry always matches.
- WinFirewall: the WRITTEN_TIME label text of eventdata is taken as "Written Time".
- MacKeeperCache: non-object JSON is not modelled; it would make the code raise AttributeError. The two UnicodeDecodeError branches, at `plaso/parsers/sqlite_plugins/mackeeper_cache.py:170-174` and `plaso/parsers/sqlite_plugins/mackeeper_cache.py:184-187`, are not modelled. The quote escaping of list repr is not modelled.
- ChromeCookies: GetPlugins and each cookie plugin's Process are the `runs` parameter, giving what each plugin yields. A WrongPlugin exception leaves the events yielded before it. Other exceptions raised by plugins are not modelled. GA_UTMZ_TRANSLATION is never used.
- SQL queries are not modelled. AppUsage's `ORDER BY` is the precondition OrderedByLastTime.
- OlecfSummary: GetTimestamps of the root item are parameters. The code-page property is read and dropped. The hasattr checks pass because none of the names collide with existing attributes.
- Convert: the two 64-bit converters are modelled as reading a unicode text through its ASCII bytes, and as raising AttributeError for a number; what construct makes of such a non-binary value is not modelled.
- EsedbInterface: the converters of subclasses are not modelled; only the four interface converters are resolved. The cache parameter of GetEntries is not used. BasePlugin.Process has no effect.
- Msiecf: only get_item's IOError is modelled, as ReadError. Getters raising partway through an item are not modelled. The code page, the library version check and closing the file are not modelled.
- OfficeMru: the Word File MRU test key's events are not modelled.
- Outlook: registry integers are taken as unsigned.
- WinReg.GetValue and WinReg.GetSubkey: names are looked up by exact match; the registry library compares them without regard to case, which is not modelled.
- UsbStor: events alias the shared text_dict. The model takes a snapshot of it at each yield. The truthiness of value and key objects is read as presence.
- WinLnkFormatter: the message strings of super().GetMessages come from ConditionalEventFormatter, which is not part of this model.
- WinPrefetchFormatter: the ValueError of formatting a serial number that is not a number is modelled without its message.
- FilestatFormatter: FormatS applied to list attributes is not modelled.
- Dynamic and L2tTln: the host map and user map are maps; GetUsernameById and BuildHostDict read them. WriteLine appends to a list of lines. Multi-character separators are not modelled. The repr escaping of non-printable characters is not modelled. Calling EventBody before Start is not modelled.
- Preg: ParseKey's header and body text (GetEventHeader, GetEventBody) is abstract; the model proves the grouping and order of the lines.
- Sorting: elements neither of which is below the other are not kept in input order, as Python's stable sort keeps them; the browser-search report sorts distinct keys only.
- SymantecFormatter: the code tables are `match` functions from code to name. They are not dictionaries.

## Findings

| source | as written | input that shows it | evidently intended | confidence | as-written member | corrected member |
|---|---|---|---|---|---|---|
| plaso/parsers/skydrivelogerr.py:136-140, 156-159, 178-182 | The debug message for a zero timestamp formats a parse result with the integer code 'd'. In Python 2 that raises ValueError, so the parser raises where it meant to log and return nothing. | a log line dated month 00, such as `00-25-13,16:06:31.820,...` | log the line and return None, or False for VerifyStructure | not executed; high | SkyDriveLogErr.ParseRecordAsWritten, SkyDriveLogErr.VerifyStructureAsWritten, SkyDriveLogErr.AsWrittenDiffers, SkyDriveLogErr.AsWrittenVerifyDiffers, SkyDriveLogErr.MonthZeroLine | SkyDriveLogErr.ParseRecord, SkyDriveLogErr.VerifyStructure |
| plaso/parsers/sqlite_plugins/mackeeper_cache.py:133, 192 | The event reads its event type from the key 'event_type'. The plugin stores the type under 'entry_type', so every event has no event type. | any support-chat row, such as one of type comment | the event type is the entry type the plugin stored | not executed; medium | MacKeeperCache.EventAsWritten, MacKeeperCache.ParseReceiverDataAsWritten, MacKeeperCache.EventTypeLost | MacKeeperCache.Event, MacKeeperCache.ParseReceiverData |
