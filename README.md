# Diamond collectors: nginx access log, Redis key lengths, Cassandra nodetool, rabbitmqctl

A Dafny model of the text-to-metric logic in four collectors of the Diamond metrics daemon.

- **nginx access log** (`NginxLogCollector`) is the largest part. It tails a list of access logs from stored byte offsets. It matches each new line against a configured pattern and accumulates a request count, response-time and response-size sums, a set of session ids and two tally tables. It keeps a rolling history of the last 15 cycles' session sets. It publishes non-zero figures. The modules are:
  - `NginxTail`: offsets, reads and the rotation rule of `yield_line`.
  - `NginxWindow`: the 15-cycle session history and its windows.
  - `NginxLog`: line processing, one `collect` cycle, and the `Collector` class whose fields survive between cycles.
- **Redis key lengths** (`RedisLengthCollector`), module `RedisLength`:
  - parsing the `instances` setting into a nickname-to-address map;
  - `_precision`, `_publish_key` and `_get_length`;
  - the measuring and publishing loops of `collect_instance`.
- **Cassandra nodetool** (`CassandraNodetoolCollector`), module `CassandraNodetool`:
  - the tabular parser `parse_space_seperated`;
  - the columnar dispatch of `info`;
  - the prefix-stack parser of `cfstats`;
  - `publish_if_number` and `sanitize`;
  - the fixed command sequence of `collect`.
- **rabbitmqctl** (`RabbitMQCtlCollector`), module `RabbitMqCtl`: the connection count, the per-vhost queue, exchange and binding figures, the rule that publishes per-queue sizes only for vhosts with at most 20 queues, and the grand totals.

Shared modules:

| module | holds |
|---|---|
| `Outcomes` | `Option` |
| `Text` | the Python string operations used: `replace`, `split`, `join`, `int()`, `str()`, `rfind`, and line iteration of a file |
| `Metrics` | the published `Point` and the key cleaning shared by the nginx and nodetool collectors |
| `Settings` | a setting as the configuration reader hands it over: a string, or a list for a comma-separated value |

What changes state step by step is modelled imperatively, each piece proved equal to a specification function whose properties are proved as lemmas:

- nginx `collect` and `yield_line` are methods of the `Collector` class, with fields `lastLogBytes` and `lastUniqueSessions`.
- The `__init__` instance loop of the Redis collector and its key loop are methods with loops.
- The nodetool parsers and the rabbitmqctl vhost and queue loops are methods with loops.

Python behaviours the model keeps:

- Integers are unbounded, as in Python.
- An exception that the source catches at the top of `collect` is an abort. Whatever was published or committed before it stands.
- In nginx, an abort after `pop(0)` leaves the history one entry shorter.
- In nginx, a log that has gone missing makes `open` raise.
- In nginx, a pattern group that took no part in a match is `None`. As a session, time or size it raises `TypeError` and aborts the cycle. As a status or method it becomes a table key, and publishing that key raises after the scalar figures are out.
- In nginx, `access_logs` arrives as a string, or as a list when written with commas.
- In nodetool, a data row met before any header row reads an unbound `column_headers`.
- In rabbitmqctl, a queue line without exactly two tab-separated fields, or with a non-integer size, ends the cycle.
- A command whose `check_output` fails ends the cycle.

Inputs to the model:

- **Files:** a snapshot map from path to content, taken at the start of the cycle. A path that is absent is a file that `os.path.getsize` and `open` fail on.
- **Regular expressions:** functions from a line to its optional groups.
  - nginx: the line pattern, each of whose groups may be `None`.
  - nodetool: the `\s{2,}` split, the `key: value` match and the value searches.
- **`float()`:** a partial function to `real`.
- **Command outputs** of `nodetool` and `rabbitmqctl`: sequences of lines, or `None` when the command fails.
- **The Redis client:** the type it reports for a key, and the reply of each length command.

## Model

| member | source | states |
|---|---|---|
| Text.Split | src/collectors/nginx_log/nginx_log.py:101 | splitting `access_logs` on `,` gives at least one piece, at least two when a comma is present, and no piece holds the separator |
| Text.JoinSplit | src/collectors/nginx_log/nginx_log.py:101 | the pieces joined back with the separator are the original setting: no character is lost |
| Text.ReplaceChar | src/collectors/nginx_log/nginx_log.py:55 | `replace` of one character keeps the length and changes exactly the occurrences of that character |
| Text.RemoveChar | src/collectors/nginx_log/nginx_log.py:55 | `replace(c, "")` leaves no `c` and never lengthens the string |
| Text.ParseInt | src/collectors/nginx_log/nginx_log.py:103-107 | `int()` on a string: an optional sign and at least one decimal digit, anything else fails |
| Text.IntToString | src/collectors/redislength/redislength.py:90 | `str()` of an integer: a minus sign for a negative number, then its decimal digits; `ParseIntOfIntToString` proves it reads back |
| Text.RemoveCharMembers | src/collectors/nginx_log/nginx_log.py:55 | dropping a character keeps exactly the other characters |
| Text.RFind | src/collectors/redislength/redislength.py:156 | `rfind` is -1 exactly when the character is absent, and otherwise the position of its last occurrence |
| Text.ParseIntOfIntToString | src/collectors/redislength/redislength.py:90 | `int(str(n)) == n` for every integer, so a nickname made from a port reads back as that port |
| Text.FlattenLines | src/collectors/nginx_log/nginx_log.py:124 | iterating a file's lines neither loses nor duplicates a character |
| Text.Lines | src/collectors/nginx_log/nginx_log.py:124 | the lines a file object yields from its position: none is empty, each keeps its newline, and a last line without one is yielded too |
| Text.LinesShape | src/collectors/nginx_log/nginx_log.py:124 | every line but the last ends in its newline and holds no other newline |
| Metrics.Sanitize | src/collectors/nginx_log/nginx_log.py:54-55 | a cleaned key holds no space and no parenthesis, and is no longer than the key |
| Metrics.SanitizeIdempotent | src/collectors/cassandra/cassandra_nodetool.py:35-36 | cleaning twice is cleaning once |
| Metrics.SanitizeCharwise | src/collectors/cassandra/cassandra_nodetool.py:35-36 | cleaning works character by character: it distributes over concatenation, a space becomes `_`, a parenthesis is dropped, any other character is kept |
| NginxTail.ReadFrom | src/collectors/nginx_log/nginx_log.py:85-89 | a read after `seek(offset)` yields exactly the bytes from the offset to the end of the file, and `tell()` is then the file size; a seek past the end yields nothing and `tell()` stays at the offset |
| NginxTail.GrowingFileReadOnce | src/collectors/nginx_log/nginx_log.py:122-143 | on a file that only grows, two successive reads return every new byte exactly once and the offset never goes back |
| NginxTail.TruncatedFileSkipsItsStart | src/collectors/nginx_log/nginx_log.py:122-143 | without a rotation rule, a file shrunk below its offset yields nothing and keeps its offset; once it grows past the offset again, its first bytes are never read |
| NginxTail.RotationRead | src/collectors/nginx_log/nginx_log.py:67-91 | the rotation rule touches only its own file's offset; an unsizable file changes nothing; a file seen for the first time yields nothing and gets its size as offset; a sizable known file always ends at its current size |
| NginxTail.RotationReadContent | src/collectors/nginx_log/nginx_log.py:74-89 | offset within the file: the bytes from the offset are yielded. Offset beyond the file with a previous file at least as long as the offset: the previous file's bytes from the old offset, then the whole current file. Offset beyond the file with the previous file shorter than the offset, missing, or no suffix: the whole current file |
| NginxTail.RotationReadNoDuplicates | src/collectors/nginx_log/nginx_log.py:67-91 | reading again with nothing written in between yields nothing and changes no offset |
| NginxTail.RotationExample | src/collectors/nginx_log/nginx_log.py:74-89 | offset 100, a current file of 40 bytes and a previous file of 150 bytes: bytes 100 to 150 of the previous file come first, then bytes 0 to 40 of the current file, and the offset becomes 40 |
| NginxTail.YieldLineAsWritten | src/collectors/nginx_log/nginx_log.py:67-91 | as written, `yield_line` yields nothing and moves no offset whatever the files hold |
| NginxTail.YieldLineAsWrittenLosesRotation | src/collectors/nginx_log/nginx_log.py:71-89 | on the rotation example, the function as written yields 0 bytes and leaves the offset at 100, where the rule yields 90 bytes |
| NginxWindow.Empties | src/collectors/nginx_log/nginx_log.py:20-21 | `n` empty sets |
| NginxWindow.UnionAll | src/collectors/nginx_log/nginx_log.py:149-151 | `set.union(*hs)`: everything that is in some entry, as `UnionAllMembers` proves |
| NginxWindow.InitialHistory | src/collectors/nginx_log/nginx_log.py:19-21 | the history starts as 15 empty sets |
| NginxWindow.UnionAllMembers | src/collectors/nginx_log/nginx_log.py:149-151 | a session is in `set.union` of some sets exactly when it is in one of them |
| NginxWindow.Window | src/collectors/nginx_log/nginx_log.py:149-151 | `set.union(*hs[-k:])`: the union of the newest k entries, or of all of them when there are fewer; its properties are stated by the window lemmas below |
| NginxWindow.WindowOfOne | src/collectors/nginx_log/nginx_log.py:149 | the 1-cycle window is the last cycle's session set |
| NginxWindow.WindowMonotone | src/collectors/nginx_log/nginx_log.py:149-151 | a shorter window is a subset of a longer one, so its size is no larger |
| NginxWindow.Advance | src/collectors/nginx_log/nginx_log.py:108-144 | one successful cycle: the oldest entry leaves and the cycle's set joins at the end |
| NginxWindow.AdvanceAll | src/collectors/nginx_log/nginx_log.py:108 | advancing the history keeps its length |
| NginxWindow.AdvanceAllIsFifo | src/collectors/nginx_log/nginx_log.py:108 | after any number of successful cycles, the history is the last 15 of the old history followed by the cycles' sets, oldest first |
| NginxWindow.UnionAllEmpties | src/collectors/nginx_log/nginx_log.py:20-21 | the empty sets the history starts with add no session to any union |
| NginxWindow.WindowOverPadding | src/collectors/nginx_log/nginx_log.py:149-151 | behind empty padding, a k-cycle window is the union of the last k real cycles, or of all of them when there are fewer |
| NginxWindow.WindowDuringWarmUp | src/collectors/nginx_log/nginx_log.py:149-151 | during the first 15 cycles, each window is the union of the sessions of the last k cycles that actually ran |
| NginxLog.ParseNumber | src/collectors/nginx_log/nginx_log.py:61-65 | a group that `float()` rejects counts as 0; any other group counts as its value |
| NginxLog.Matched | src/collectors/nginx_log/nginx_log.py:125-127 | a line counts when the pattern matches it with at least one group; every other line is skipped |
| NginxLog.LineReadable | src/collectors/nginx_log/nginx_log.py:128-136 | reading a matched line's groups does not raise: every collected index names a group, and the session, time and size groups took part in the match |
| NginxLog.ParseGroups | src/collectors/nginx_log/nginx_log.py:103-107 | the five group indices, or a failure when any of the five `int()` conversions fails |
| NginxLog.GroupNumber | src/collectors/nginx_log/nginx_log.py:133-136 | what a line adds to a sum: `parse_number` of its group when the line matches and the group exists and took part, else nothing |
| NginxLog.LineSession | src/collectors/nginx_log/nginx_log.py:129-132 | the session a line adds: its session group when the line matches, the group exists, took part and is non-empty |
| NginxLog.IncrementDict | src/collectors/nginx_log/nginx_log.py:93-97 | an absent key is set to `incr`, a present key grows by `incr`, no other key is added, removed or changed |
| NginxLog.ProcessLine | src/collectors/nginx_log/nginx_log.py:124-142 | a line with no match or no group leaves the accumulator as it is. A matched line raises exactly when a collected index names no group, or the session, time or size group took no part in the match. Otherwise it adds 1 to the count and `parse_number` of its time and size groups to the sums. It adds its session to the set when that is non-empty, and 1 to the status and method tables under each group as read (`None` when the group took no part). A field whose index is negative is left alone |
| NginxLog.ProcessLines | src/collectors/nginx_log/nginx_log.py:124-142 | the lines of one read folded in order; the first line that raises aborts the fold |
| NginxLog.ProcessLinesAppend | src/collectors/nginx_log/nginx_log.py:115-143 | accumulating two reads in a row is accumulating the first, then the second from where the first left off |
| NginxLog.UnmatchedLineIsIgnored | src/collectors/nginx_log/nginx_log.py:125-127 | removing an unmatched line from anywhere in a read changes neither the accumulator nor an abort |
| NginxLog.ProcessLinesCount | src/collectors/nginx_log/nginx_log.py:126-128 | `count` grows by exactly the number of matched lines |
| NginxLog.SessionsOf | src/collectors/nginx_log/nginx_log.py:129-132 | a session is collected exactly when some matched line carries it, it is non-empty, and sessions are collected |
| NginxLog.ProcessLinesSessions | src/collectors/nginx_log/nginx_log.py:129-132 | the session set after a read is the set before it plus the distinct non-empty sessions of its lines |
| NginxLog.NumberSum | src/collectors/nginx_log/nginx_log.py:133-136 | the sum over a run of lines of what each adds to a sum collected from one group |
| NginxLog.KeyCount | src/collectors/nginx_log/nginx_log.py:137-142 | the number of lines of a run that carry a given key in a given group |
| NginxLog.ProcessLinesSums | src/collectors/nginx_log/nginx_log.py:133-136 | after a read that did not abort, the time and size sums are the old sums plus `parse_number` of the time and size groups summed over the matched lines |
| NginxLog.ProcessLinesTables | src/collectors/nginx_log/nginx_log.py:137-142 | after a read that did not abort, a key is in the status (method) table exactly when it was before or some matched line carries it. Its count is the old count, or 0, plus the number of such lines |
| NginxLog.ScanLog | src/collectors/nginx_log/nginx_log.py:116-143 | one pass of the loop over `access_logs`: first sight records the size, a missing known log aborts, a known log is read from its offset and its lines are folded in |
| NginxLog.ScanLogs | src/collectors/nginx_log/nginx_log.py:115-143 | the loop over `access_logs` in configured order, stopping at the first abort with the offsets committed so far |
| NginxLog.ScanLogMeaning | src/collectors/nginx_log/nginx_log.py:115-143 | one log touches only its own offset. First sight: it adds nothing and records the size, with no entry when it cannot be sized. A known log that is missing aborts the cycle and moves no offset. A known log that exists folds into the accumulator exactly the lines from its offset to the end of the file, and when that does not abort it ends at the larger of its old offset and its size |
| NginxLog.ScanLogsFrame | src/collectors/nginx_log/nginx_log.py:115-143 | the loop never changes the offset of a log it does not list, and an aborted scan stays aborted |
| NginxLog.Summarize | src/collectors/nginx_log/nginx_log.py:146-151 | the request figure is the count. With no request both averages are 0; otherwise average time × count = 1000 × time total and average size × count = size total. The 1-, 5- and 15-cycle unique counts are the sizes of the unions of the newest 1, 5 and 15 history entries; the 1-cycle count is the size of the newest set; and 1 ≤ 5 ≤ 15 in size |
| NginxLog.PublishIfNonZero | src/collectors/nginx_log/nginx_log.py:57-59 | nothing is published exactly when the value is 0; otherwise exactly one point, the value under the cleaned key |
| NginxLog.FigureName | src/collectors/nginx_log/nginx_log.py:146-151 | no figure name contains a space or a parenthesis |
| NginxLog.SanitizeClean | src/collectors/nginx_log/nginx_log.py:54-55 | cleaning a key that holds no space and no parenthesis changes nothing, so the figures keep their names |
| NginxLog.EveryFigureListed | src/collectors/nginx_log/nginx_log.py:146-151 | all six scalar figures are in the publishing list |
| NginxLog.GateAll | src/collectors/nginx_log/nginx_log.py:146-151 | no zero is ever published, every listed non-zero figure is, and every point is some listed figure under its name with its value |
| NginxLog.ScalarPoints | src/collectors/nginx_log/nginx_log.py:146-151 | a figure is published under its name exactly when it is not zero, and nothing else is published |
| NginxLog.TablePoints | src/collectors/nginx_log/nginx_log.py:152-155 | the points are exactly one per key of the table other than `None`, under the prefix and the key, with the key's count |
| NginxLog.SurePoints | src/collectors/nginx_log/nginx_log.py:152-155 | the table points an interrupted cycle publishes whatever the dictionary order: the whole status table when it has no `None` key, else none |
| NginxLog.AccessLogs | src/collectors/nginx_log/nginx_log.py:26 | `access_logs` as its help text intends. A string is split at commas into comma-free pieces that join back to it. A list is taken as it stands |
| NginxLog.AccessLogsAsWritten | src/collectors/nginx_log/nginx_log.py:101 | as written, reading the paths raises exactly when the setting is a list, and otherwise gives the intended paths |
| NginxLog.CycleFrom | src/collectors/nginx_log/nginx_log.py:99-159 | one cycle given the paths it reads: it aborts when they could not be read, when an index does not parse, or when the history is empty. Otherwise it drops the oldest history entry and scans the logs. A cycle that reads every log appends its sessions and publishes the scalar figures, then both tables; when a table holds `None` it is interrupted, with the whole status table published when only the method table holds `None` |
| NginxLog.CollectCycle | src/collectors/nginx_log/nginx_log.py:99-159 | the intended cycle: `CycleFrom` on the paths `AccessLogs` reads |
| NginxLog.CollectCycleAsWritten | src/collectors/nginx_log/nginx_log.py:99-159 | as written, with a comma-separated `access_logs` every cycle aborts with no offset, history entry or point changed; with a single path it is the intended cycle |
| NginxLog.ListedLogsAsWritten | src/collectors/nginx_log/nginx_log.py:101-121 | two new logs listed with a comma: as written the cycle aborts and neither gets an offset; as intended both get their sizes as offsets and the cycle publishes |
| NginxLog.CollectCycleMeaning | src/collectors/nginx_log/nginx_log.py:99-159 | with an empty history the cycle aborts and changes nothing. An aborted cycle leaves the history whole or one entry shorter. A cycle that reads every log drops the oldest entry and appends its session set. It is interrupted exactly when a table holds the key `None`; the whole status table is then still published unless the status table is the one holding `None`. A published cycle publishes both tables in full. Logs not listed keep their offsets |
| NginxLog.PublishedUniqueSessions | src/collectors/nginx_log/nginx_log.py:129-151 | in a cycle that reads every log, the history becomes the old one without its oldest entry plus this cycle's sessions. `unique_sessions_1` is the number of distinct non-empty sessions of the cycle, `unique_sessions_5` and `unique_sessions_15` are the numbers of distinct sessions in the newest 5 and 15 entries of that history, and `unique_sessions_1 ≤ unique_sessions_5 ≤ unique_sessions_15` |
| NginxLog.MissingLogShrinksHistory | src/collectors/nginx_log/nginx_log.py:108-159 | when the first listed log is known but gone, the cycle aborts after `pop(0)`: the history loses its oldest entry and no offset moves |
| NginxLog.CycleTables | src/collectors/nginx_log/nginx_log.py:152-159 | the table points of a cycle: a published cycle publishes both tables in full; an interrupted one publishes the whole status table unless the status table holds `None`, and then no table point |
| NginxLog.QuietCycleIsSilent | src/collectors/nginx_log/nginx_log.py:146-148 | a cycle that reads every log but matches no line publishes neither the request count nor either average |
| NginxLog.TallyLine | src/collectors/nginx_log/nginx_log.py:125-142 | the loop body for one line computes what `ProcessLine` specifies, raising on a missing group or on a session, time or size group that took no part |
| NginxLog.TallyLines | src/collectors/nginx_log/nginx_log.py:124-142 | the line loop computes the accumulation `ProcessLines` specifies, or the abort |
| NginxLog.Collector.constructor | src/collectors/nginx_log/nginx_log.py:16-21 | no offsets, and a history of 15 empty sets |
| NginxLog.Collector.Collect | src/collectors/nginx_log/nginx_log.py:99-159 | the new offsets, the new history and what is published are those of `CollectCycle`, including the interruption when a table holds `None` and the status points published before it, and the history never grows past 15 |
| NginxLog.Collector.YieldLine | src/collectors/nginx_log/nginx_log.py:67-91 | `yield_line` on the collector's own offsets yields the lines, and leaves the offsets, of the rotation rule |
| RedisLength.InstanceList | src/collectors/redislength/redislength.py:57-66 | a single string is a one-element list; an empty list becomes the one instance `host:port`; any other list is kept |
| RedisLength.ParseHostPort | src/collectors/redislength/redislength.py:77-87 | `:port` is the default host with that port, `host:port` splits at the first colon, a bare host has the default port; a port `int()` rejects fails |
| RedisLength.ParseInstance | src/collectors/redislength/redislength.py:71-90 | `nick@hostport` or a bare hostport named by its printed port; more than one `@` or a bad port fails |
| RedisLength.ParseHostAndPort | src/collectors/redislength/redislength.py:81-84 | `host:port` names the host before the colon and the port written after it |
| RedisLength.ParseNickHostPort | src/collectors/redislength/redislength.py:71-92 | `nick@host:port` maps `nick` to that host and port |
| RedisLength.ParseLocalPort | src/collectors/redislength/redislength.py:77-80 | `:port` names `localhost` and the port after the colon |
| RedisLength.ParseBareHost | src/collectors/redislength/redislength.py:85-90 | a bare host uses port 6379 and, without a nickname, is named `6379` |
| RedisLength.TwoNicknamesRejected | src/collectors/redislength/redislength.py:71-72 | an instance with two `@` fails to unpack |
| RedisLength.AddInstances | src/collectors/redislength/redislength.py:68-92 | the instances inserted into the map in order, or a failure at the first malformed one |
| RedisLength.InsertAllMeaning | src/collectors/redislength/redislength.py:92 | every inserted nickname is a key, and a nickname no later instance reuses keeps its own address |
| RedisLength.AddInstancesInserts | src/collectors/redislength/redislength.py:69-92 | the map is built exactly when every instance parses, and then holds the parsed instances inserted in order |
| RedisLength.AddInstancesMeaning | src/collectors/redislength/redislength.py:69-92 | construction fails exactly when some instance is malformed. Otherwise every instance's nickname is a key, and the last instance with a nickname wins |
| RedisLength.ParseInstances | src/collectors/redislength/redislength.py:57-92 | the instance loop of `__init__` builds the map `AddInstances` specifies from the instance list |
| RedisLength.Precision | src/collectors/redislength/redislength.py:148-159 | 0 without a `.`; otherwise the number of characters after the last `.` |
| RedisLength.PrecisionOfInteger | src/collectors/redislength/redislength.py:209-212 | a length, an integer, is always published with precision 0 |
| RedisLength.PublishKey | src/collectors/redislength/redislength.py:161-169 | the published name `nick.length.key` |
| RedisLength.PublishKeyInjective | src/collectors/redislength/redislength.py:161-169 | under one nickname, different keys are published under different names |
| RedisLength.GetLength | src/collectors/redislength/redislength.py:171-183 | the key's length by the command `length_functions` names for its type, nothing for another type |
| RedisLength.GetLengthCommands | src/collectors/redislength/redislength.py:171-183 | lists are measured by `llen`, sets by `scard`, sorted sets by `zcard`, hashes by `hlen`, strings by `strlen`; any other type is not measured |
| RedisLength.KeysAsWritten | src/collectors/redislength/redislength.py:200 | a single-string `keys` setting is iterated one character at a time |
| RedisLength.SingleKeyIsSplitIntoCharacters | src/collectors/redislength/redislength.py:200-204 | a single configured key of two or more characters is never measured; only one-character keys are |
| RedisLength.KeyList | src/collectors/redislength/redislength.py:200 | a single-string `keys` setting is one key, and a list is kept as it is |
| RedisLength.MeasureFrom | src/collectors/redislength/redislength.py:198-204 | the key loop from a partial map: a non-empty key whose type has a length command is stored with its length |
| RedisLength.MeasureFromMeaning | src/collectors/redislength/redislength.py:200-204 | measuring adds exactly the non-empty keys whose type has a length command, each with its length, and keeps every other entry |
| RedisLength.MeasureKeys | src/collectors/redislength/redislength.py:198-204 | the key loop computes the lengths `MeasureFrom` specifies |
| RedisLength.PublishLengths | src/collectors/redislength/redislength.py:209-212 | one point per measured key, under `nick.length.key`, with value its length and precision 0 |
| RedisLength.PublishedLengths | src/collectors/redislength/redislength.py:209-212 | every measured key is published, and the only point under its name carries its length |
| RedisLength.InstancePoints | src/collectors/redislength/redislength.py:185-212 | what one instance publishes: nothing when it cannot be reached, else each configured non-empty key with a length command under `nick.length.key` with its length |
| RedisLength.CollectInstance | src/collectors/redislength/redislength.py:185-212 | an unreachable instance publishes nothing. Otherwise exactly the configured non-empty keys with a measurable type are measured, each with its length, and each is published under `nick.length.key` |
| RedisLength.Collect | src/collectors/redislength/redislength.py:214-224 | a point is published exactly when it is one of the points of some configured instance under its nickname |
| CassandraNodetool.PublishIfNumber | src/collectors/cassandra/cassandra_nodetool.py:38-43 | a point is published exactly when the value parses as a number, under the cleaned key, which holds no space and no parenthesis |
| CassandraNodetool.Published | src/collectors/cassandra/cassandra_nodetool.py:65-66 | `publish_if_number` over a run of entries in order: at most one point per entry; `PublishedPoints` states which points result |
| CassandraNodetool.PublishedPoints | src/collectors/cassandra/cassandra_nodetool.py:38-43 | a run of `publish_if_number` publishes exactly the entries with numeric values, each under its cleaned key |
| CassandraNodetool.PublishAll | src/collectors/cassandra/cassandra_nodetool.py:65-66 | the publishing loop publishes what `Published` specifies |
| CassandraNodetool.Rest | src/collectors/cassandra/cassandra_nodetool.py:53 | `words[1:]` is everything after the first field, and empty when there is none |
| CassandraNodetool.RowEntries | src/collectors/cassandra/cassandra_nodetool.py:56-59 | a data row of 1 + #headers fields yields #headers pairs, in column order, keyed `prefix.rowheader.colheader` |
| CassandraNodetool.RowPairs | src/collectors/cassandra/cassandra_nodetool.py:57-59 | the column loop yields the pairs `RowEntries` specifies |
| CassandraNodetool.TableFrom | src/collectors/cassandra/cassandra_nodetool.py:45-59 | the rows from one index on: skipped rows are passed, a header row replaces the column headers, a data row before any header ends the parse, and a data row of the right width yields its pairs |
| CassandraNodetool.ParseSpaceSeparated | src/collectors/cassandra/cassandra_nodetool.py:45-59 | the row loop yields the pairs `TableFrom` specifies, and reports whether it ran to the end |
| CassandraNodetool.TableCompletes | src/collectors/cassandra/cassandra_nodetool.py:45-59 | once column headers are known the parse runs to the end; before that, it runs to the end exactly when an unskipped header row comes before every data row |
| CassandraNodetool.SkippedRowIsIgnored | src/collectors/cassandra/cassandra_nodetool.py:46-48 | whatever a skipped row holds, the parse is the same |
| CassandraNodetool.RowKeys | src/collectors/cassandra/cassandra_nodetool.py:59 | every key of a data row is `prefix.row.column` for one of the current columns |
| CassandraNodetool.TableKeys | src/collectors/cassandra/cassandra_nodetool.py:45-59 | every key the parser yields is `prefix.row.column`, the column coming from the current header row or a later one |
| CassandraNodetool.PublishTabularStats | src/collectors/cassandra/cassandra_nodetool.py:61-66 | the numeric cells of the table are published; the parse ends early exactly when a data row comes before every header row |
| CassandraNodetool.FirstIndex | src/collectors/cassandra/cassandra_nodetool.py:96 | `list.index` is the first position of the key |
| CassandraNodetool.Wanted | src/collectors/cassandra/cassandra_nodetool.py:100-106 | a key passes when it is in the includes (if any), not in the excludes (if any), and no current prefix is an excluded prefix value |
| CassandraNodetool.ListStep | src/collectors/cassandra/cassandra_nodetool.py:90-111 | one line of a listing: a prefix key keeps the prefixes above its level and pushes its value; another wanted key is an entry with its value cut to the numeric part when one is found |
| CassandraNodetool.ListFrom | src/collectors/cassandra/cassandra_nodetool.py:89-111 | the listing read line by line from a prefix stack and the entries so far |
| CassandraNodetool.ListInvariant | src/collectors/cassandra/cassandra_nodetool.py:89-111 | the prefix stack is never deeper than the number of prefix keys, entries only accumulate, and every entry is a non-prefix key that passes the include, exclude and prefix-value filters under the prefixes of its line |
| CassandraNodetool.PrefixKeyLine | src/collectors/cassandra/cassandra_nodetool.py:95-98 | a prefix key at level i keeps the first i prefixes (all of them when fewer are set), pushes its value, and publishes nothing |
| CassandraNodetool.ListStats | src/collectors/cassandra/cassandra_nodetool.py:89-110 | the line loop collects the entries `ListFrom` specifies, each of them well formed |
| CassandraNodetool.ListPublishEntries | src/collectors/cassandra/cassandra_nodetool.py:111 | each entry is published under the command, its prefixes and its key, joined by `.`, in order |
| CassandraNodetool.PublishListStats | src/collectors/cassandra/cassandra_nodetool.py:85-111 | every wanted entry with a numeric value is published under its dotted name |
| CassandraNodetool.ValueEntries | src/collectors/cassandra/cassandra_nodetool.py:77-81 | a key's value patterns yield at most one figure each: exactly the patterns that find something, under `command.key` plus the pattern's suffix |
| CassandraNodetool.ColumnarLine | src/collectors/cassandra/cassandra_nodetool.py:72-83 | one line of a columnar listing: nothing without a two-group match, the key's pattern figures when it has patterns, else the whole value |
| CassandraNodetool.ColumnarDispatch | src/collectors/cassandra/cassandra_nodetool.py:72-83 | a line that does not match yields nothing. A key without patterns yields its whole value under `command.key`. A key with patterns yields only what they find |
| CassandraNodetool.ColumnarFrom | src/collectors/cassandra/cassandra_nodetool.py:72-83 | the columnar listing read line by line, each line's figures in order |
| CassandraNodetool.PublishColumnarStats | src/collectors/cassandra/cassandra_nodetool.py:68-83 | the line loop publishes the numeric figures `ColumnarFrom` specifies, in line order |
| CassandraNodetool.FixedTablesComplete | src/collectors/cassandra/cassandra_nodetool.py:115-116 | neither the `netstats` layout nor the `tpstats` layout can meet a data row before a header row, so neither parse raises |
| CassandraNodetool.NetstatsPoints | src/collectors/cassandra/cassandra_nodetool.py:115 | what `netstats` publishes: the numeric cells of its table, rows 0 to 2 skipped, row 3 the header |
| CassandraNodetool.TpstatsPoints | src/collectors/cassandra/cassandra_nodetool.py:116 | what `tpstats` publishes: the numeric cells of its table, rows 0 and 17 headers |
| CassandraNodetool.InfoPoints | src/collectors/cassandra/cassandra_nodetool.py:117-118 | what `info` publishes: the numeric figures of its columnar listing under the `Load`, heap and cache value patterns |
| CassandraNodetool.CfstatsPoints | src/collectors/cassandra/cassandra_nodetool.py:119 | what `cfstats` publishes: the numeric wanted entries of its listing under the keyspace and column-family prefixes |
| CassandraNodetool.Collect | src/collectors/cassandra/cassandra_nodetool.py:113-123 | `netstats`, `tpstats`, `info` and `cfstats` publish in that order; the first command that fails ends the cycle, and what came before stands |
| RabbitMqCtl.Sanitize | src/collectors/rabbitmqctl/rabbitmqctl.py:31-32 | each `/` and each space becomes `_`, every other character is kept, the length is preserved, and neither character remains |
| RabbitMqCtl.SanitizeIdempotent | src/collectors/rabbitmqctl/rabbitmqctl.py:31-32 | cleaning twice is cleaning once |
| RabbitMqCtl.QueueLine | src/collectors/rabbitmqctl/rabbitmqctl.py:50-51 | a queue line is two tab-separated fields, a name and a size `int()` accepts; anything else fails |
| RabbitMqCtl.QueueLineRoundTrip | src/collectors/rabbitmqctl/rabbitmqctl.py:50-51 | a queue name without tabs, a tab and a printed integer reads back as that queue and size |
| RabbitMqCtl.QueueLines | src/collectors/rabbitmqctl/rabbitmqctl.py:49-51 | reading fails exactly when some queue line is malformed; otherwise each line reads as its queue and size |
| RabbitMqCtl.QueuePoints | src/collectors/rabbitmqctl/rabbitmqctl.py:53-54 | one point `messages.vhost.queue` per queue line, in order, with its size |
| RabbitMqCtl.QueueRun | src/collectors/rabbitmqctl/rabbitmqctl.py:49-54 | the queue loop of one vhost: per-queue points while each line reads, and the size sum when every line does |
| RabbitMqCtl.QueueRunCount | src/collectors/rabbitmqctl/rabbitmqctl.py:49-55 | the vhost's message count is the sum of its queue sizes, and fails when a line is malformed |
| RabbitMqCtl.QueueRunPoints | src/collectors/rabbitmqctl/rabbitmqctl.py:49-54 | per-queue points appear only when they are to be published, one per line, in order |
| RabbitMqCtl.VhostRun | src/collectors/rabbitmqctl/rabbitmqctl.py:46-64 | one vhost: its queue points and message total, then its exchange and binding totals, stopping at the first listing that fails |
| RabbitMqCtl.VhostTotals | src/collectors/rabbitmqctl/rabbitmqctl.py:47-64 | a vhost's totals read off its listings: queue sizes summed, exchange and binding lines counted, none when a listing fails or a queue line is malformed |
| RabbitMqCtl.VhostsRun | src/collectors/rabbitmqctl/rabbitmqctl.py:46-64 | the vhost loop: each vhost's points in order and the running totals, stopping at the first vhost that fails |
| RabbitMqCtl.VhostRunMeaning | src/collectors/rabbitmqctl/rabbitmqctl.py:46-64 | a vhost publishes its per-queue sizes only when it has at most 20 queue lines, then its message, exchange and binding totals, which are its size sum and its exchange and binding line counts; it fails exactly when a listing fails or a queue line is malformed |
| RabbitMqCtl.SumTotals | src/collectors/rabbitmqctl/rabbitmqctl.py:56-64 | the grand totals exist exactly when every vhost's totals do |
| RabbitMqCtl.VhostsRunTotals | src/collectors/rabbitmqctl/rabbitmqctl.py:46-67 | the vhost loop's running totals are the sums of the vhosts' own totals |
| RabbitMqCtl.CollectRun | src/collectors/rabbitmqctl/rabbitmqctl.py:34-71 | one cycle: the connection count, the vhost loop, then the three grand totals; an error ends it with what was published standing |
| RabbitMqCtl.CollectRunMeaning | src/collectors/rabbitmqctl/rabbitmqctl.py:34-71 | the cycle completes exactly when every listing is read and every queue line is well formed. It starts with `connections` = the number of connection lines, and a completed cycle ends with `messages.total`, `exchanges.total` and `bindings.total`, each the sum over the vhosts |
| RabbitMqCtl.QueueStats | src/collectors/rabbitmqctl/rabbitmqctl.py:48-55 | the queue loop publishes and counts what `QueueRun` specifies |
| RabbitMqCtl.VhostStats | src/collectors/rabbitmqctl/rabbitmqctl.py:46-64 | one pass of the vhost loop publishes and totals what `VhostRun` specifies |
| RabbitMqCtl.VhostLoop | src/collectors/rabbitmqctl/rabbitmqctl.py:46-64 | the vhost loop publishes and totals what `VhostsRun` specifies |
| RabbitMqCtl.Collect | src/collectors/rabbitmqctl/rabbitmqctl.py:34-71 | `collect` publishes what `CollectRun` specifies, and completes exactly when it does |

## Left out

- Regular expressions are inputs rather than an implementation of Python's `re`. This covers the nginx line pattern and the nodetool `\s{2,}` split, `key: value` match and value searches. An nginx `log_regex` that fails to compile is not modelled.
- `float()` is a partial function to `real`; IEEE rounding and division by `count` in floating point are not modelled.
- `int()` on configuration and queue sizes accepts an optional sign and decimal digits only. Python also accepts surrounding white space; that form is not modelled.
- File I/O (`os.path.getsize`, `open`, `seek`, `tell`) is a snapshot of file contents taken at the start of the cycle. Files changing during a cycle, and errors other than a missing file, are not modelled.
- `subprocess.check_output` is not modelled: each command's output is an input, as lines or as a failure.
- The Redis client is modelled only through its replies. `_client` (connection, `ping`, `db` and `timeout` settings) is reduced to a client or nothing per address. The `redis` import check in `collect` is not modelled.
- Dict iteration order is not modelled. The nginx status and method tables, the Redis `data` dict and the Redis instances are published as sets. The `info` value patterns are a sequence in a fixed order.
- The `publish` sink, `self.log` and the framework's `get_default_config` / `get_default_config_help` are not modelled.
- The fixed command list and fixed settings of the nodetool `collect` are constants. The shell command lines that run `nodetool` and `rabbitmqctl` are not modelled.
- NginxLog.CycleFrom: when a table holds the key `None`, the outcome records the scalar points and the table points published whatever the dictionary order: the whole status table when only the method table holds `None`. The points of the table holding `None` that precede the `TypeError` depend on dictionary order and are not recorded.
- The nodetool line, value and numeric patterns are taken to report every group they define. The fixed patterns of the source have only required groups, so a `None` group cannot arise there.
- NginxLog.Collector.Valid: the class invariant states only that the history never exceeds 15 entries. It does not require exactly 15, because the source's abort path shrinks it.

## Findings

| source | as written | input that shows it | evidently intended | confidence | as-written member | corrected member |
|---|---|---|---|---|---|---|
| src/collectors/nginx_log/nginx_log.py:71-89 | `yield_line` reads and writes a bare `last_log_bytes`, which is not bound in the module. The lookup raises `NameError`, the handler at line 90 catches it, and nothing is yielded | a known log at offset 100, rotated to 40 bytes, with a previous file of 150 bytes: as written 0 bytes are yielded and the offset stays 100 | the collector's own `self.last_log_bytes`: yield bytes 100 to 150 of the previous file, then the 40 bytes of the current file, and set the offset to 40 | high (not executed) | NginxTail.YieldLineAsWrittenLosesRotation | NginxLog.Collector.YieldLine |
| src/collectors/redislength/redislength.py:200 | a `keys` setting holding one key arrives as a string, and the loop iterates over its characters | `keys=queue1` measures the keys `q`, `u`, `e`, `u`, `e` and `1`, never `queue1` | treat a single string as a one-key list, as lines 59-60 do for `instances` | medium (not executed) | RedisLength.SingleKeyIsSplitIntoCharacters | RedisLength.CollectInstance |
| src/collectors/nginx_log/nginx_log.py:101 | an `access_logs` setting written with commas, as its help text at line 26 asks, arrives as a list, and `.split(",")` on a list raises `AttributeError` before anything is read | `access_logs = a.log, b.log` with both logs present: as written every cycle aborts and neither log ever gets an offset | split a string at commas and take a list as it stands | medium (not executed) | NginxLog.ListedLogsAsWritten | NginxLog.CollectCycle |
