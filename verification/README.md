# Verification of the gateway

The gateway pools several OpenCode accounts behind one OpenAI-compatible and one Anthropic-compatible endpoint.
It keeps each session on one account, moves to the next when an account's quota is used up, reads token usage off
the streams it forwards, tunnels outgoing connections through HTTP and SOCKS5 proxies, and keeps keys, proxy URLs
and cookies encrypted in one SQLite database.

This project is a Dafny model of that behaviour. `dafny verify dfyconfig.toml` checks all of it.

| module | what it models |
|---|---|
| `Sequences`, `Text`, `Json`, `Wrappers` | filters, stable sorting and folds; trimming, joining, substrings; JSON values; options and results |
| `Accounts`, `Routing` | the account table, the quota report, who may serve a request and in what order |
| `Failover` | the two retry loops against an arbitrary upstream, the quota marks and the request log |
| `QuotaLifecycle`, `AccountStore`, `GatewayHistory` | every handler that writes an account, as events, the statements behind three of them, and the marks of a request as events |
| `Usages`, `ChatChunks`, `EventLines`, `UsageCapture` | usage reports, chat chunks as upstreams build them, event-stream lines, the pass-through scanner and its finaliser |
| `AnthropicStream`, `Conversion` | the event stream rewritten for Anthropic clients, and requests rewritten for the upstream |
| `Authority`, `Wires`, `Socks5`, `Tunnel`, `ConnectHead` | `host:port` texts, the bounded head reader, the SOCKS5 client, the CONNECT relay and a reader of its request |
| `Vault`, `Sessions` | secrets at rest under a changing master key, lazily purged web sessions |
| `Backup`, `ImportWrites`, `Administration`, `Database` | export and import, imports over existing rows, the handlers that write accounts and proxies, and their statements |

Programs that change state are classes and methods with the loops of the source; each is tied by its
postconditions to a function or predicate, and the theorems are about those.

Parameters stand for what the model does not look into: the hash `(affinity, id) -> int` for SHA-256, the
cryptography (asked only to decrypt what it encrypted, and so on, in `Vault.Sound`), decoding of bytes and of JSON
text, clocks, UUIDs, and one `Exchange` per attempt for everything the outside world does.

## Where the code and what is said about it differ

- The comment at `src/db.rs:56-57` says only a quota refresh clears `quota_exhausted_at`. A replaced API key clears it
  too (`src/routes/keys.rs:186-188`), and for accounts without a cookie it is the only way back
  (`QuotaLifecycle.OnlyKeyUpdateRestores`).
- `docs/superpowers` describes an in-memory cooldown of fifteen minutes. The code stores a column without expiry, and so
  does the model.
- The comment at `src/routes/proxy.rs:573-575` calls the first candidate the sticky winner. That holds if and only if the
  largest hash is not shared (`Routing.HeadIsStickyIffUniqueTop`, `Routing.TiedHashesDisagree`).
- The two failover loops differ on a 402 whose body cannot be read: one answers 502, the other moves on
  (`Failover.LoopsAgreeUnlessUnreadable402`).
- Changing the password re-encrypts keys, proxy URLs and client keys but not cookies, so accounts imported from a cookie
  can no longer be queried afterwards (the if-and-only-if clause of `Vault.Vault.ChangePassword`, and the run
  `Vault.CookieIsLost`). That clause takes as an idealisation that what one key opens no other key opens
  (`Vault.OneKeyOpens`); AES-GCM makes a second key improbable and does not exclude it.
- The Anthropic rewriter replaces usage reports where the pass-through scanner merges them
  (`AnthropicStream.ReplacingEqualsMergingIff`, `AnthropicStream.SplitReportLosesPrompt`), finalises the log row only when the consumer polls past the last delta, and
  ignores data lines without a space after the colon (`EventLines.ScannersAgreeIff`, `EventLines.UnspacedLineIsMissed`).
- A proxy user name without a password is sent as an empty field, which section 2 of RFC 1929 does not allow
  (`Socks5.AuthReadsBackIff`, `Socks5.EmptyPasswordIsAccepted`).
- Hosts without a colon that start with a bracket, and hosts with a colon that contain `]:`, do not survive printing and parsing
  (`Authority.RoundTripIff` says exactly which do, `Authority.ReceivedHostIsLost` gives one that a client can send).

## Model

| member | source | states |
|---|---|---|
| `Sequences.StableSortIsUnique` | src/routes/proxy.rs:584 | nothing rests on how the sort is done: a descending arrangement that keeps equal keys in input order is unique |
| `Sequences.SortIsStable` | src/routes/proxy.rs:584 | the sort used throughout is descending and keeps equal keys in input order |
| `Sequences.FilterSort` | src/routes/proxy.rs:580-584 | a stable descending sort commutes with every filter |
| `Accounts.WindowsOutrankBilling` | src/models.rs:200-219 | one exhausted window blocks the account, and billing figures matter only when no window is reported |
| `Routing.CandidatesAreExactlyEligible` | src/routes/proxy.rs:514-605 | the candidates are exactly the enabled, unmarked accounts that advertise the model (or all, when no enabled account does), each once, in descending hash order; 400 only if nothing is enabled, 503 only if something is enabled and nothing eligible |
| `Routing.TiesGoNewestFirst` | src/routes/proxy.rs:584 | accounts whose hashes collide are tried newest first, because the listing is by descending creation time and the sort is stable |
| `Routing.RequeryIsSuffix` | src/routes/proxy.rs:514-531 | after the first i candidates of a snapshot are marked, at any times, the routing query returns exactly the rest of the snapshot, or the 503 when none is left |
| `Routing.RetriesFollowSuccessiveRequests` | src/routes/proxy.rs:121-122 | the accounts tried inside one request are those that successive requests of the session would try, in the same order |
| `Routing.MarksOnlyRemove` | src/routes/proxy.rs:576-586 | marking accounts takes them out of a pool's order and moves no other |
| `Routing.RemovalKeepsOrder` | src/routes/proxy.rs:576-586 | removing accounts from a pool leaves the relative order of all others unchanged |
| `Routing.AdditionMovesOnlyToNewcomer` | src/routes/proxy.rs:560-562 | adding an account anywhere in the pool changes a session's first choice only to the new account |
| `Routing.OrderIgnoresInputOrder` | src/routes/proxy.rs:560-562 | for pairwise distinct hashes the order does not depend on the order of the database rows |
| `Routing.HeadIsStickyIffUniqueTop` | src/routes/proxy.rs:564-586 | the first candidate is `select_sticky_account`'s choice if and only if a single account attains the largest hash |
| `Routing.TiedHashesDisagree` | src/routes/proxy.rs:564-586 | two accounts with equal hashes: the sort picks the first, `max_by_key` the last |
| `Failover.QuotaErrorIsFieldwise` | src/routes/proxy.rs:626-648 | a quota error is a 402, or another 4xx one of whose message, type and code fields names a keyword; joining the fields first makes no match that spans two of them |
| `Failover.OnlyQuotaErrorsMoveOn` | src/routes/proxy.rs:122-315 | the loop of `proxy_inner` moves on only after a readable 4xx quota error, and the only exit that writes no log row is a bad header |
| `Failover.LoopsAgreeUnlessUnreadable402` | src/routes/messages.rs:84-241 | on the same exchange the two loops decide alike about moving on, except exactly for a 402 whose body cannot be read |
| `Failover.Gateway.TryInOrder` | src/routes/proxy.rs:121-338 | for every upstream: with k leading quota errors, exactly the first k accounts are marked, the reply is that of attempt k or else the last quota response, and the log grows by the attempts' rows; the final `expect` cannot fail |
| `Failover.Gateway.ProxyInner` | src/routes/proxy.rs:91-338 | the whole of routing and retrying for a proxied request: the closed form, a reply that is the upstream's own or a failure that is a local error or a 502, and refusals of routing logged with nothing marked |
| `Failover.Gateway.TryInOrderForMessages` | src/routes/messages.rs:83-263 | the second loop refines the same closed form |
| `Failover.Gateway.MessagesInner` | src/routes/messages.rs:70-263 | the whole of routing and retrying for a converted Messages request, with the same said of its reply |
| `Failover.Gateway.TryAccount` | src/routes/proxy.rs:123-315 | one turn of the first loop: what it writes to the two tables and how it decides |
| `Failover.Gateway.TryAccountForMessages` | src/routes/messages.rs:85-240 | one turn of the second loop |
| `Failover.LeadingQuota` | src/routes/proxy.rs:266-292 | how many attempts are quota errors before the first that settles the request |
| `Failover.RowsPerRequest` | src/routes/proxy.rs:317-336 | one log row for each attempt that is logged, and one more exactly when every candidate is exhausted |
| `Failover.RoutingAfterRequest` | src/routes/proxy.rs:266-292 | when the marks of a request were saved, routing asked again returns exactly the accounts it had not found exhausted, in the order it was going to try them |
| `Failover.ProxyTurn` | src/routes/proxy.rs:123-315 | one turn told from the exchange alone: every answer is passed on and logged under its own status, account and model; only a failure to get an answer is the gateway's own, the local error or a 502 |
| `Failover.RepliesAreTransparent` | src/routes/proxy.rs:121-338 | a whole request: the reply is what the upstream answered to the attempt that settled it, and the log tells attempt by attempt whom was asked and what was answered |
| `Failover.LoggedUsage` | src/routes/proxy.rs:233-264 | a buffered success is logged with the usage its body reports, anything else without |
| `Failover.LoggedError` | src/routes/proxy.rs:294-313 | a refusal is logged with the upstream's own message, cut at 500 characters |
| `Failover.LoggedMessagesError` | src/routes/messages.rs:170-192 | the second loop logs the same, and the status as text when the body is no JSON |
| `Failover.QuotaOfErrorBody` | src/routes/proxy.rs:609-648 | on error bodies as upstreams build them: a quota error is a keyword under message, type or code and nowhere else |
| `Failover.MessagesTurn` | src/routes/messages.rs:85-240 | one turn of the second loop told from the exchange alone |
| `Failover.MessagesRepliesAreFaithful` | src/routes/messages.rs:83-263 | a whole request of the second loop: the upstream's refusal unchanged, a stream as 200, a success converted, every other failure a local one, a conversion's or a 502 |
| `Failover.RoutingRefuses` | src/routes/proxy.rs:519-529 | refused before any attempt: 400 when no account is enabled, 503 when some are, logged once under that status |
| `QuotaLifecycle.QuotaStep` | src/db.rs:759-775 | one event: a clear empties the mark, a mark fills it only if it is empty, anything else keeps it |
| `QuotaLifecycle.MarkIsFirstSinceLastClear` | src/db.rs:759-775 | after any run of failures, refreshes, edits, imports, toggles and deletes the mark is the time of the first mark since the last clear |
| `QuotaLifecycle.TouchedQuota` | src/routes/keys.rs:156-188 | only a refresh reporting capacity or a non-blank replacement key clears a mark |
| `QuotaLifecycle.RefreshedColumns` | src/account_monitor.rs:57-66 | the row after a usage query: the report stored, the account type after the plan's name, the mark set by a report of windows, billing or balance without capacity, kept when it says nothing, cleared otherwise |
| `QuotaLifecycle.MonitorRestoresIff` | src/account_monitor.rs:27-36 | the monitor touches only enabled, marked accounts with cookie and workspace, and restores one exactly when it is reported to have capacity |
| `GatewayHistory.DisabledIsNotRouted` | src/db.rs:677-688 | a disabled account is a candidate of no request |
| `GatewayHistory.EnabledIsRouted` | src/db.rs:677-688 | an enabled, unmarked account is a candidate of every request for a model it advertises |
| `GatewayHistory.CachedModelsAreRouted` | src/db.rs:704-716 | a refreshed model list is what routing goes by |
| `QuotaLifecycle.EventOnPresentRow` | src/db.rs:571-775 | an event finds its account and touches it, leaves it or deletes it; no other account is looked up differently |
| `QuotaLifecycle.EventOnAbsentRow` | src/db.rs:571-599 | only a creation brings an account in; it comes in unmarked, and without a cookie unless it was imported from one |
| `QuotaLifecycle.CookieLasts` | src/db.rs:601-642 | an account's cookie and workspace, or their absence, last as long as the account |
| `QuotaLifecycle.OnlyKeyUpdateRestores` | src/routes/keys.rs:186-188 | a marked account without a cookie returns to routing only by a replaced API key |
| `QuotaLifecycle.ReachableIdsAreUnique` | src/migration/mod.rs:17 | ids are unique in every reachable table |
| `GatewayHistory.RequestExtendsRun` | src/routes/proxy.rs:266-272 | a request served on a table that a run of events led to leaves the table of a longer run: one quota failure for each mark saved, in the order of the attempts |
| `GatewayHistory.MarksAfterRequest` | src/db.rs:759-775 | so the lifecycle theorem holds of the marks the gateway itself leaves |
| `QuotaLifecycle.AfterLast` | src/db.rs:768-772 | the position just after the last clear of a run |
| `QuotaLifecycle.FirstFrom` | src/db.rs:762-767 | the first mark from a position on, COALESCE over a run |
| `AccountStore.Store.RefreshAccountUsage` | src/account_monitor.rs:46-68 | three updates in a row amount to one refresh of one row; a failure on the way writes nothing |
| `AccountStore.Store.RefreshExhaustedAccounts` | src/account_monitor.rs:25-44 | the monitor's loop over a snapshot is one tick applied to every monitored row at once; one failing query does not stop the others |
| `AccountStore.TickOneMore` | src/account_monitor.rs:27-42 | refreshing one more row of the snapshot extends the tick by exactly that row |
| `AccountStore.AdminRefreshIsUpdate` | src/routes/keys.rs:256-267 | the admin usage call changes the named account and no other |
| `AccountStore.Store.Usage` | src/routes/keys.rs:256-267 | the admin usage call is one event, and finds an account exactly when the id exists |
| `AccountStore.Store.Update` | src/routes/keys.rs:134-188 | an account edit and the clearing after it are one event, every column of the row stated; not found and conflict exactly when the id is missing or the name is another account's |
| `Usages.MergeKeepsLastReported` | src/routes/logs.rs:191-200 | folding `merge` over any reports gives, field by field, the last reported value |
| `Usages.ReportRead` | src/routes/logs.rs:202-249 | the four columns of every report: which of several names counts, and the Anthropic prompt as input, reads and writes together |
| `Usages.ChatReport` | src/routes/logs.rs:215-243 | a chat completion with cached tokens among the prompt's details |
| `Usages.ResponseReport` | src/routes/logs.rs:209-243 | a response object with cached tokens among the input's details |
| `Usages.CacheHitReport` | src/routes/logs.rs:236-240 | an upstream that counts cache hits next to the prompt |
| `Usages.AnthropicReport` | src/routes/logs.rs:203-214 | an Anthropic message: the prompt is input plus cache reads plus cache writes |
| `Usages.LastReported` | src/routes/logs.rs:191-200 | the value of the last report that has the field |
| `ChatChunks.OutputOfChunk` | src/routes/logs.rs:353-367 | a built chunk counts as output exactly when it carries text, reasoning under either name, or tool calls |
| `EventLines.LinesAndRest` | src/routes/logs.rs:297-299 | complete lines and unfinished rest cut a text at its newlines and lose nothing |
| `EventLines.LinesAppend` | src/routes/logs.rs:296-299 | feeding a text in two parts, the unfinished line carried over, is feeding it whole |
| `EventLines.ScannersAgreeIff` | src/routes/messages.rs:383-385 | the two scanners extract the same values from a stream if and only if no line carries a JSON payload that does not follow a space, or that follows white space JSON does not know; readers are asked only to treat leading white space as JSON does |
| `EventLines.MissedValuesAreFewer` | src/routes/logs.rs:300-302 | whatever the stream, each missed line is a value the rewriting scanner loses; all other values agree |
| `EventLines.SpacedStreamsAgree` | src/routes/messages.rs:383-385 | in particular they agree on every stream whose data lines have a space after the colon |
| `EventLines.UnspacedLineIsMissed` | src/routes/logs.rs:300-302 | without the space, which section 9.2 of the WHATWG HTML standard makes optional, a line is missed: the inputs that show the failure |
| `EventLines.ScanInvertsPrint` | src/routes/messages.rs:423-425 | scanning any printed events returns exactly their payloads in order, under both scanners, provided the JSON printer and reader get those payloads right |
| `EventLines.ScanInvertsData` | src/routes/logs.rs:297-302 | scanning a data-only stream with its end marker returns exactly its values, under both scanners |
| `EventLines.CarriageReturnIsIgnored` | src/routes/logs.rs:298 | lines that end in CR LF read like lines that end in LF |
| `UsageCapture.ChunkingIsInvisible` | src/routes/logs.rs:296-316 | any two ways of cutting a text into chunks end with the same usage, the same line as first output and the same unfinished line, which holds no newline |
| `UsageCapture.CutsAreInvisible` | src/routes/logs.rs:293-318 | any two streams of which the same bytes arrived, cut anywhere between characters, end with the same scan |
| `UsageCapture.ScannedUsage` | src/routes/logs.rs:308-314 | the scanned usage is, field by field, the last value reported in the complete data lines |
| `UsageCapture.ScannedFirstOutput` | src/routes/logs.rs:304-307 | the line that fixes the first-token time is the first complete line that carries output |
| `UsageCapture.CapturedStream.ScanBuffer` | src/routes/logs.rs:296-316 | the inner loop takes every complete line off the buffer and leaves the unfinished one |
| `UsageCapture.CapturedStream.Poll` | src/routes/logs.rs:293-324 | each poll yields the next chunk exactly as it came, or waits; in every reachable state the fields are the scan of the chunks pulled so far, and an ended stream writes nothing more |
| `UsageCapture.CapturedStream.Drop` | src/routes/logs.rs:336-350 | dropped after any prefix, a polled stream has written its row exactly once, an unpolled one never |
| `UsageCapture.CapturedStream.Finalize` | src/db.rs:880-911 | the row gets the scanned usage, each column keeping its value where nothing was reported |
| `UsageCapture.CaptureOneLine` | src/routes/logs.rs:293-350 | a captured stream of one data line, from its bytes to each column of the row |
| `UsageCapture.CaptureChatReport` | src/routes/logs.rs:215-243 | the row that a chat completion's report leaves |
| `UsageCapture.CaptureAnthropicReport` | src/routes/logs.rs:203-214 | the row that an Anthropic report leaves |
| `AnthropicStream.AlwaysWellFormed` | src/routes/messages.rs:369-411 | the full output is accepted by the event grammar, and no prefix of it has gone wrong |
| `AnthropicStream.TextIsConserved` | src/routes/messages.rs:387-391 | the delta texts concatenate to the upstream's content |
| `AnthropicStream.StopReasonIsLast` | src/routes/messages.rs:393-395 | the stop reason follows the last finish reason |
| `AnthropicStream.StopReasonByDefault` | src/routes/messages.rs:374 | without a finish reason the stop reason is end_turn |
| `AnthropicStream.Generator.StreamResponse` | src/routes/messages.rs:361-411 | for every chunk sequence and every number of polls, the output is that prefix of the full output for the complete data lines before the first error; the log row is finalised exactly when the consumer polls past the last delta |
| `AnthropicStream.ChatStreamIsRewritten` | src/routes/messages.rs:380-396 | a stream of chunks as an upstream builds and prints them becomes a message with exactly their content, and max_tokens exactly when the last finish reason is length |
| `AnthropicStream.RewriteChatStream` | src/routes/messages.rs:361-411 | the same of the generator, from bytes to a complete message and the columns of the log row |
| `AnthropicStream.FirstTextDelta` | src/routes/messages.rs:388-390 | the first delta with text fixes the first-token time |
| `AnthropicStream.SameBytesSameEvents` | src/routes/messages.rs:377-397 | upstreams that send the same bytes before they fail or end, cut anywhere between characters, are rewritten into the same events |
| `AnthropicStream.Generator.TakeLines` | src/routes/messages.rs:380-396 | the inner loop turns the buffered lines into events and stops where the consumer does |
| `AnthropicStream.LastUsageIsLastReport` | src/routes/messages.rs:386 | here a later usage report replaces the earlier ones |
| `AnthropicStream.ReplacingEqualsMergingIff` | src/routes/messages.rs:386 | replacing records what merging would if and only if the last report repeats every field reported before |
| `AnthropicStream.SplitReportLosesPrompt` | src/routes/messages.rs:386 | a stream with a report split over two events, of which the first is lost |
| `Conversion.TextIsJoinedLeaves` | src/routes/messages.rs:306-329 | however deeply content is nested, its text is its leaf texts in order joined by newlines |
| `Conversion.TextOfBlocks` | src/routes/messages.rs:306-329 | content as clients build it, nested tool results and all, gives the texts a reader sees, line by line |
| `Conversion.FlattenedMessage` | src/routes/messages.rs:276-279 | a built message keeps its role and the text of its blocks |
| `Conversion.FlattenedText` | src/routes/messages.rs:276-279 | plain string content is kept, and a message without a role is the user's |
| `Conversion.ToOpenAiRequest` | src/routes/messages.rs:266-304 | messages keep their number, order and roles, the system prompt goes in front, and the only failure is a missing message array |
| `Authority.RoundTripIff` | src/proxy_bridge.rs:492-532 | printing and parsing gives the pair back if and only if the host is printable, for every port and default |
| `Authority.ReceivedHostIsLost` | src/proxy_bridge.rs:505-531 | a host a client can send that does not survive: the failing input |
| `Authority.BracketlessIsPrintable` | src/proxy_bridge.rs:526-532 | every non-empty host without brackets is printable, colons included |
| `Authority.ReparseIsStable` | src/proxy_bridge.rs:492-532 | a successful parse, printed and parsed again, is the same pair |
| `Authority.DefaultPort` | src/proxy_bridge.rs:517-523 | a host without a port gets the default one |
| `Authority.PortLimits` | src/proxy_bridge.rs:506-508 | ports end at 65535 and may carry a plus sign |
| `Wires.ReadHttpHead` | src/proxy_bridge.rs:452-482 | for every cutting of the stream: it succeeds exactly when the first blank line ends within 65536 bytes, head and rest together are what was read, and at most 69632 bytes are read |
| `Wires.HeadEndOfPrefix` | src/proxy_bridge.rs:464 | a blank line found in what was read so far is the first of the whole stream, and none is missed |
| `Wires.HeadEndsAtBlankLine` | src/proxy_bridge.rs:464-465 | the head ends with the first CR LF CR LF |
| `Wires.OutcomeIgnoresCuts` | src/proxy_bridge.rs:452-482 | success, the head, and which failure depend on the bytes alone |
| `Socks5.AuthReadsBackIff` | src/proxy_bridge.rs:350-356 | credentials that passed the length checks are read back by a decoder of section 2 of RFC 1929 if and only if neither field is empty |
| `Socks5.GreetingOffers` | src/proxy_bridge.rs:330-334 | a decoder of section 3 of RFC 1928 finds no authentication always offered, and user name and password exactly when there are some |
| `Socks5.EmptyPasswordIsAccepted` | src/proxy_bridge.rs:146-156 | a user name without a password passes the checks and has no encoding in RFC 1929 |
| `Socks5.ConnectReadsBack` | src/proxy_bridge.rs:373-416 | a decoder of sections 4 and 5 of RFC 1928 recovers exactly the host or address and the port; no length is cut short |
| `Socks5.TranscriptReadsBack` | src/proxy_bridge.rs:350-375 | from the bytes sent after the greeting a server recovers the credentials and then the target, with nothing left over |
| `Socks5.ReplyEndsAfterPort` | src/proxy_bridge.rs:376-384 | the reply ends where a standard decoder of its address and port ends |
| `Socks5.GrantedIff` | src/proxy_bridge.rs:335-384 | on what a server says, built from the standards: granted if and only if it takes no authentication or accepts the credentials, and replies 0 |
| `Socks5.ConsumeAddress` | src/proxy_bridge.rs:431-450 | exactly the bound address and port are consumed |
| `Socks5.Negotiate` | src/proxy_bridge.rs:330-371 | credentials are written only if there are some and the server chose method 2; success means an accepted method |
| `Socks5.Request` | src/proxy_bridge.rs:373-384 | success means a granting reply, read to its last byte |
| `Socks5.OpenTunnel` | src/proxy_bridge.rs:321-386 | it succeeds if and only if the server grants the connection and the target can be named, and then has read up to the first byte of the tunnel |
| `Tunnel.OpenHttpTunnel` | src/proxy_bridge.rs:294-318 | on success not a byte of the tunnel was read; it fails only on a refusal or on tunnel bytes read along with the reply |
| `Tunnel.HandleClient` | src/proxy_bridge.rs:170-220 | byte conservation: the upstream receives its handshake and then exactly the client's stream after the head, the client the 200 line and then exactly what follows the handshake reply; a proxy that answers anything but 200 gets no tunnel; without a tunnel nothing crosses and the client is told why |
| `Tunnel.GrantIff200` | src/proxy_bridge.rs:484-490 | on a reply head of version, code and reason: the connection is granted if and only if the code is 200 |
| `Tunnel.AskedIsTarget` | src/proxy_bridge.rs:172-189 | on a request head of method, target and version: a CONNECT asks for its target, any other method is refused |
| `Tunnel.AskedIsWhatWasMeant` | src/proxy_bridge.rs:189 | a client that writes a printable host and a port asks for that pair |
| `Tunnel.EstablishedSays200` | src/proxy_bridge.rs:213-215 | the first of three answers carries 200 |
| `Tunnel.NotAllowedSays405` | src/proxy_bridge.rs:180-187 | the second carries 405 |
| `Tunnel.BadGatewaySays502` | src/proxy_bridge.rs:197-202 | the third carries 502 |
| `ConnectHead.ConnectReadsBack` | src/proxy_bridge.rs:286-304 | a reader of HTTP heads recovers authority, host and credentials from the CONNECT that is sent, and the tunnel's bytes after it |
| `ConnectHead.HttpHandshakeReadsBack` | src/proxy_bridge.rs:263-304 | an HTTP proxy reads the host and port as the client named them, and the credentials |
| `ConnectHead.SocksHandshakeReadsBack` | src/proxy_bridge.rs:330-416 | a SOCKS5 proxy reads the methods, the literal, remote or looked-up address in that order of preference, and the port |
| `Socks5.ChooseAddress` | src/proxy_bridge.rs:394-413 | a literal address as it is, else the name for the proxy up to 255 octets, else the address looked up |
| `Socks5.CheckCredentials` | src/proxy_bridge.rs:150-154 | refused exactly when a field does not fit a one-octet length |
| `Tunnel.AskedHostIsOneWord` | src/proxy_bridge.rs:177-190 | the host written into the upstream's CONNECT head has no white space |
| `Vault.ReencryptColumn` | src/db.rs:790-830 | one column: succeeds if and only if every value decrypts, keeps every plaintext under the new key, counts the values |
| `Vault.Vault.ReencryptAll` | src/db.rs:777-833 | succeeds if and only if everything decrypts; then every plaintext is kept, only the three columns change and the count is their number; otherwise the tables are untouched |
| `Vault.Vault.Setup` | src/routes/auth.rs:30-47 | keeps the vault invariant, leaves a hash that accepts the password just set, and is refused after the first time |
| `Vault.Vault.Login` | src/routes/auth.rs:49-65 | keeps the vault invariant, and a key already in memory does not change |
| `Vault.Vault.ChangePassword` | src/routes/auth.rs:85-112 | keeps the vault invariant and every plaintext, under a key the new password derives; if one key opens each text and all cookies could be read before, they can be read afterwards if and only if there are none, or the derived key is the same; the if holds without that assumption |
| `Vault.Vault.Restart` | src/state.rs:33-59 | a restart finds the key that was in memory |
| `Vault.Vault.EncryptSecret` | src/state.rs:117-125 | what is stored decrypts under the key at hand |
| `Vault.Vault.InsertAccount` | src/db.rs:571-599 | keeps the invariant; key and cookie decrypt to what was given; refused exactly without a key or when id or name is taken |
| `Vault.Vault.InsertProxy` | src/db.rs:473-481 | keeps the invariant; the URL decrypts to what was given; refused exactly without a key or when id or name is taken |
| `Vault.Vault.InsertClientKey` | src/db.rs:354-371 | keeps the invariant; the secret decrypts to what was given; refused exactly without a key or when id, name or hash is taken |
| `Vault.Vault.Rekey` | src/routes/auth.rs:98-111 | re-encryption, then hash, stored key and key in memory: the whole new state, cookies untouched |
| `Vault.CookieIsLost` | src/db.rs:784-830 | a run of the vault that loses a cookie: set-up, an account imported from a cookie, a password change; the API key is still there, the cookie cannot be read |
| `Sessions.PurgingIsInvisibleIff` | src/db.rs:240-283 | whatever the clocks, every operation of a run is answered as by a map that never purges if and only if none asks about a session at a time before the expiry at which an earlier one purged it |
| `Sessions.PurgingIsInvisible` | src/db.rs:240-283 | so with a clock that does not go back every run is answered as by the map that never purges |
| `Sessions.MonotoneNeverRevives` | src/db.rs:247-273 | a clock that does not go back never asks about a purged session at a time when it was alive |
| `Sessions.ClockMustNotGoBack` | src/db.rs:248-251 | a concrete run with a clock that goes back, in which a purged session is missed |
| `Sessions.SessionStore.InsertSession` | src/db.rs:240-258 | in terms of the sessions inserted and not logged out: refused exactly when the hash is alive, otherwise added, purge or no purge |
| `Sessions.SessionStore.AuthenticateSession` | src/db.rs:260-274 | true if and only if the hash was inserted, was not logged out and expires later than now; no session is forgotten by it |
| `Sessions.SessionStore.DeleteSession` | src/db.rs:276-283 | that session is logged out, and no other |
| `Backup.ProxyNamed` | src/db.rs:453-471 | the first proxy of a name, letter case aside |
| `Backup.JoinedName` | src/db.rs:526-530 | the proxy name a left join finds |
| `Backup.ExportIsComplete` | src/routes/import_export.rs:14-42 | an export lists every account and every proxy exactly once |
| `Backup.ImportShows` | src/routes/import_export.rs:68-126 | importing a clean payload into an empty database makes the tables show it row by row, with every item imported and none updated |
| `Backup.ReimportShows` | src/routes/import_export.rs:68-126 | importing what the tables already show updates every account and changes nothing shown |
| `ImportWrites.ImportWritesPayload` | src/routes/import_export.rs:71-124 | into clean tables, whatever they hold: every proxy and item of a clean payload is there afterwards with all its fields, rows it does not name are as they were, none is lost, and imported is the number of new rows |
| `Backup.BackupRestores` | src/routes/import_export.rs:14-126 | export, then import under any other vault key, restores every account and proxy with imported equal to the number of accounts; a second import changes nothing and updates as many |
| `Backup.EveryNamedItemIsCounted` | src/routes/import_export.rs:91-124 | whatever the tables hold, imported plus updated is the number of items with a name |
| `Backup.LinkJoinsBack` | src/routes/import_export.rs:95-100 | linking an item to its proxy by name and joining back by id names the same proxy |
| `Text.SameLowerIff` | src/db.rs:457 | two names are one, letter case aside, exactly when they have one length and differ in the case of ASCII letters only |
| `Text.TrimCuts` | src/routes/import_export.rs:73-74 | trimming takes off white space at both ends and nothing else |
| `Administration.RestoresIff` | src/routes/import_export.rs:14-126 | a backup whose secrets open restores its tables if and only if names and URLs are trimmed and names differ in more than letter case |
| `Administration.ResolveProxy` | src/routes/keys.rs:518-529 | a link is given only to a proxy that exists, and refused exactly when a non-blank id names none |
| `Administration.EditedAccount` | src/routes/keys.rs:134-188 | an accepted edit leaves the account as it was typed in, column by column |
| `Administration.CookieAccount` | src/routes/keys.rs:208-250 | an import from a cookie adds one enabled account with that key, cookie, workspace, proxy and name |
| `Administration.LastFour` | src/routes/keys.rs:84-91 | the last four characters of a key, or all of it |
| `Administration.EventKeepsTags` | src/migration/mod.rs:33 | no event makes two account names equal, letter case aside |
| `Administration.DeleteProxyKeepsClean` | src/db.rs:504-514 | deleting a proxy leaves no dangling link |
| `Administration.ImportKeepsClean` | src/routes/import_export.rs:68-126 | whatever the payload holds, an import leaves names, secrets and links in order |
| `Administration.HandlerKeepsClean` | src/routes/keys.rs:71-250 | every handler, as one step, keeps names, secrets and links in order |
| `Administration.RekeyedShowsTheSame` | src/db.rs:777-833 | what a backup shows does not depend on the key the secrets are under |
| `Administration.VaultRekeys` | src/db.rs:777-833 | a password change as the vault does it leaves clean tables clean and shows the same in a backup |
| `Administration.EveryRunStaysClean` | src/routes/proxies.rs:43-119 | so does every run of handlers, password changes, quota failures and refreshes from a new installation |
| `Administration.EveryBackupRestores` | src/routes/import_export.rs:14-126 | a backup taken after any such run restores, whatever passwords were set meanwhile |
| `Database.Database.Export` | src/routes/import_export.rs:14-42 | the export loops return everything, or fail exactly when one secret does not open |
| `Database.Database.Import` | src/routes/import_export.rs:44-127 | the import loops, for both shapes of the body, do exactly what the round-trip theorems are about |
| `Database.Database.DeleteProxy` | src/db.rs:504-514 | no account stays linked to the proxy, every other row and proxy is as it was, clean tables stay clean, and it says whether there was one |
| `Database.Database.CreateProxy` | src/routes/proxies.rs:43-71 | one row more, or each refusal in its order with nothing written |
| `Database.Database.UpdateProxy` | src/routes/proxies.rs:73-107 | that proxy has the name and URL given, all else is as it was; each refusal in its order |
| `Database.Database.CreateKey` | src/routes/keys.rs:71-119 | one row more under the free name, or each refusal in its order with nothing written; a taken suffixed name is a conflict |

## Left out

- Authentication of clients and administrators, model allowlists and disabled models: checks made before routing.
- Forwarding of headers and bodies, `include_stream_usage` and the choice of a native endpoint: they do not affect who is tried.
- Client identity and latencies in log rows, and failures to insert a log row, which the code ignores.
- Failover.IsQuotaError: lower-cases ASCII letters only; the other characters that Unicode lower-cases to ASCII letters are the Kelvin sign (to k) and the dotted capital I (to i and a combining dot), and no keyword contains a k or ends in i, so the answers are the same.
- Usages.UsageFromJson: adds token counts as unbounded integers; the source's 64-bit sum could overflow.
- Wires.ReadHttpHead: read errors other than the end of the stream are not modelled; writes always succeed.
- Tunnel.HandleClient: the 20 second limit and its 504 answer, TLS, and name resolution of the proxy itself are not part of this model.
- Socks5.CheckCredentials: percent-decoding of the proxy URL and the refusal of control characters are not part of this model.
- UsageCapture.CutsAreInvisible: a chunk boundary inside a UTF-8 character changes the decoded text and is excluded.
- Routing.CandidatesForModel: rows created in the same second are taken in rowid order, where SQLite promises no order.
- QuotaLifecycle.Apply: each handler is one step, so writes of two requests interleaved inside a handler are not modelled; a conflict found by the unique index is the same refusal as one found by the earlier name check.
- Backup.Reliable: asks that UUIDs never repeat; an import whose insertion the primary key refuses leaves the tables as they are but is counted, where the source stops with an error.
- Backup.Import: a failing statement in the middle of an import, which leaves the earlier rows written, is not modelled.
- Administration.Handle: building a client for a proxy URL is a flag of the change, and what the account pages show for a cookie is a parameter.
- Vault.Vault.Valid: leaves the cookie column out of its conclusion on purpose, since re-encryption does not rewrite it; `CookiesDecrypt` speaks of it.
- Sessions.SessionStore.InsertSession: the row's own id, a fresh UUID, is not modelled.
- `to_anthropic_response` is a parameter of the second loop; its mapping of one response body is a lookup.
- The columns `base_url`, `is_default` and `last_used_at`, which no property depends on.
- The Argon2, AES-GCM, SHA-256 and base64 primitives, and the random generator.
- Scraping of account pages, browser login, invite rewards, the web interface, migrations and log statistics.
