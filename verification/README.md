# ESP-Mesh-Lite: a verified model of its stateful cores

ESP-Mesh-Lite connects Wi-Fi devices in a tree below a router. The mesh core is a closed
library; around it the repository keeps a handful of stateful C modules that are shared
between tasks, timers and the radio. This project models those modules in Dafny 4.11 and
proves what they keep on every run.

| file | models |
|---|---|
| Lists.dfy | sequence vocabulary, and the singly linked list that four C files walk, update and unlink in place |
| NodeTable.dfy | the node table: a list with times to live, updated by reports and replaced by snapshots |
| SoftState.dfy | the same list at the root, as a map with time stamps |
| Replication.dfy | snapshots travelling down a tree, over a radio that loses and reorders, and over lossless links |
| GroupControl.dfy | one node of the group-control flood: numbering, reset, one-second debounce |
| Flood.dfy | the flood over a whole network: at most once, agreement, termination |
| Lifecycle.dfy | the provisioning manager's start and stop paths, under every interleaving of threads |
| ScanRanking.dfy | the ranking of access points and its backward in-place merge |
| WifiScan.dfy | the grouped scan that owns 14 record arrays and the ranking of pointers into them |
| ScanPages.dfy | reading the ranking page by page through 16-bit counters |
| ConfigFlow.dfy | credentials from the set command to the driver |
| EspNow.dfy | receive callbacks, framing, and the segmented checksum |
| ZeroProv.dfy | the BROADCAST, INFO, CONFIRM, ACK handshake between any number of devices |
| ChildMirror.dfy | the root's child list and the bridge's copy of it, joined only by an event queue |
| Sessions.dfy | the manager's lifecycle, seen from outside, is a run of the credentials' state machine |
| CStrings.dfy | C strings in zeroed buffers |
| ProvState.dfy | the manager's states, shared by the lifecycle and the credentials |
| Words.dfy | 8-, 16- and 32-bit words |

The form follows the C code: objects whose fields the code changes are classes
(`NodeTable`, `GroupControl`, `Scanner`, `Provisioner`, `Radio`, `Endpoint`, `Bridge`, over
the linked `List`), the merge works in place on an array, and each such method is proved
equal to a function of the old state. What the repository promises is then proved about
those functions: over one call, over every run, or over a whole network as a step relation.
The manager's lifecycle is a step relation throughout, because what matters there is how
threads interleave: one action is what a thread does while it holds the lock, and the two
stretches that run without it advance one resource operation at a time.

Where a promise does not hold of the code, the exact condition is proved instead:

- a snapshot replaces the table exactly when the report interval is positive or it names no
  address (`NodeTables.SnapshotReplaces`);
- with resets in play a packet can be accepted twice (`GroupControls.AcceptedTwice` gives a
  run); `GroupControls.AcceptedAgainIff` says exactly when, on every run;
- the scan-result command answers with the page asked for unless the low 16 bits of a start
  index of 65536 or more fall inside the ranking (`ScanPages.RightPage`, with a concrete
  request in `ScanPages.StartWraps`);
- a zero-provisioning frame arrives as it was built exactly when its length fits the 8-bit
  length field and the ESP-NOW limit (`EspNow.RoundTrip`);
- the clean-up after a scan-result response ends exactly when fewer than 65536 entries were
  asked for (`ScanPages.CleanupEndsIff`, with a request in `ScanPages.CleanupRunsOn`);
- a reprovision does not look at the manager's state: the lifecycle is safe, whatever comes
  next, exactly when it comes while the service runs (`Lifecycle.NextIsSafeIff`);
  `Lifecycle.ReprovisionDuringStop` gives a run on which two teardowns overlap. The other
  lifecycle results are about the runs that meet this condition;
- `wifi_provisioning/manager.h` says that each event is signalled once only, and in order of
  declaration. `ConfigFlow.SignalledTwice` gives a run on which a failure is signalled twice,
  and one on which it is signalled after success. `ConfigFlow.OnceIff` says exactly on which
  runs an event is signalled at most once, where a failure or a success is triggered exactly
  inside the window of an accepted apply (`ConfigFlow.WindowIsOpen`). `ConfigFlow.InOrderIff`
  says exactly on which runs the events are in order: those on which no apply succeeds, as
  custom data is declared after the credentials and signalled before them
  (`ConfigFlow.AcceptedDisorders`), and no start follows custom data or an end.

## Model

| member | source | states |
|---|---|---|
| LinkedLists.List.PushFront | components/mesh_lite/src/esp_mesh_lite.c:107-130 | a new cell becomes the head; the list stays acyclic and holds the new value in front of the old ones |
| LinkedLists.List.UpdateFirst | components/mesh_lite/src/esp_mesh_lite.c:88-105 | only the first matching cell changes, in place; its old value is returned |
| LinkedLists.List.RemoveFirst | components/mesh_lite/src/esp_mesh_lite_espnow.c:76-98 | exactly the first matching cell is unlinked, at the head or behind another cell |
| LinkedLists.List.Sweep | components/mesh_lite/src/esp_mesh_lite.c:263-287 | one walk unlinks exactly the failing cells and ages the others; the victims come out in list order |
| NodeTables.NodeTable.constructor | components/mesh_lite/src/esp_mesh_lite.c:448-450 | a node starts out knowing only itself, at level 0 without an IP address |
| NodeTables.NodeTable.NodeInfoUpdate | components/mesh_lite/src/esp_mesh_lite.c:85-135 | the table's map gets this one binding; JOIN is posted exactly for a new address, CHANGE exactly for a known one with other information, and a report that changes nothing is answered as a duplicate; nodes_num, the list and the posted events stay in step |
| NodeTables.NodeTable.RootTimer | components/mesh_lite/src/esp_mesh_lite.c:253-289 | at the root, and only with the mutex, expired entries leave with a LEAVE event each and the others age by one |
| NodeTables.NodeTable.Expel | components/mesh_lite/src/esp_mesh_lite.c:196-220 | unlinking keeps joins minus leaves equal to nodes_num, which therefore never underflows |
| NodeTables.NodeTable.ReportInfo | components/mesh_lite/src/esp_mesh_lite.c:41-83 | the root records itself, a node below it sends a report instead, others do neither |
| NodeTables.NodeTable.ReportNodesHandler | components/mesh_lite/src/esp_mesh_lite.c:137-164 | a report is accepted only at the root and only with address, level and IP; a snapshot goes out exactly when what the table says has changed |
| NodeTables.NodeTable.UpdateNodesInfoToChildren | components/mesh_lite/src/esp_mesh_lite.c:291-335 | the snapshot lists every entry in order, and is not sent for an empty table |
| NodeTables.NodeTable.UpdateNodesList | components/mesh_lite/src/esp_mesh_lite.c:166-237 | although the mutex is released between marking, updates and sweep, a non-empty snapshot turns any table into exactly what it says, and is relayed |
| NodeTables.ContentUpdate | components/mesh_lite/src/esp_mesh_lite.c:85-135 | an update of the list is an update of the map it stands for |
| NodeTables.UpdateAllMeaning | components/mesh_lite/src/esp_mesh_lite.c:187-195 | while the loop runs, the entries above the buffer are what the message has said so far, last record of an address first |
| NodeTables.SnapshotMeaning | components/mesh_lite/src/esp_mesh_lite.c:176-221 | mark, update and sweep leave a duplicate-free table equal to the message as a map |
| NodeTables.SnapshotReplaces | components/mesh_lite/src/esp_mesh_lite.c:176-221 | the exact condition for that: a positive report interval, or a message that names no address; with interval 0 the table ends empty |
| NodeTables.RecordsMeaning | components/mesh_lite/src/esp_mesh_lite.c:291-335 | a broadcast snapshot says exactly what its sender's table holds |
| NodeTables.UpdateReplay | components/mesh_lite/src/esp_mesh_lite.c:97-133 | the events an update posts lead a listener from the old table to the new one |
| NodeTables.UpdateAnnounced | components/mesh_lite/src/esp_mesh_lite.c:88-133 | an update is announced exactly when it changes the table's map, by JOIN for a new address and by CHANGE for new information |
| NodeTables.UpdateAllReplay | components/mesh_lite/src/esp_mesh_lite.c:187-195 | so do the events of a whole message, and they count the new entries |
| NodeTables.SweepReplay | components/mesh_lite/src/esp_mesh_lite.c:200-219 | so do the LEAVE events of a sweep, in list order |
| NodeTables.SweepPopulation | components/mesh_lite/src/esp_mesh_lite.c:200-219 | a sweep posts as many LEAVE events as entries disappear |
| NodeTables.SnapshotAnnounces | components/mesh_lite/src/esp_mesh_lite.c:176-221 | a snapshot announces JOIN for exactly the addresses it adds and LEAVE for exactly those it no longer names; each entry it leaves has the full time to live |
| NodeTables.SnapshotQuiet | components/mesh_lite/src/esp_mesh_lite.c:92-99 | a snapshot that says what is known already, of every known address, posts nothing and changes nothing |
| SoftState.Reported | components/mesh_lite/src/esp_mesh_lite.c:253-289 | an entry says what the last report said and has lost one unit of life per sweep since |
| SoftState.SoftStateMap | components/mesh_lite/src/esp_mesh_lite.c:253-289 | over every interleaving of reports and sweeps an address is present, with this information, iff its last report says so and at most interval+buffer sweeps have passed since |
| SoftState.NeverEvicted | components/mesh_lite/src/esp_mesh_lite.c:266-287 | a node that keeps reporting within that gap is never evicted |
| Replication.RunSafe | components/mesh_lite/src/esp_mesh_lite.c:166-237 | on every run with loss, duplication and reordering, everything on the air was broadcast by the root and every table is good |
| Replication.TablesAreSnapshots | components/mesh_lite/src/esp_mesh_lite.c:166-237 | each table in a tree of any depth is its owner's initial entry or exactly the root's table at an earlier broadcast |
| Replication.FifoRunInOrder | components/mesh_lite/src/esp_mesh_lite.c:225-236 | on lossless FIFO links each node has handled a prefix of what its parent sent |
| Replication.AllHandled | components/mesh_lite/src/esp_mesh_lite.c:225-236 | with nothing in flight every node has handled exactly the root's broadcasts, in order |
| Replication.Converged | components/mesh_lite/src/esp_mesh_lite.c:291-335 | then every table equals the root's table at its latest broadcast |
| GroupControls.GroupControl.OnPacket | examples/rainmaker/led_light/components/group_control/app_espnow.c:264-326 | what one received packet does to number, mode and time stamp, and that it is forwarded iff it is accepted |
| GroupControls.GroupControl.Send | examples/rainmaker/led_light/components/group_control/app_espnow.c:133-150 | an originated packet carries the old number plus one, 0 after the greatest 32-bit number and for a reset; two retransmissions are owed |
| GroupControls.GroupControl.OnTimer | examples/rainmaker/led_light/components/group_control/app_espnow.c:105-131 | only the root retransmits, and only as often as is owed |
| GroupControls.ModesApart | examples/rainmaker/led_light/components/group_control/app_espnow.c:274-281 | on every run with a monotone clock, consecutive acceptances in different modes are at least a second apart |
| GroupControls.SecondCounted | examples/rainmaker/led_light/components/group_control/app_espnow.c:274-281 | whatever the clock does, between two such acceptances the node has counted a second |
| GroupControls.ElapsedAcrossWrap | examples/rainmaker/led_light/components/group_control/app_espnow.c:276 | across a restart of the clock at the greatest 64-bit time the elapsed time is computed right |
| GroupControls.SwallowedForgets | examples/rainmaker/led_light/components/group_control/app_espnow.c:274-281 | exactly the packets of the other kind within the second are swallowed, with nothing logged, the number forgotten and mode and time stamp kept; every other control or reset packet is accepted |
| GroupControls.OnlyZeroingLowers | examples/rainmaker/led_light/components/group_control/app_espnow.c:268-284 | a node's number goes down exactly when a packet is swallowed, a reset is received or originated, or the 32-bit number wraps |
| GroupControls.AcceptedAgainIff | examples/rainmaker/led_light/components/group_control/app_espnow.c:268-290 | on every run with a monotone clock, a packet accepted before is accepted again iff in between the number went back to 0 and stayed below it, and no reset was accepted within the second |
| GroupControls.AcceptedTwice | examples/rainmaker/led_light/components/group_control/app_espnow.c:274-281 | a run on which a swallowed reset makes a packet be accepted twice |
| Flood.AtMostOnce | examples/rainmaker/led_light/components/group_control/app_espnow.c:262-294 | without resets, whatever the radio does, accepted numbers strictly increase, so each is forwarded at most once |
| Flood.SendIsNew | examples/rainmaker/led_light/components/group_control/app_espnow.c:61-76 | an originated packet has a number greater than the sender's before, than all it accepted and than its last packet, and is on its way to every neighbour |
| Flood.SentThreeTimes | examples/rainmaker/led_light/components/group_control/app_espnow.c:105-131 | it is transmitted three times, and then no more |
| Flood.NeighbourAccepts | examples/rainmaker/led_light/components/group_control/app_espnow.c:258-294 | a neighbour that was not ahead of the sender accepts it on arrival and forwards it |
| Flood.RunPropagating | examples/rainmaker/led_light/components/group_control/app_espnow.c:258-294 | without loss a neighbour has caught up, or the packet that will make it is in flight |
| Flood.Agreement | examples/rainmaker/led_light/components/group_control/app_espnow.c:258-294 | on a connected graph, with nothing in flight, every node holds the greatest number originated |
| Flood.EverybodyOnce | examples/rainmaker/led_light/components/group_control/app_espnow.c:258-294 | what the flood is for: from an agreed state without loss, a packet that any node originates is accepted by every other node exactly once |
| Flood.Terminates | examples/rainmaker/provisioning_controller/main/app_espnow.c:223-304 | once nobody originates, deliveries, losses and retransmissions are bounded by the acceptances, copies and retransmissions still possible, plus one per duplication |
| Lifecycle.StepInv | components/wifi_provisioning/src/manager.c:726-839 | every action of every thread, a reprovision while the service runs included, keeps the fields, the log of handles and the STARTING and STOPPING ownership in order |
| Lifecycle.NoOverlap | components/wifi_provisioning/src/manager.c:1670-1680 | setup and teardown never overlap, and no cleanup is scheduled or pending meanwhile |
| Lifecycle.HandleDiscipline | components/wifi_provisioning/src/manager.c:576-653 | a handle is used and deleted only after it was made and before it was deleted |
| Lifecycle.NoNullUse | components/wifi_provisioning/src/manager.c:536-573 | nobody, endpoint registration included, works on a field without a handle |
| Lifecycle.UsesTheLiveOne | components/wifi_provisioning/src/manager.c:1052-1130 | on every orderly run, exactly while the service runs, endpoints, credentials and an IP address work on the live handle of their field |
| Lifecycle.DeadForever | components/wifi_provisioning/src/manager.c:576-653 | a deleted handle is never used, deleted or made again |
| Lifecycle.DeletedBeforeNextStart | components/wifi_provisioning/src/manager.c:1834-1853 | when a start is accepted, every handle made before was deleted, exactly once |
| Lifecycle.OneEndPerSession | components/wifi_provisioning/src/manager.c:636-653 | each session that ends emits one END before the next begins |
| Lifecycle.NoneLive | components/wifi_provisioning/src/manager.c:1568-1646 | once deinit has finished no handle is live |
| Lifecycle.AllDeletedAfterDeinit | components/wifi_provisioning/src/manager.c:576-625 | and each one ever made was deleted, exactly once |
| Lifecycle.DeinitFinishes | components/wifi_provisioning/src/manager.c:1568-1646 | a deinit that nobody interferes with gets to its end, with its teardown, and leaves no handle |
| Lifecycle.NextIsSafeIff | components/wifi_provisioning/src/manager.c:1934-1972 | the exact condition: after a reprovision every next action is safe iff the service runs, auto-stop was not disabled or the manager is gone |
| Lifecycle.ReprovisionDuringStop | components/wifi_provisioning/src/manager.c:1972 | a run with one reprovision during a stop on which two teardowns overlap and one works on empty fields |
| Sessions.EveryInterleavingIsARun | components/wifi_provisioning/src/manager.c:726-839 | seen from outside, every orderly interleaving of threads before a deinit is a run of whole calls of the state machine that ConfigFlow's results are about |
| Sessions.StopIsCarriedThrough | components/wifi_provisioning/src/manager.c:827-829 | from every such run a stop, its timer and its event leave no handle and an idle manager that accepts the next start |
| ScanRanking.MergeInPlace | components/wifi_provisioning/src/manager.c:961-980 | the two loops leave the array packed with the merge of the kept old and all new records, NULL behind |
| ScanRanking.MergeBackward | components/wifi_provisioning/src/manager.c:965-975 | the backward pass never overwrites an old entry it still needs; what is left are the first new records |
| ScanRanking.MergedIsRanking | components/wifi_provisioning/src/manager.c:961-980 | for any K, m and n the result has length min(m+n, K), is descending, new before old on ties, and consists of all n new and the first K-n old records in their orders |
| ScanRanking.RankingUnique | components/wifi_provisioning/src/manager.c:961-980 | there is only one such ranking |
| ScanRanking.MergeView | components/wifi_provisioning/src/manager.c:961-980 | merging pointers merges the records they point to |
| ScanRanking.MergeApsKeeps | components/wifi_provisioning/src/manager.c:961-980 | as a multiset the merge is the sum of both lists |
| WifiScans.Scanner.constructor | components/wifi_provisioning/src/manager.c:156-158 | initially there are no arrays and no ranking |
| WifiScans.Scanner.ScanStart | components/wifi_provisioning/src/manager.c:1143-1187 | a scan under way is left alone; otherwise the ranking is emptied and the first channel chosen |
| WifiScans.Scanner.FreeCurrent | components/wifi_provisioning/src/manager.c:912-916 | freeing the current channel's array leaves every ranked entry pointing to the same live record |
| WifiScans.Scanner.Store | components/wifi_provisioning/src/manager.c:940-980 | after the merge the ranking points into the channels handled so far and shows the merged records |
| WifiScans.Scanner.Fetch | components/wifi_provisioning/src/manager.c:918-982 | for every driver answer, failed and empty ones included, what is shown and whether the scan may go on |
| WifiScans.Scanner.ScanDone | components/wifi_provisioning/src/manager.c:901-1015 | a handled scan-done event keeps every ranked entry live and below its array's length, every array owned by one channel, none leaked |
| WifiScans.Scanner.Stop | components/wifi_provisioning/src/manager.c:793-801 | stopping frees every array and empties the ranking |
| WifiScans.Scanner.ResultCount | components/wifi_provisioning/src/manager.c:1242-1249 | the count is the length of what is shown |
| WifiScans.Scanner.Result | components/wifi_provisioning/src/manager.c:1267-1271 | a result is the record shown at that index, NULL behind the end, and never a freed one |
| WifiScans.RunFits | components/wifi_provisioning/src/manager.c:961-980 | on every run at most K records are shown |
| WifiScans.RunSorted | components/wifi_provisioning/src/manager.c:961-980 | on every run on which the driver lists records strongest first, what is shown is sorted |
| WifiScans.ScanEnds | components/wifi_provisioning/src/manager.c:983-1014 | a grouped scan ends after at most 13 handled scan-done events, any other after one |
| WifiScans.EventHandled | components/wifi_provisioning/src/manager.c:918-1009 | after a scan-done event a grouped scan goes on iff the count was read, there were no records or they were fetched, this was not channel 13 and the driver starts again; then the records are in the ranking |
| WifiScans.ScanCarriesOn | components/wifi_provisioning/src/manager.c:988-1009 | a grouped scan started from any idle state asks for channel 1 + n after n good answers, ends after 13, and shows what they said, taken in one after the other |
| WifiScans.NothingLost | components/wifi_provisioning/src/manager.c:961-980 | as long as all answers fit the ranking, it holds every record of every answer exactly as often as it was reported |
| WifiScans.ScanAtOnce | components/wifi_provisioning/src/manager.c:983-988 | a scan of all channels is over with its first answer and shows that answer |
| WifiScans.StoppedStays | components/wifi_provisioning/src/manager.c:793-801 | after a stop nothing is shown or scanned, whatever the driver still reports, until a start the driver accepts |
| ScanPages.ScanResultHandler | components/wifi_provisioning/src/wifi_scan.c:107-179 | for every 32-bit start and count the loop ends and the response is the page at the truncated start, successful iff it lies inside the ranking |
| ScanPages.FetchResult | components/wifi_provisioning/src/handlers.c:194-213 | one fetch by 16-bit index gives the BSSID, channel, RSSI, authentication mode and SSID of the record shown there, and nothing behind the end |
| ScanPages.ShowsOne | components/wifi_provisioning/src/wifi_scan.c:160-176 | an entry with the record's numbers and BSSID and with the first 32 octets of its SSID, up to the first NUL, is the entry the response holds |
| ScanPages.RightPage | components/wifi_provisioning/src/wifi_scan.c:144-151 | exactly when the answer is the page the client asked for |
| ScanPages.StartWraps | components/wifi_provisioning/src/wifi_scan.c:144-151 | a start index of 65536 answers with the first record |
| ScanPages.PagesMakeRanking | components/wifi_provisioning/src/wifi_scan.c:143-178 | consecutive pages inside the ranking, put together, are the ranking |
| ScanPages.PagesSucceed | components/wifi_provisioning/src/wifi_scan.c:143-151 | and every one of them is answered with success |
| ScanPages.CleanupEndsIff | components/wifi_provisioning/src/wifi_scan.c:205-215 | the clean-up loop ends iff fewer than 65536 entries were asked for |
| ScanPages.CleanupRunsOn | components/wifi_provisioning/src/wifi_scan.c:206 | for 65536 entries it never stops |
| ScanPages.Cleanup | components/wifi_provisioning/src/wifi_scan.c:205-215 | where it ends, each entry has been freed as often as it occurs in the response |
| ConfigFlow.DriverReads | components/wifi_provisioning/src/handlers.c:107-118 | from its buffers the driver reads what the client sent, an SSID of 32 octets (section 9.4.2.2 of IEEE Std 802.11-2020) included |
| ConfigFlow.MeshReads | components/wifi_provisioning/src/handlers.c:125-133 | the mesh part holds the softAP strings the client sent, padded with NULs, and the mesh id |
| ConfigFlow.RunProper | components/wifi_provisioning/src/manager.c:576-653 | while the endpoint exists the manager is at least started; a context exists only with it; a stopping manager does not hear the station |
| ConfigFlow.PendingIsLatest | components/wifi_provisioning/src/handlers.c:91-136 | on every run of starts, sets, applies, resets, station events, stops and cleanups the owned context is the latest valid set since the last apply attempt or cleanup, and absent without one |
| ConfigFlow.ApplyUsesLatest | components/wifi_provisioning/src/handlers.c:138-162 | an apply succeeds with a configuration iff it is that of the latest valid set, the manager is started and not stopped, and the driver agrees; during a stop it is refused |
| ConfigFlow.SetTakenIff | components/wifi_provisioning/src/wifi_config.c:148-162 | on every run a set replaces what an apply will use iff the endpoint exists, its BSSID has 0 or 6 octets, its SSID at most 32 and its passphrase at most 63; otherwise nothing changes |
| ConfigFlow.ApplyAnnounces | components/wifi_provisioning/src/handlers.c:138-162 | an apply announces the latest set's softAP SSID, passphrase and mesh id in every case, and behind them its credentials iff they are accepted |
| ConfigFlow.ClosedSince | components/wifi_provisioning/src/manager.c:1902-1929 | after an accepted apply no other can succeed before a reset from FAIL, a reprovision or a start after a stop |
| ConfigFlow.AppliesSeparated | components/wifi_provisioning/src/manager.c:1382-1429 | so two accepted applies always have one of these between them |
| ConfigFlow.WindowIsOpen | components/wifi_provisioning/src/manager.c:1052-1118 | the manager waits for the outcome, and hears the station, exactly from an accepted apply on until a reset, a reprovision, a stop or a cleanup |
| ConfigFlow.StopEnds | components/wifi_provisioning/src/manager.c:827-829 | a stop gets through: from every run that serves, stop, timer and cleanup end idle without endpoint and context, with exactly one more notice, and the next start is accepted, iff there is an endpoint and the event was posted or one is pending |
| ConfigFlow.OnceIff | components/wifi_provisioning/include/wifi_provisioning/manager.h:21-67 | the exact condition, for each event, under which a run signals it at most once: at most one command triggers it; for CRED_FAIL an expected disconnection in a window, for CRED_SUCCESS an IP address in a window |
| ConfigFlow.AcceptedDisorders | components/wifi_provisioning/src/handlers.c:152-154 | on every run on which an apply succeeds the events are out of the order of declaration |
| ConfigFlow.InOrderIff | components/wifi_provisioning/include/wifi_provisioning/manager.h:21-67 | the events of a run are signalled in order of declaration iff no apply succeeds and no start follows custom data or an end |
| ConfigFlow.SignalledTwice | components/wifi_provisioning/src/manager.c:1066-1118 | a run on which a failure is signalled twice, and one on which a failure is signalled after success |
| ConfigFlow.Provisioner.CmdSetConfig | components/wifi_provisioning/src/wifi_config.c:128-194 | a BSSID of a length other than 0 and 6, an SSID over 32 and a passphrase over 63 octets are refused without touching the context; otherwise the context is replaced |
| ConfigFlow.Provisioner.SetConfigHandler | components/wifi_provisioning/src/handlers.c:91-136 | the old context is freed, the new one is the only one left |
| ConfigFlow.Provisioner.ConfigureSta | components/wifi_provisioning/src/manager.c:1382-1432 | credentials are taken only before CRED_RECV, and only when the driver and the connect timer accept them |
| ConfigFlow.Provisioner.CmdApplyConfig | components/wifi_provisioning/src/handlers.c:138-162 | the context is gone afterwards in every case; the application hears of the mesh part first, of the credentials only on success |
| ConfigFlow.Provisioner.ResetOnFailure | components/wifi_provisioning/src/manager.c:1902-1931 | only the failed state is reset, whatever the state it is called in |
| ConfigFlow.Provisioner.ResetForReprovision | components/wifi_provisioning/src/manager.c:1934-1980 | refused unless auto-stop was disabled; accepted in every state |
| ConfigFlow.Provisioner.StartProvisioning | components/wifi_provisioning/src/manager.c:1670-1680 | a start is accepted only when idle, and begins without a context |
| ConfigFlow.Provisioner.StopProvisioning | components/wifi_provisioning/src/manager.c:754-807 | a stop takes the connect timer and the station handlers at once, leaves the endpoint to the cleanup, and starts the cleanup timer unless it runs already |
| ConfigFlow.Provisioner.OnStopEvent | components/wifi_provisioning/src/manager.c:594-640 | the cleanup frees the handlers with their context, so nothing set before leaks into the next session |
| EspNow.OneStackPerType | components/mesh_lite/src/esp_mesh_lite_espnow.c:50-99 | registering pushes on, unregistering pops off the stack of that type, and no other stack changes |
| EspNow.ListRefinesStacks | components/mesh_lite/src/esp_mesh_lite_espnow.c:50-99 | over every run the list answers for each type as a stack that hears only that type's operations |
| EspNow.UnregisterUndoes | components/mesh_lite/src/esp_mesh_lite_espnow.c:75-99 | unregistering right after registering restores the list |
| EspNow.Radio.RegisterCallback | components/mesh_lite/src/esp_mesh_lite_espnow.c:50-73 | refused before initialisation; otherwise the callback is pushed |
| EspNow.Radio.UnregisterCallback | components/mesh_lite/src/esp_mesh_lite_espnow.c:75-99 | not found exactly when the type has no callback left |
| EspNow.Radio.Dispatch | components/mesh_lite/src/esp_mesh_lite_espnow.c:25-48 | a frame goes, without its type byte, to the latest callback still registered for the type |
| EspNow.Radio.Send | components/mesh_lite/src/esp_mesh_lite_espnow.c:101-116 | the static buffer is filled with the type byte and at most max-1 bytes of data |
| EspNow.Streams | components/mesh_lite/src/wifi_prov/zero_provisioning.c:615-617 | the checksum can be taken piece by piece |
| EspNow.FrameLayout | components/mesh_lite/src/wifi_prov/zero_provisioning.c:312-353 | a frame that fits is type, total length, checksum with the low byte first over the frame with a zeroed checksum, and payload |
| EspNow.ParsesCut | components/mesh_lite/src/wifi_prov/zero_provisioning.c:602-625 | the three-segment check accepts the first n bytes of a frame exactly when they have the checksum taken in one piece over the zeroed field |
| EspNow.WhatArrives | components/mesh_lite/src/wifi_prov/zero_provisioning.c:312-353 | what arrives for every payload length: refused, whole, or cut, and a frame cut at the limit exactly when the cut keeps the checksum |
| EspNow.ArrivesIff | components/mesh_lite/src/wifi_prov/zero_provisioning.c:602-625 | a message arrives with its own type and payload iff header and payload fit both limits |
| EspNow.RoundTrip | components/mesh_lite/src/esp_mesh_lite_espnow.c:25-48 | after any run of registrations a sent frame goes to the latest callback still registered for its type, and that callback parses the message sent, iff it fits |
| ZeroProv.PayloadCarries | components/mesh_lite/src/wifi_prov/zero_provisioning.c:456-457 | although the joiner copies 64 bytes out of a 32-byte field, it reads the provisioner's credentials |
| ZeroProv.Endpoint.OnInfo | components/mesh_lite/src/wifi_prov/zero_provisioning.c:375-462 | without the resend timer an INFO is ignored; with it credentials and settings are copied and the INFO confirmed |
| ZeroProv.Endpoint.OnAck | components/mesh_lite/src/wifi_prov/zero_provisioning.c:504-526 | the timer is gone for good; the first ACK connects, later ones do not |
| ZeroProv.Endpoint.Answer | components/mesh_lite/src/wifi_prov/zero_provisioning.c:293-374 | only a listening, provisioned device whose validation hooks admit the sender answers a broadcast; anybody answers a confirmation |
| ZeroProv.Endpoint.ReceiveHandle | components/mesh_lite/src/wifi_prov/zero_provisioning.c:286-533 | the whole handler, by message type |
| ZeroProv.ResendGoesToPeer | components/mesh_lite/src/wifi_prov/zero_provisioning.c:224-268 | on every run a repeated confirmation is addressed to a listening, provisioned device that sent this joiner the very credentials it connects with when the ACK comes |
| ZeroProv.StepInv | components/mesh_lite/src/wifi_prov/zero_provisioning.c:286-533 | every step keeps: confirmations and acknowledgements involve only devices that took an INFO |
| ZeroProv.ConnectsOnce | components/mesh_lite/src/wifi_prov/zero_provisioning.c:504-526 | on every run a device connects at most once, with exactly what an INFO to it carried, sent by a listening provisioned device |
| ZeroProv.ConnectIsFinal | components/mesh_lite/src/wifi_prov/zero_provisioning.c:375-378 | nothing received later changes credentials or settings or connects again |
| ZeroProv.OnlyJoiners | components/mesh_lite/src/wifi_prov/zero_provisioning.c:872-900 | a device that was provisioned when it started never connects through the handshake |
| ZeroProv.CredentialsAreKnown | components/mesh_lite/src/wifi_prov/zero_provisioning.c:319-346 | however far credentials are passed on, every INFO and every router configuration holds some that a device had at the start or was given otherwise |
| ZeroProv.ConnectsKnown | components/mesh_lite/src/wifi_prov/zero_provisioning.c:522-526 | and so does every connection |
| ZeroProv.HandshakeCompletes | components/mesh_lite/src/wifi_prov/zero_provisioning.c:286-533 | from every reachable state five steps connect a joiner that is admitted to what a provisioner has, with the settings it sends |
| ZeroProv.RetryCompletes | components/mesh_lite/src/wifi_prov/zero_provisioning.c:224-268 | from every reachable state a joiner that took an INFO connects in three steps, by a repeated confirmation, whatever was lost before |
| ZeroProv.ConfirmAcked | components/mesh_lite/src/wifi_prov/zero_provisioning.c:463-503 | a confirmation is answered by whoever it is addressed to, with an acknowledgement to its sender |
| ZeroProv.HandshakeSpreads | components/mesh_lite/src/wifi_prov/zero_provisioning.c:286-533 | from every reachable state the credentials travel along any chain of joiners, each informed by the one before it once that listens |
| ZeroProv.AnsweredIff | components/mesh_lite/src/wifi_prov/zero_provisioning.c:293-309 | on every run a broadcast is answered iff its receiver listens, started out provisioned or has received an INFO or other credentials since, and the hooks admit the sender; the answer carries the router's credentials |
| ChildMirror.SweepMirrored | examples/rainmaker/led_light/components/app_bridge/app_mesh_lite_comm.c:149-172 | handling the LEAVE events of a sweep on a copy removes the swept entries and keeps the order of the others |
| ChildMirror.AddMirrored | examples/rainmaker/led_light/components/app_bridge/app_mesh_lite_comm.c:82-109 | a new entry and its JOIN event keep the mirror |
| ChildMirror.MacIsItsKey | examples/rainmaker/led_light/components/app_bridge/app_mesh_lite_comm.c:74 | two MAC addresses in text form count as the same iff their first 17 characters agree |
| ChildMirror.ReportedChild | examples/rainmaker/led_light/components/app_bridge/app_mesh_lite_comm.c:75 | on every interleaving of reports and sweeps a child's time to live is 130 less the sweeps since its last report, and it is gone after more |
| ChildMirror.PresentIff | examples/rainmaker/led_light/components/app_bridge/app_mesh_lite_comm.c:149-169 | a child is in the list iff at most 130 sweeps have passed since its last report |
| ChildMirror.FirstReportStands | examples/rainmaker/led_light/components/app_bridge/app_mesh_lite_comm.c:73-78 | while a child stays in the list its address and level are those of the report that brought it in; later ones only refresh it |
| ChildMirror.Bridge.AddNode | examples/rainmaker/led_light/components/app_bridge/app_mesh_lite_comm.c:68-109 | a known address is only refreshed and posts nothing; a new one is added in front and posts JOIN; the mirror holds afterwards |
| ChildMirror.Bridge.RootTimer | examples/rainmaker/led_light/components/app_bridge/app_mesh_lite_comm.c:139-174 | the sweep posts one LEAVE per expired entry in list order; the mirror holds afterwards |
| ChildMirror.Bridge.AddChildInfo | examples/rainmaker/led_light/components/app_bridge/app_bridge.c:110-139 | a child is added in front unless its address is known |
| ChildMirror.Bridge.RemoveChildInfo | examples/rainmaker/led_light/components/app_bridge/app_bridge.c:141-164 | the first child with the address is unlinked |
| ChildMirror.Bridge.HandleEvent | examples/rainmaker/led_light/components/app_bridge/app_bridge.c:345-362 | the mirror: replaying what is pending on the copy gives the MAC and IP sequence of the list, so an empty queue means they are equal |

## Left out

- The mesh core library (parent selection, root election, message retransmission, LAN OTA) is not part of this model; its source is not in the repository.
- Protobuf packing, JSON parsing, group ids and the mesh_id filter: messages are records, and every group-control payload is taken to be well formed and of this mesh.
- The radio, BLE, HTTP, NVS and FreeRTOS: nondeterministic steps, an atomic lock and a FIFO event queue stand for them. Unregistering an event handler takes effect at once, and one event is handled at a time.
- IDF versions before 5.1: the newer branch of each `#if` is modelled.
- Out-of-memory paths, and the cleanup after a failed start, which leaves deleted handles in fields: starts are taken to succeed.
- Lengths the code does not check: a MAC has six bytes, softAP SSID and passphrase fit their buffers, router SSID and password stay under 32 bytes in an INFO.
- Deinit is a final step after which no thread runs. The lock release around user callbacks at the end of a locked section is not modelled.
- Client requests arrive only while the prov-config endpoint is served, from STARTED until the cleanup: the moments in which a start has registered it but not yet finished are left out, as the code does not test that lower bound.
- Lifecycle.StepInv: does not promise the invariant for a reprovision outside STARTED to SUCCESS, because the code breaks it there; NextIsSafeIff is the exact condition.
- Events posted with zero timeout may be dropped by the queue; the event properties are about runs on which none is. JOIN and CHANGE are posted after the mutex is released and are taken together with their update; the table is read without the mutex when a snapshot is built, and that is taken as one step.
- The list loops of four C files are factored into one `List` class, and a node record and its list cell are one entry.
- The driver returns scanned records strongest first: only the order of the ranking rests on that, not its memory safety or the end of a scan.
- The flood over a network is modelled without reset packets and for fewer than 2^32 originated messages, so that numbers do not wrap; agreement assumes that nothing is lost.
- A page is read from one ranking: a scan step between two fetches of the same request is not modelled.
- The two locked sections of an apply command are one step.
- The checksum polynomial: any byte step function will do.
- Zero provisioning without deinit or listening stop in between, and without the meaning of send errors: a message that failed to be sent is a lost one. What the joiner does with the channel, mesh id, random number and softAP data of an INFO is one field that holds them. The wireless-debug console is not modelled.
- Wi-Fi status commands, scheme glue, logging, OTA, the light driver and the cloud: plumbing that would add only easy members.
- LinkedLists.List.RemoveFirst: the cell is unlinked, freeing its memory is not modelled.
