# FlexGAS: a verified model

FlexGAS runs processing elements (PEs) on a cluster: a scheduler grants nodes to groups of PEs, one agent per node
starts them, and a PE may launch a further group and wait for it. All parts talk over the runtime's own message layer.
This project models the parts whose correctness is not visible from any single function, and proves what they promise
in every run.

**Messages over TCP (`Wire`, `InetEndpoint`, `InetHandler`, `InetTable`, `InetNet`, `InetData`, `InetTheorems`,
`InetIntact`, `InetReads`, `InetProgress`, `InetCluster`, `Puts`).** One handler thread per process drives, per
connection, a request of its own and a request of the peer through the states Free, Header, Body and Auto. `InetHandler`
and `InetTable` are the handler as it is written, objects updated in place; every method of `InetHandler` is proved
equal to a function of `InetEndpoint`, every method of `InetTable` to one of that module, and
`InetTable.FetchIsRetrieve` shows that the two agree at each descriptor. `InetNet` joins two such endpoints by two byte
streams. A kernel call may move any number of bytes, or none, and the two handlers and programs interleave freely. The
invariant of that system yields framing, FIFO delivery, exactly-once completion, faithful remote writes and reads, and
progress. `InetCluster` lets any number of such connections end in one process, whose memory they share, and shows that
their remote writes are the deliveries of `Puts`, so that puts from many mirrors merge into one master.

**Nested launches (`Resources`, `Launch`, `LaunchSafety`, `LaunchTheorems`, `LaunchProgress`, `SpawnLoop`,
`PeTable`).** The recursion scheduler shares one list of nodes between groups of different recursion levels, spawns the
PEs of a group in rounds, and acknowledges a launch when its PEs have exited. `Resources` has the list in place and
shows that it is one independent allocator per level. `Launch` is the whole protocol as a transition system: any number
of jobs, any finite launch trees, any interleaving. `SpawnLoop` looks at the spawn rounds when spawn requests fail,
`PeTable` at the PE ids and tables under many threads.

**Smaller cores.** `Completions` (the InfiniBand completion stash and LM-INET's rotating queue), `ShmFraming` (messages
over a local socket), `Ranges` (what a memory put checks), `MemTable` (looking up mapped memory) and `Marshal` (program
arguments). `Seqs` holds removal from a sequence for all of them.

How to read the contracts:

* A call that returned -1 and one that moved no byte are treated alike by the handler, so both are "0 bytes" there.
* Memory is one sequence of bytes per process; the range of a request lies inside it.
* `Mark.ok` in `InetData` says that nothing else has been stored into a transferred range since the request was fetched
  or its header read; it lets the theorems speak of programs that write their memory as they like. `InetIntact` proves
  which steps keep a mark intact and restates the theorems without it, in terms of the steps of the run alone.
* The theorems about LM-INET are stated for the stream from the left side to the right; `FlipW` turns the picture round.

What the code does not promise, and exactly when it does:

* A second request on a busy connection is lost and the running one is reported in its place. When every queued request
  is for a descriptor that is registered or queued for it, a retrieval conserves all requests if and only if at most one
  is outstanding for each descriptor (`InetTable.ConservedIffOneEach`; `InetTable.TwoAtOnce` is a failing desk). A
  descriptor that nobody knows ends the loop before it gets that far, and then the rule is only sufficient
  (`InetTable.FetchAllConserves`).
* A Recv whose empty message has arrived over TCP completes if and only if something more is readable
  (`InetProgress.EmptyMessageWaits`); over LM-SHM a message can complete without an error if and only if it is
  not empty (`ShmFraming.CompletesExactly`).
* The guard of the spawn call lets through max + 1 ids. A group hangs if and only if two of its first max + 1 spawn
  requests fail after their ids were taken (`SpawnLoop.GroupThread.Routine`). Under n threads that ask for up to k PEs
  each it lets through max + n * k ids at most, and that many in some runs (`PeTable.GuardBounds`,
  `PeTable.GuardReached`).
* Waiters on the rotating queue can turn it for ever: waiting must end if and only if all that still seek seek one id and
  a completion is there for each of them; with ids of their own, that is one waiter whose completion has arrived
  (`Completions.MustEndExactly`, `Completions.InStepForEver`).
* The API's range check of a put, which sees only addresses that the lookup found, admits only ranges inside the mapping
  if and only if no mapping has more than 2^63 bytes (`MemTable.SoundExactlyUpToHalf`).
* The lookup of mapped memory is right at every address if and only if no region is empty or wraps around, a region at
  the very last address excepted (`MemTable.FindIsContainment`).

## Model

| member | source | states |
|---|---|---|
| Wire.DecodeEncode | src/lm/lminet.h:119-127 | A peer that copies the 48 header bytes back reads the request that was written, field by field. |
| Wire.HeaderLayout | src/lm/lminet.h:119-127 | The seven fields of the header lie at their offsets in 48 bytes, each low byte first, with the codes 0 to 3 for Send, Recv, RemRd and RemWr. |
| Wire.LeDigit | src/lm/lminet.h:119-127 | Byte number k of a field is its digit number k to the base 256. |
| InetHandler.Queue.PushHead | src/lm/lminet_handler.h:173-183 | The element becomes the first. |
| InetHandler.Queue.PushTail | src/lm/lminet_handler.h:185-191 | The element becomes the last. |
| InetHandler.Queue.PopHead | src/lm/lminet_handler.h:193-209 | Takes the first element, or reports -1 on an empty queue and changes nothing. |
| InetHandler.InetConnection.constructor | src/lm/lminet_handler.cpp:228-243 | A registered connection starts with both requests Free and input polled. |
| InetHandler.InetConnection.HandleRequestSend | src/lm/lminet_handler.cpp:306-350 | Whatever the kernel took, the connection and the bytes put on the stream are those of the Send step: header first, then body, completion with the last byte. |
| InetHandler.InetConnection.HandleRequestRecv | src/lm/lminet_handler.cpp:352-357 | A Recv only becomes ready for a body. |
| InetHandler.InetConnection.HandleRequestRemRdHeader | src/lm/lminet_handler.cpp:366-382 | When the header of a remote read is out, input is masked and the reply awaited. |
| InetHandler.InetConnection.HandleRequestRemRdAuto | src/lm/lminet_handler.cpp:386-409 | Reply bytes land behind those before; with the last one input is polled again and the request completes. |
| InetHandler.InetConnection.HandleRequestRemWr | src/lm/lminet_handler.cpp:415-458 | As for Send, for a remote write. |
| InetHandler.InetConnection.HandleRequest | src/lm/lminet_handler.cpp:466-495 | The dispatch on the request's type takes exactly the step of that type, and leaves a connection without a request alone. |
| InetHandler.InetConnection.HandleConnectionIn | src/lm/lminet_handler.cpp:501-641 | Input does what the receiver's step says in every state: header bytes, a Send body when a Recv is posted, a RemWr body, or nothing. |
| InetHandler.InetConnection.DispatchHeader | src/lm/lminet_handler.cpp:517-541 | The switch on the type of a complete header takes the receiver to Body, Auto or Free and changes nothing else. |
| InetHandler.InetConnection.TakeHeader | src/lm/lminet_handler.cpp:506-575 | A complete header decides between Body, Auto and Free by its type; an incomplete one waits. |
| InetHandler.InetConnection.TakeBody | src/lm/lminet_handler.cpp:577-633 | A Send body goes to the posted Recv and completes it, a RemWr body to the address in the header; a Send without a Recv stays unread. |
| InetHandler.InetConnection.TakeMessage | src/lm/lminet_handler.cpp:581-611 | The bytes of a Send body land behind those before in the posted Recv's buffer; the last one completes the Recv. |
| InetHandler.InetConnection.TakeRemoteWrite | src/lm/lminet_handler.cpp:613-628 | The bytes of a RemWr body land behind those before at the address in the header. |
| InetHandler.InetConnection.HandleConnectionOut | src/lm/lminet_handler.cpp:643-664 | The answer to a remote read is the named range, chunk by chunk, with no header. |
| InetTable.RequestDesk.SubmitRequest | src/lm/lminet_handler.cpp:146-155 | A submitted request is last in the queue. |
| InetTable.RequestDesk.RetrieveFdFromQueue | src/lm/lminet_handler.cpp:217-255 | Queued descriptors get connections up to and including the first that epoll refuses; the rest stay queued, those added are refused from then on, and -1 is returned exactly when one is refused. |
| InetTable.RegisteredExactly | src/lm/lminet_handler.cpp:217-255 | Exactly the queued descriptors up to and including the first refused get an entry if they have none, a free one; the rest stay queued, and those are refused from then on. |
| InetTable.RefusesExactly | src/lm/lminet_handler.cpp:244-249 | One of the queued descriptors is refused exactly when epoll refuses it from the start or it is queued twice. |
| InetTable.RequestDesk.RetrieveReqFromQueue | src/lm/lminet_handler.cpp:257-300 | The whole retrieval loop, with its three early returns, is the fold of single rounds, and of the requests queued some first ones are placed; if there are more, the next gets the one answer and those behind it stay queued (`Answered`). |
| InetTable.UnknownFails | src/lm/lminet_handler.cpp:282-291 | A request for a descriptor that is neither in the table nor registered in that round is reported once, last, as itself with status 0x12 and nothing else about it changed; the loop ends there with the rest of the queue untouched. |
| InetTable.Answers | src/lm/lminet_handler.cpp:257-300 | For every desk: which requests are placed, as they are and in a free connection in state Header; which one ends the loop and with what answer; and that all other connections, the rest of the queue and the completions before stay as they were. |
| InetTable.FetchOnePlaces | src/lm/lminet_handler.cpp:262-299 | One round moves one request from the queue to exactly one other place, and what it does instead when the connection is busy. |
| InetTable.ConservedIffNotBusy | src/lm/lminet_handler.cpp:275-279 | Retrieval conserves all requests if and only if it does not meet a busy connection. |
| InetTable.ConservedExactly | src/lm/lminet_handler.cpp:257-300 | A whole retrieval conserves all requests if and only if its loop meets no connection that is busy with an older request or with one just placed. |
| InetTable.MeetsBusyExactly | src/lm/lminet_handler.cpp:257-300 | When all queued descriptors are known, the loop meets a busy connection exactly when two requests are outstanding for one descriptor, queued or in its connection. |
| InetTable.ConservedIffOneEach | src/lm/lminet_handler.h:50-53 | Then a whole retrieval conserves all requests if and only if at most one request is outstanding for each descriptor. |
| InetTable.TwoAtOnce | src/lm/lminet_handler.cpp:275-279 | Two requests queued for one idle connection: after the retrieval the first is in two places, the second in none. |
| InetTable.FetchIsRetrieve | src/lm/lminet_handler.cpp:262-299 | A round is, at the connection whose request is the oldest, the retrieval of `InetEndpoint`, and changes nothing that any other connection sees. |
| InetTable.FetchAllIsRetrieves | src/lm/lminet_handler.cpp:257-300 | The whole loop is, at each connection, so many of its retrievals. |
| InetTable.FetchAllConserves | src/lm/lminet_handler.h:50-53 | Under one outstanding request per descriptor a whole retrieval conserves every request. |
| InetNet.StepInv | src/lm/lminet_handler.cpp:257-664 | Every step of either handler or program keeps the invariant of both endpoints and both streams. |
| InetData.StepData | src/lm/lminet_handler.cpp:306-664 | Every step keeps the records of what was submitted, sent and received true of streams and memories. |
| InetData.ReachableInv | src/lm/lminet_handler.cpp:720-745 | All of that holds after any run from two fresh connections. |
| InetTheorems.UnframeFlat | src/lm/lminet_handler.cpp:501-641 | A stream of frames can be cut into the frames again from its bytes alone. |
| InetTheorems.Framing | src/lm/lminet_handler.cpp:306-350 | In every run a stream is the frames written so far and a proper prefix of the frame of the request in the handler, and parsing it gives just these. |
| InetTheorems.ReceiverParses | src/lm/lminet_handler.cpp:501-641 | The receiver's state is the parse of what it has consumed: nothing over in Free and Auto, the partial header in Header, header plus rbytes of body in Body. |
| InetTheorems.FifoDelivery | src/lm/lminet_handler.cpp:581-611 | The k-th completed Recv took exactly the body of the peer's k-th Send, and it lies at the Recv's address until something else is stored there. |
| InetTheorems.WrittenInOrder | src/lm/lminet_handler.cpp:257-300 | Frames are written in the order of submission, each once. |
| InetTheorems.EachRequestOnce | src/lm/lminet_handler.h:50-53 | Every submitted request is outstanding or completed with success, once and in order; at most one is outstanding, so the busy branch is never taken. |
| InetTheorems.CopiedFaithfully | src/lm/lminet_handler.cpp:613-628 | What was transferred completely is equal at both ends while neither end is stored over. |
| InetTheorems.MirrorMatches | src/vivm/sched/sched_remote_handler.cpp:174-177 | A Recv that takes a message behind a remote write completes only when the write is fully applied: mirror equals master, as long as neither has been stored over. |
| InetTheorems.MapHandshake | src/vivm/agent/agent_local_handler.cpp:248-271 | In the map handshake (region, content, region), when the agent's second receive has completed, its mirror equals the scheduler's master, as long as neither has been stored over. |
| InetTheorems.ReplyNeverParsed | src/lm/lminet_handler.cpp:373-379 | While reply bytes are on the way the requester waits in Auto with input masked, so they are never read as a header; input is polled exactly outside Auto. |
| InetIntact.StoresOnlyThere | src/lm/lminet_handler.cpp:386-389 | A step changes no memory but the bytes of one chunk of the transfer it serves, or what the program writes. |
| InetIntact.MarksKept | src/lm/lminet_handler.cpp:306-664 | The record of a transfer stays intact exactly when the step stores nothing into its range. |
| InetIntact.CleanSinceFetch | src/lm/lminet_handler.cpp:295-299 | From its fetch on, a request in the handler counts as clean exactly when nothing foreign was stored into its buffer. |
| InetIntact.SentMarkTells | src/lm/lminet_handler.cpp:325-342 | A written frame or reply is recorded as intact exactly when the buffer it was taken from stayed clean. |
| InetIntact.GotMarkTells | src/lm/lminet_handler.cpp:581-628 | A transfer that ends is recorded as intact exactly when its target stayed clean and, for a message, it fits the Recv. |
| InetIntact.RemoteWriteArrives | src/lm/lminet_handler.cpp:613-628 | In any run: if nothing is stored into the requester's buffer from the fetch on, and nothing but the write into the peer's range from its header on, the two ranges and the frame's bytes are equal once it is read. |
| InetIntact.MessageArrives | src/lm/lminet_handler.cpp:581-611 | In any run: a delivered message has completed the Recv of its number, and undisturbed and fitting it lies in that Recv's buffer, equal to the sender's buffer. |
| InetIntact.MirrorIsMaster | src/vivm/agent/agent_local_handler.cpp:248-271 | In any run: when the second receive of the map handshake has completed, and nothing else was stored into master or mirror since the write was fetched, the mirror is the master. |
| InetReads.StepReadsDone | src/lm/lminet_handler.cpp:394-409 | A remote read that asked for bytes is completed by the step that takes the last byte of its reply, and by no other. |
| InetReads.ReadsCompleteInOrder | src/lm/lminet_handler.cpp:386-409 | In every run the completed remote reads that asked for bytes are, in order, the requests whose replies have been read whole. |
| InetReads.PollsAgain | src/lm/lminet_handler.cpp:394-409 | The step that completes such a read finds input masked and leaves it polled, the record free and nothing of the reply unread. |
| InetReads.ReadReturnsPeerBytes | src/lm/lminet_handler.cpp:386-409 | The m-th completed read belongs to the m-th reply, which was read whole and has the length asked for; its buffer equals the range of the peer's memory it names while both records are intact. |
| InetReads.RemoteReadFetches | src/lm/lminet_handler.cpp:386-409 | In any run: if nothing is stored into the range at the peer from the request's header on, and nothing but the reply into the buffer from the fetch on, the buffer of the m-th completed read equals the peer's range and the bytes of its reply. |
| InetProgress.StepWorks | src/lm/lminet_handler.cpp:306-664 | Every handler step that does anything decreases the header, body and reply bytes left; moving a byte always does. |
| InetProgress.BusyWorks | src/lm/lminet_handler.cpp:460-499 | A handler with anything to do has a step that decreases that measure. |
| InetProgress.HandlersStop | src/lm/lminet_handler.cpp:720-745 | In any run of the two handlers alone, the steps that do anything are bounded by the work that was there. |
| InetProgress.ComesToRest | src/lm/lminet_handler.cpp:581-600 | From every reachable state the handlers alone come to rest, and then on both sides all that is left are Recvs that wait for a message or took an empty one, messages nobody asked for, and remote reads behind such messages. |
| InetProgress.WholeAtOnce | src/lm/lminet_handler.cpp:577-628 | When all of it is readable, one step can take a whole header, body or reply, and nothing is asked for in smaller pieces. |
| InetProgress.WrittenAtOnce | src/lm/lminet_handler.cpp:306-350 | One step can write all that is left of a header, a body or the answer to a remote read. |
| InetProgress.EmptyMessageWaits | src/lm/lminet_handler.cpp:577-611 | A Recv whose empty message has arrived can complete exactly when more bytes are readable. |
| Resources.GrantTakesFirstFree | src/vivm/schedlib/sl_recursion/rec_sched.cpp:17-53 | A grant is exactly the first min(requested, free at this level) nodes in list order, nodes where no device can be created left out. |
| Resources.FreeListIsFree | src/vivm/schedlib/sl_recursion/rec_sched.cpp:24-47 | A node counts as free exactly when no group of this level is on it and its device can be created. |
| Resources.ResourceList.FindExecRes | src/vivm/schedlib/sl_recursion/rec_sched.cpp:7-60 | The two nested loops return that grant and enter the level, last, on exactly the granted nodes, with the counter one up. |
| Resources.ResourceList.Occupied | src/vivm/schedlib/sl_recursion/rec_sched.cpp:24-37 | The inner scan denies a node exactly when the level is already on it. |
| Resources.ResourceList.ReleaseExecRes | src/vivm/schedlib/sl_recursion/rec_sched.cpp:62-86 | Exactly the granted nodes are left, whether or not the level is found on them. |
| Resources.LeaveConsistent | src/vivm/schedlib/sl_recursion/rec_sched.cpp:49-80 | Counter and distinct levels stay right on release if and only if the level is there, and on entry if and only if it is not. |
| Resources.ApplyRefines | src/vivm/schedlib/sl_recursion/rec_sched.cpp:7-86 | One grant or release keeps the list consistent, acts on its level as on an allocator of its own, and changes no other level. |
| Resources.LevelsIndependent | src/vivm/schedlib/sl_recursion/rec_sched.cpp:7-86 | Over any interleaving each level gets the grants, and ends with the nodes, of a list of its own. |
| Resources.ReleaseUndoesGrant | src/vivm/schedlib/sl_recursion/rec_sched.cpp:62-86 | A release after its grant restores the list exactly. |
| LaunchSafety.StartKeeps | src/vivm/sched/sched_remote_handler.cpp:216-251 | A launch creates one group, one level below its parent, posts it last in its job's line and blocks the launching PE on it; the invariant is kept. |
| LaunchSafety.ResumeKeeps | src/vivm/sched/sched_helpers.h:804-823 | A PE goes on after the acknowledgement; the invariant is kept. |
| LaunchSafety.ExitKeeps | src/vivm/sched/sched_remote_handler.cpp:74-99 | An exit takes one PE out of the live ones of its group and queues one event there; no other group changes; the invariant is kept. |
| LaunchSafety.AttemptKeeps | src/vivm/schedlib/sl_recursion/rec_sched.cpp:117-158 | The job's thread moves the oldest event to the end of its list; the head is then granted the first free nodes of its level, entered on exactly those, and begins to spawn there, or goes to the back with nothing else changed, for any device failures (how many nodes: `LaunchTheorems.HeadGetsFirstTwo`); the invariant is kept. |
| LaunchTheorems.HeadGetsFirstTwo | src/vivm/schedlib/sl_recursion/rec_sched.cpp:133-158 | In terms of nodes alone: the head of the list starts on the first two nodes that carry no group of its level and accept a device, on the only one when one is left, and goes to the back exactly when there is none. |
| LaunchTheorems.AtMostTwo | src/vivm/schedlib/sl_recursion/rec_internal.h:31 | In every reachable state no group is on more than two nodes or has more than two live PEs. |
| LaunchSafety.SpawnKeeps | src/vivm/schedlib/sl_recursion/rec_sched.cpp:196-204 | One turn of the spawn loop, failed or not, keeps counters, devices and live PEs in agreement. |
| LaunchSafety.RoundKeeps | src/vivm/schedlib/sl_recursion/rec_sched.cpp:207-213 | Ending a round, taking an exit event and starting the next round or acknowledging keep the invariant. |
| LaunchSafety.ReturnKeeps | src/vivm/schedlib/sl_recursion/rec_sched.cpp:214-215 | Giving nodes back takes the group's level off exactly the group's nodes, and no other level off any; the invariant is kept. |
| LaunchSafety.StepKeeps | src/vivm/schedlib/sl_recursion/rec_sched.cpp:101-218 | Every step of every thread keeps the invariant. |
| LaunchSafety.RunKeeps | src/vivm/schedlib/sl_recursion/rec_sched.cpp:101-218 | So does every run. |
| LaunchTheorems.AckMeansWholeTree | src/vivm/schedlib/sl_recursion/rec_sched.cpp:191-213 | A group is acknowledged only when all its PEs were spawned and have exited, each having launched its whole program, and the same holds for every group below. |
| LaunchTheorems.ResumeAfterWholeTree | src/vivm/sched/sched_remote_handler.cpp:248-256 | A launch is answered only after its whole subtree has run and exited. |
| LaunchTheorems.PathLevel | src/vivm/agent/agent_local_handler.cpp:147-147 | Along any chain of launches the level grows by one per launch. |
| LaunchTheorems.EveryGroupHasPath | src/vivm/sched/sched_remote_handler.cpp:240-242 | Every group was launched, directly or not, by the main program of its job. |
| LaunchTheorems.LevelIsDepth | src/vivm/sched/sched_api.cpp:338-338 | The level handed from scheduler to agent and back is the depth of the launch below the main program. |
| LaunchTheorems.OneLivePePerLevel | src/vivm/schedlib/sl_recursion/rec_sched.cpp:22-53 | Two live PEs on one node belong to groups of different levels; in particular a device has at most one. |
| LaunchTheorems.LivePeHasNode | src/vivm/schedlib/sl_recursion/rec_sched.cpp:196-200 | A live PE sits on a node of its group's grant, and the group's level is entered there. |
| LaunchTheorems.EverySpawnIsReal | src/vivm/sched/sched_api.cpp:470-475 | With at most one failed request per group the guard of the spawn call never fires: a PE is counted exactly when it was started, and never more than the maximum. |
| LaunchProgress.PeMoves | src/vivm/sched/sched_helpers.h:804-823 | A live PE can move when everything below its group has finished. |
| LaunchProgress.GroupMoves | src/vivm/schedlib/sl_recursion/rec_sched.cpp:169-218 | So can the thread of a started group or one of its PEs. |
| LaunchProgress.RotateToGrant | src/vivm/schedlib/sl_recursion/rec_sched.cpp:128-144 | A grantable group in the thread's list is reached, or another granted, within one turn of the list. |
| LaunchProgress.PollToGrant | src/vivm/schedlib/sl_recursion/rec_sched.cpp:117-144 | So is one whose event is still to be polled, one event per iteration, within the list and twice its place among the events. |
| LaunchProgress.NoDeadlock | src/vivm/schedlib/sl_recursion/rec_sched.cpp:101-218 | With at least one node, every unfinished state has a productive step after at most two turns of one job's line. |
| LaunchProgress.StepWorks | src/vivm/schedlib/sl_recursion/rec_sched.cpp:101-218 | Every productive step decreases a natural number; a turn of a queue leaves it. |
| LaunchProgress.Terminates | src/vivm/schedlib/sl_recursion/rec_sched.cpp:101-218 | However long a run, its productive steps are bounded by the size of the launch trees. |
| LaunchProgress.CanFinish | src/vivm/schedlib/sl_recursion/rec_sched.cpp:101-218 | From every state of a run the system can run until everything has finished. |
| LaunchProgress.QuietMeansAllRan | src/vivm/sched/sched_local_handler.cpp:220-228 | When everything has finished, every main program has run its whole launch tree. |
| LaunchProgress.EveryJobRan | src/vivm/sched/sched_local_handler.cpp:220-228 | After a run that has come to its end every job has run the whole tree of its own main program, and all nodes are empty again. |
| SpawnLoop.GroupThread.SpawnPe | src/vivm/sched/sched_api.cpp:457-518 | The guard reports success without a PE; otherwise an id is used up and a PE is registered exactly when the agent succeeds. |
| SpawnLoop.GroupThread.Round | src/vivm/schedlib/sl_recursion/rec_sched.cpp:195-205 | Whatever fails, after a round the live PEs are exactly those whose requests succeeded, one on each device of the grant in the order of the requests; a count that is not real arises only at id max + 1 with PEs missing. |
| SpawnLoop.GroupThread.Routine | src/vivm/schedlib/sl_recursion/rec_sched.cpp:191-212 | The group hangs if and only if two of the first max + 1 requests fail; otherwise exactly max PEs run, in the ceiling of requests over devices rounds. |
| SpawnLoop.RunWithoutFailures | src/vivm/schedlib/sl_recursion/rec_sched.cpp:191-212 | Without failures all PEs run in ceil(max / n) rounds, one round when max is 0. |
| PeTable.Group.GetNewPeids | src/vivm/sched/sched_helpers.h:509-524 | Hands out the next ids in a row. |
| PeTable.Group.RegisterPes | src/vivm/sched/sched_helpers.h:526-545 | Refuses a foreign job, group or device; otherwise inserts each entry unless its id is there. |
| PeTable.InsertExactly | src/vivm/sched/sched_helpers.h:534-542 | Registering keeps every entry that is there and adds, for each new id, the first record that names it. |
| PeTable.Group.UnregisterPes | src/vivm/sched/sched_helpers.h:547-572 | The kill path compares job, group and device of the first entry with the caller, then erases up to the first id that is missing, whatever the records say; for one entry spelled out. |
| PeTable.Group.FindLate | src/vivm/sched/sched_helpers.h:584-596 | The search for a PE that is not registered yet: up to 2000000000 looks, the table being what other threads make of it whenever the lock is free. |
| PeTable.Group.UnregisterIds | src/vivm/sched/sched_helpers.h:574-622 | The exit path looks again for a missing PE and checks job, group and device of every entry it erases; a notice for one registered PE takes out exactly that PE when all three are its own, and otherwise changes nothing and answers -1. |
| PeTable.SearchExactly | src/vivm/sched/sched_helpers.h:588-597 | When nobody takes the PE out meanwhile, it is found if and only if somebody has registered it by the last look. |
| PeTable.LateNotice | src/vivm/sched/sched_helpers.h:574-622 | The notice of one PE that is missing is accepted exactly when the PE is registered in time with this job, group and device, and then the PE is out of the table. |
| PeTable.LateAlone | src/vivm/sched/sched_helpers.h:574-622 | Undisturbed, the exit path erases up to the first id that is missing or does not suit. |
| PeTable.NoticeStopsAt | src/vivm/sched/sched_helpers.h:574-622 | Undisturbed, the exit path erases exactly the entries before the first that is missing or whose record names another job, group or device. |
| PeTable.KillStopsAt | src/vivm/sched/sched_helpers.h:556-568 | The kill path erases exactly the entries before the first that is missing, whatever job, group and device the records name. |
| PeTable.RespawnStopsAt | src/vivm/sched/sched_helpers.h:660-676 | A respawn erases exactly the entries before the first that is missing or whose record names another job or group; the device does not matter. |
| PeTable.Group.RegisterKilledPes | src/vivm/sched/sched_helpers.h:624-644 | As RegisterPes, for the killed table. |
| PeTable.Group.UnregisterKilledPes | src/vivm/sched/sched_helpers.h:646-680 | As UnregisterPes, checking job and group of every entry. |
| PeTable.EraseStopsAt | src/vivm/sched/sched_helpers.h:556-568 | A refused call has erased exactly the entries before the refused one. |
| PeTable.StepPlaces | src/vivm/sched/sched_api.cpp:457-602 | Every step of spawn, kill, respawn and exit moves ids between places and neither loses nor doubles one (which places: `PeTable.StatusStep`). |
| PeTable.OneStatus | src/vivm/sched/sched_api.cpp:457-602 | In every run each id handed out has exactly one status - pending, live, in transit, killed, exited or failed - and is never in both tables (which one when: `PeTable.StatusStep`, `PeTable.LifeBegins`). |
| PeTable.StatusStep | src/vivm/sched/sched_api.cpp:457-602 | For every step and every id, the status before and after: registering takes pending ids to live PEs of that id and device, a failed spawn to failed, a kill through its thread's hand to killed, a respawn back to live on the new device or to failed, an accepted exit notice to exited; every other id keeps status and record. |
| PeTable.LifeBegins | src/vivm/sched/sched_api.cpp:457-602 | In every run every id begins unused and goes from status to status in these ways only. |
| PeTable.GuardBounds | src/vivm/sched/sched_api.cpp:470-475 | The guard is looked at before the ids are taken: with n threads that ask for up to k PEs each, at most max + n * k ids are handed out. |
| PeTable.GuardReached | src/vivm/sched/sched_api.cpp:470-475 | A run of two threads that reaches this bound. |
| PeTable.RangesTile | src/vivm/sched/sched_helpers.h:518-520 | The ranges handed out follow each other from 0 to the counter. |
| PeTable.TileMeans | src/vivm/sched/sched_helpers.h:518-520 | Each id below the counter lies in exactly one range. |
| PeTable.EndedStays | src/vivm/sched/sched_remote_handler.cpp:74-99 | An exited or failed id never comes back. |
| Completions.RdmaContext.GetComp | src/lm/lmib_sendrecv.cpp:341-386 | Searches the stash, then polls once and stashes what is not its own; the other direction's queues are untouched. |
| Completions.RdmaContext.WaitComp | src/lm/lmib_sendrecv.cpp:391-400 | Ends when the completion is in the stash or the finite queue; everything polled before it is stashed in order. |
| Completions.GetSucceeds | src/lm/lmib_sendrecv.cpp:361-384 | A call succeeds exactly when its completion is stashed or next in the queue; it polls only when nothing is stashed for it, and then one completion, which it stashes when it is another's. |
| Completions.StashIsOneQueuePerId | src/lm/lmib_sendrecv.cpp:341-400 | Over any sequence of calls and deliveries, per id, returned then stashed then undelivered completions are those delivered, in order. |
| Completions.OnlyOwnId | src/lm/lmib_sendrecv.cpp:362-366 | No call ever returns another request's completion. |
| Completions.InetWaitComp | src/lm/lminet_sendrecv.cpp:240-262 | Alone, with the id first at index i, it pops i + 1 times and leaves the rest of the queue followed by what came before. |
| Completions.RingConserves | src/lm/lminet_sendrecv.cpp:249-257 | With any number of waiters, queued, held and taken completions are those delivered, and each waiter takes only its own. |
| Completions.MustEndExactly | src/lm/lminet_sendrecv.cpp:249-257 | The waiters run out of turns, however they take them, if and only if all that still seek seek one id and the queue has a completion for each. |
| Completions.InStepForEver | src/lm/lminet_sendrecv.cpp:249-257 | Any two idle waiters with different ids, on any queue that is not empty, can take turns that restore everything. |
| Completions.LockstepTurnsForEver | src/lm/lminet_sendrecv.cpp:249-257 | The smallest instance: two completions and the two waiters for them. |
| ShmFraming.ShmRequest.SubmitRecvNow | src/lm/lmshm_sendrecv.cpp:60-99 | One attempt puts what came behind what was there, in the header buffer or the body, or reports the error. |
| ShmFraming.ShmRequest.GetCompNow | src/lm/lmshm_sendrecv.cpp:206-260 | One look completes only a message that was already whole; a look that receives its last byte still answers "not yet". |
| ShmFraming.ShmRequest.RemoveReqQueueEntry | src/lm/lmshm_sendrecv.cpp:26-35 | Removes the first entry with the request's id. |
| ShmFraming.ShmRequest.WaitComp | src/lm/lmshm_sendrecv.cpp:286-310 | Waiting for an arrived frame of positive length ends: body in place, status by comparing lengths, one entry removed, the next frame untouched. |
| ShmFraming.HeaderTellsLength | src/lm/lmshm_sendrecv.cpp:10-15 | The length read from the received header is the one sent. |
| ShmFraming.HeaderFields | src/lm/lmshm_sendrecv.cpp:10-15 | The first eight bytes of a header are the id of the send, the next eight zero, the last eight the length of the body. |
| ShmFraming.LookOn | src/lm/lmshm_sendrecv.cpp:206-260 | A look leaves the request in step with its frame or ends it; an error of the kernel is the only failure. |
| ShmFraming.StrayLook | src/lm/lmshm_sendrecv.cpp:206-260 | A look at a request that waits for nothing, with bytes there, fails it and reads nothing. |
| ShmFraming.FrameAlignment | src/lm/lmshm_sendrecv.cpp:60-134 | For every arrival and every partial receive the request consumes exactly one header and one body, Success when the lengths match and LengthError otherwise, and leaves the queue once. |
| ShmFraming.EmptyNeverCompletes | src/lm/lmshm_sendrecv.cpp:224-225 | With an empty body no run without errors completes. |
| ShmFraming.CompletesExactly | src/lm/lmshm_sendrecv.cpp:206-260 | Some run without errors completes if and only if the body is not empty. |
| ShmFraming.SubmitSend | src/lm/lmshm_sendrecv.cpp:37-58 | Succeeds exactly when both parts went out whole; otherwise the bytes the kernel took of header and body, and no others, are on the stream. |
| MemTable.PutGoesThrough | src/vivm/api/ivm_memory.cpp:97-112 | A put from any address goes through if and only if a mapping contains the address and the range fits its master, and writes the same offset range there; agent and link refuse nothing else. |
| MemTable.SoundExactlyUpToHalf | src/vivm/api/ivm_memory.cpp:97-112 | Lookup and range check together admit only ranges inside the mapping found if and only if no mapping has more than 2^63 bytes. |
| Ranges.LargeRegionAdmits | src/vivm/api/ivm_memory.cpp:110-112 | The failing input: the largest put at the last address of a larger region. |
| Ranges.SyncPutAdmits | src/vivm/api/ivm_memory.cpp:97-112 | The API's check alone: what it admits, wrap-around included, and the offset it answers. |
| Ranges.RemoteWriteAdmits | src/vivm/agent/agent_threads.h:200-220 | The agent's check alone, likewise, and the address it answers in the master. |
| Ranges.LinkAdmits | src/ch/channel_remote.cpp:402-416 | The link's check alone, likewise. |
| Ranges.ChecksCompose | src/vivm/agent/agent_threads.h:205-220 | For an address inside the entry none of the three checks wraps around, and they admit exactly what fits entry and master. |
| InetCluster.HappenedSound | src/lm/lminet_handler.cpp:613-628 | Whatever one of the connections of a process can do, the others can take as a store of the program; all keep their invariants and go on seeing one memory. |
| InetCluster.LandingBytes | src/lm/lminet_handler.cpp:613-628 | The bytes that land are those of the remote write that is read in the end at this place of the stream. |
| InetCluster.Simulate | src/lm/lminet_handler.cpp:613-628 | Every run of any number of connections into one process is, in a region where only remote writes store, a run of in-order, once-only deliveries of the puts that are read in the end. |
| InetCluster.PutsMerge | src/vivm/agent/agent_local_handler.cpp:411-421 | Puts of different mirrors that share no place: with none half delivered, the master has in each mirror's places what that mirror's puts alone would have left there, and elsewhere its old content. |
| InetCluster.MasterDetermined | src/vivm/agent/agent_local_handler.cpp:411-421 | Any two such runs that deliver the same puts leave the same master. |
| InetCluster.LastWriteStays | src/lm/lminet_handler.cpp:613-628 | In terms of frames alone: where a remote write is the last of its mirror to cover a byte, the master holds that frame's byte, and every connection sees it. |
| Puts.DisjointPutsCommute | src/lm/lminet_handler.cpp:613-628 | Of deliveries alone: drained, for every chunking and interleaving, the master holds each mirror's puts as if that mirror were alone, and its old content elsewhere. |
| Puts.ChunkIsArrival | src/lm/lminet_handler.cpp:613-628 | A delivered chunk is the handler's RemWr step on the master's memory. |
| Puts.LastPutStays | src/lm/lminet_handler.cpp:613-628 | A mirror's puts one after the other leave at each place the byte of the last that covers it. |
| Puts.OrderDoesNotMatter | src/vivm/agent/agent_local_handler.cpp:411-421 | Of deliveries alone: two complete deliveries of the same puts leave the same master. |
| MemTable.Table.RegisterMemEt | src/vivm/api/ivm_internal.h:125-140 | Ordered insertion; an address already registered keeps its entry. |
| MemTable.RegisteredTwice | src/vivm/api/ivm_internal.h:125-140 | Registering an address again changes nothing. |
| MemTable.Table.FindMemEt | src/vivm/api/ivm_internal.h:142-174 | An entry with this very base address, or else the first entry in order that the scan takes to hold the address, or else nothing. |
| MemTable.FindIsContainment | src/vivm/api/ivm_internal.h:142-174 | For regions that share no byte the search returns the one region that contains the address, or nothing when none does, at every address if and only if every region is non-empty and ends inside the address space or starts at its last address. |
| MemTable.SaneRight | src/vivm/api/ivm_internal.h:146-165 | One direction, address by address: key and scan together answer right. |
| MemTable.WrongSomewhere | src/vivm/api/ivm_internal.h:156-165 | The other: an empty or wrapping region makes some answer wrong. |
| Marshal.MarshalProgArg | src/vivm/api/ivm_internal.h:79-89 | The buffer holds the arguments with their terminators and zeros behind. |
| Marshal.UnmarshalProgArg | src/vivm/agent/agent_remote_handler.cpp:322-336 | Every offset and its terminator lie inside the buffer, the first is 0, each next one is the one before plus its string plus one, the strings there are those found one after the other, and a null entry ends the list. |
| Marshal.PackedOffset | src/vivm/agent/agent_remote_handler.cpp:322-336 | In a packed buffer argument number i lies behind the total length, terminators counted, of the arguments before it. |
| Marshal.RoundTrip | src/vivm/agent/agent_remote_handler.cpp:322-336 | Unpacking a packed buffer with the same count gives back every list of arguments that fits, empty strings included. |

## Left out

- Disconnects: a closed connection drops its table entry with any request in it (src/lm/lminet_handler.cpp:682-698), so every run here is one without.
- Sockets, epoll, verbs, shared memory, process creation and threads: they appear as byte counts, arrived bytes, a completion queue and atomic steps at lock granularity.
- Remote reads while the peer has a request of its own on the connection, or unread bytes lie in the reply direction: replies carry no header, so the program may not start one then, and `InetNet.MaySubmit` says so.
- Recv buffers shorter than the message: the body loop looks only at the sender's length (src/lm/lminet_handler.cpp:592-601), so a store past the modelled memory is not modelled.
- The context pointer of a request: it stands for the file descriptor in the model's tables.
- `Queue<T>::PopTail`: it stores the result of a function that returns nothing and nobody calls it.
- `InetHandler.InetConnection.HandleConnectionIn`: the order in which one handler visits its connections and its epoll events is any order here.
- `lmInetGetComp`: it reports success on an empty queue without a completion; `lmInetWaitComp` is modelled.
- `lmRdmaSendUnbuffered`, `HandleMemGet`, `HandleMemUpdate`, agent-to-agent maps: unfinished in the source or answered twice.
- LaunchProgress.NoDeadlock: at most one spawn request per group fails, which `SpawnLoop` shows to be the most the code bears, and devices can be created when the head of a list is tried. That the job's thread in fact keeps turning its list is fairness and not stated.
- Launch.Next: the launch, exit and spawn handlers are single steps on values; the request and answer messages between scheduler and agent, and a PE that exits before it is registered, are inside one step.
- LaunchTheorems.AckMeansWholeTree: groups whose PEs are killed are not part of the launch protocol; kill and respawn are in `PeTable`.
- SpawnLoop.GroupThread.Routine: the exits of a round are taken together; the source blocks where `hung` is returned.
- PeTable.StepPlaces: an exit notice is one step here; that `unregister_pes` looks again is in `Group.UnregisterIds`.
- PeTable.SearchExactly: a thread that takes the PE out again between two looks is covered by `Group.FindLate` but not by the condition.
- InetTable.RequestDesk.RetrieveFdFromQueue: which descriptors epoll refuses at the start is given; a refused one has a connection that reports no input.
- InetCluster.PutsMerge: puts that are not read to the end when the run stops are excluded by `Settled`, and the master is a region in which only remote writes store, which `PutsOnly` says of the run.
- MemTable.PutGoesThrough: the memory handle of a mapping covers the mapping, and mirror and mapping have one size.
- `schedWaitEvent`, `schedPollEvent`, `queue_event`: a first-in-first-out list with an event mask; waiting assumes no spurious wakeup (src/vivm/sched/sched_api.cpp:162-164).
- Completions.InetWaitComp: the loop runs alone and its completion has arrived; `MustEndExactly` says when that is needed.
- ShmFraming.FrameAlignment: the frame fits the memory behind the receive address; a longer message than the request's length is then written whole before LengthError is reported, as in the source.
- Marshal.RoundTrip: arguments that do not fit the 128-byte buffer overflow it in the source and are not modelled.
- `HandleMemPut` on a master copy: answers success and writes nothing.
- Connection set-up, channel dispatch, settings, tracing, the sl_simple and sl_main schedulers, thread_sleep and thread_wake, and the tearing down of groups and jobs: thin or without further properties.
