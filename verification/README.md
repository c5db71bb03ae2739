# Verified model of the terminal runtime's stateful cores

This project models, in Dafny, the parts of the terminal runtime whose correctness
depends on state kept over a whole run, and proves what holds in every such run. Nothing
here executes the original program: each model follows the branches, constants and error
cases of the cited code, and the theorems are about the model.

| file | what it models |
|---|---|
| `Styles.dfy`, `Frames.dfy`, `Diff.dfy`, `Projection.dfy` | the frame encoder of the web client's server, its finite style table, history pages, and the browser that applies the messages |
| `PackedLists.dfy`, `PackedHeap.dfy`, `PackedPool.dfy` | the packed-page allocator: size classes, occupancy bitmaps, linked lists of partly full pages, unmapping |
| `Protocol.dfy`, `Channels.dfy`, `Endpoints.dfy` | guardian frames, their transport over a chopped byte stream, and the endpoints that send each kind once |
| `Cancellation.dfy`, `Cleanup.dfy`, `Retirement.dfy` | the TERM/KILL state machine with its anchors, the sweep, and the hand-over between sentinel, guardian and successors |
| `Handoff.dfy` | moving a descriptor between a dedicated reader and a shared worker, as steps of concurrent threads |
| `Replay.dfy` | bounded output retention and the observer whose ledger must balance |
| `Transfer.dfy`, `Journal.dfy` | the transfer order, quotas and leases, and the journal that evicts under pressure |
| `Wrappers.dfy` | a value that may be missing |
| `Histogram.dfy`, `Slope.dfy`, `Base64.dfy`, `InputQueue.dfy`, `AtomicUpdate.dfy` | latency percentiles, the least-squares fit, base64 decoding, the input queue with requeued writes, the weak compare-exchange loop |

`dafny verify dfyconfig.toml` checks everything.

How the models are built:

- An object whose methods update its fields is a class; its invariant is a predicate that
  every method keeps, and ghost fields hold the history the invariant speaks about (what
  was accepted, what was produced, what was delivered).
- Concurrency is a step system whose steps are the accesses other threads can interleave
  with (for retirement, a census together with what acts on it), and theorems quantify over
  all finite runs.
- A whole run is tied to its inputs: what was appended, said, requested or typed determines
  the history the theorem speaks about.
- The operating system, clocks and other sessions answer through parameters: the results
  of reads, writes, signals, scans and mappings are arguments of the step that meets them.

Where code and documentation disagree, the code is followed:

- `client/PROTOCOL.md` promises that styles beyond the 512th map to identifier 0. In the
  code every pass of the re-encode loop may restart the table once and the loop repeats
  after a restart, so above 512 distinct styles it never ends. `Styles.ReencodeEndsIff`,
  `Diff.DiffEnds` and `Diff.DiffEndsIff` give the exact condition, and
  `Projection.RainbowNeverEnds` a screen on which it fails.
- `encode_history` can reset the style table that screen rows still refer to, and
  `Sent.rows` is not cleared then. The `ready` that announces the reset also carries the size
  the session was opened with, whatever resizes came later, so it can cut lines short.
  `Projection.ServePage` says of each row exactly when it survives,
  `Projection.ResetShowsIff` says it of the whole screen, and
  `Projection.HistoryResetRecolours` gives a screen and a page for which it does not. A later
  `ready` from `Sent.diff` repairs the client, unless it holds lines beyond the very geometry
  that `ready` announces (`Diff.Sent.Diff`).
- A history message changes the client's row counts without `Sent` noticing. `Diff.Sent.Diff`
  says exactly when the counts are current afterwards, and `Projection.CountsGoStale` is the
  family of sessions in which they are not.
- An anchor's member may greet more than once, and its last greeting decides between pinned
  and rejected (`Cancellation.TickAnchor`).
- A sweep does not clear its reserved flags when it answers. A guardian that has sent Finish
  and sweeps on therefore still sees the peer flag when nobody is left in that group, until
  the peer is gone. `Cleanup.Run` and `Cleanup.FlagsExact` say exactly when a flag is that of
  the inventory, and the owner's census in `Retirement` allows for it.
- An allocation too large to be rounded up to whole pages aborts the process instead of
  failing like other allocations that cannot be met, and so does a small one whose new page
  would have more than 512 slots, as the smallest classes do on 32 and 64 KiB pages
  (`PackedPool.Pool.Alloc`, `PackedHeap.CutsByPageSize`).

## Model

| member | source | states |
|---|---|---|
| Styles.PassRestartsIff | client/server/src/wire.rs:228-276 | a pass restarts the table exactly when the styles already interned and those it encodes exceed 512 together; otherwise it interns exactly their union, numbered 1..n |
| Styles.PassKeepsNumbering | client/server/src/wire.rs:237-276 | through any sequence of interned styles, restarts included, live identifiers stay a bijection onto 1..n with n at most 512 |
| Styles.ReencodeEndsIff | client/server/src/wire.rs:419-445 | some pass comes through exactly when the first fits beside the interned styles or everything fits alone; then one of the first two does, otherwise all restart |
| Styles.ReencodeEndsIffScreenFits | client/server/src/wire.rs:419-445 | when the first pass covers the screen, ending depends only on the screen having at most 512 styles |
| Styles.InternMirrors | client/server/src/wire.rs:237-276 | a client map that mirrors the table after the pending announcements still does after one more style is interned |
| Styles.MirrorsLookup | client/web/terminal.js:523-525 | a client whose map mirrors the table resolves an identifier to the very style it was issued for |
| Styles.StyleTable.Intern | client/server/src/wire.rs:237-276 | the table and the identifier of one interned style, with the default style, a known style, the cap and the one restart per pass; what the key it is interned under looks like is stated by Frames.ResolvedLooks |
| Frames.AgreesShows | client/web/terminal.js:505-548 | a client that agrees with what the server remembers shows the remembered view cell by cell: text, width and resolved style |
| Frames.ResolvedLooks | client/server/src/wire.rs:188-205 | the style sent for a cell has no foreground exactly for the default one, the palette's entry for an indexed one and the colour itself for a direct one, the same for the background, every flag of the cell, and one fixed name for each kind of underline |
| Frames.ShowsDisplays | client/web/terminal.js:505-548 | a client that shows a view paints each of its cells with that cell's own text, width, colours, flags and underline, and has the view's size, palette, modes and cursor |
| Frames.ScreenWellCut | client/server/src/wire.rs:419-445 | once the view's cells run out for a row they do for every later one, and a row that is there is never empty |
| Diff.EncodeRow | client/server/src/wire.rs:295-312 | the row spells its cells with identifiers of the table, and the table is the old one with the row's styles interned in order |
| Diff.ScreenInFirstPass | client/server/src/wire.rs:356-445 | every style on the screen is already interned for a remembered row or encoded by the first pass |
| Diff.DiffEnds | client/server/src/wire.rs:419-445 | in every state at all, some pass comes through exactly when the first fits the table or the screen by itself does, and then one of the first two |
| Diff.DiffEndsIff | client/server/src/wire.rs:419-445 | in every state the client agrees with, the encode loop ends exactly when the screen has at most 512 non-default styles |
| Diff.UpdatedAgrees | client/server/src/wire.rs:446-501 | announcing the pending styles and sending the changed rows restores the agreement |
| Diff.TailDelivers | client/server/src/wire.rs:446-501 | the closing styles and frame messages are sent exactly when owed, and the client's row counts are then current exactly when a frame carries them or they already were |
| Diff.TailAgrees | client/server/src/wire.rs:446-501 | they bring a client whose lines are ready for them to show the view |
| Diff.OverflowSends | client/server/src/wire.rs:419-445 | a pass that overflows always has a row to send |
| Diff.SettledOwesNothing | client/server/src/wire.rs:474-501 | once a view was framed, another frame of it is owed exactly for other row counts |
| Diff.Sent.EncodePass | client/server/src/wire.rs:419-445 | one pass remembers every visited row, sends exactly the stale ones, and unless it restarted a client that was in agreement spells what is remembered |
| Diff.Sent.Encode | client/server/src/wire.rs:419-445 | the loop of passes ends with every row remembered and sent, from scratch exactly when the first pass overflowed |
| Diff.Sent.Diff | client/server/src/wire.rs:356-501 | any client that agreed before shows exactly this view afterwards and agrees again; so does one out of agreement that gets a ready, exactly unless it holds lines beyond that geometry; a ready is sent exactly for a new palette, a new geometry or an overflow; a frame exactly when something moved; without a ready no row already shown is resent; row counts are current exactly when a frame carried them or they already were |
| Projection.EncodeHistory | client/server/src/wire.rs:314-340 | the page is spelled by the shared table, row by row with the rows numbered from the page's start as far as 16 bits reach, and every cell looks like the page's own; a reset is reported exactly when page and table exceed 512 styles together, and without one the table only grows |
| Projection.PageEndsIff | client/server/src/wire.rs:321-338 | the page's re-encode loop ends exactly when the page has at most 512 styles, whatever is interned already, and then within two passes |
| Projection.PageKeepsAgreement | client/server/src/session.rs:187-225 | a page that only extends the table leaves the screen's agreement intact |
| Projection.ResetPaintsIff | client/server/src/wire.rs:321-338 | after a resetting page a line that was left whole is painted right exactly when the page numbers each of its styles as before |
| Projection.ResetKeepsRowIff | client/server/src/session.rs:187-216 | a remembered row is still there and painted right exactly when the reset's ready does not cut it and its styles keep their numbers |
| Projection.ResetShowsIff | client/server/src/session.rs:187-216 | the whole screen survives a reset exactly when the client has the opening geometry, the palette is the same and every row's styles keep their numbers |
| Projection.HistoryResetRecolours | client/server/src/wire.rs:321-338 | in every session that shows a red corner on a blank 64 by 24 screen, fetching eight rows of 512 other styles resets the table and leaves the client showing something else |
| Projection.FetchAfterProject | client/server/src/session.rs:187-225 | from a fresh client: the first answer shows that screen and the second breaks it |
| Projection.RainbowNeverEnds | client/server/src/wire.rs:419-445 | a line of 513 styles: from every agreeing state every pass restarts |
| Projection.CountsGoStale | client/server/src/wire.rs:474-501 | after a page with other row counts, projecting the framed view and counts again owes no frame, so the client keeps the page's counts |
| Projection.CountsWentStale | client/server/src/session.rs:167-360 | such a session from a fresh client: 24 rows, a page read at 32, 24 again |
| Projection.ServePage | client/server/src/session.rs:187-225 | a reset is reported exactly when the page overfills the table; without one the agreement stays; with one each remembered row is still there and painted right exactly when it is not cut and its styles keep their numbers; the page itself comes last and the client has the styles to paint every cell of it |
| Projection.Serve | client/server/src/session.rs:167-360 | for any mix of projections and history requests, after every answer at which the agreement was kept or restored the client shows the latest view cell by cell, each with its own text, colours, flags and underline, although unchanged rows are never resent and identifiers are recycled; a page is answered with a ready exactly when its styles do not fit beside those the client knows, and with all its rows, painted as they are |
| PackedLists.LinkKeepsLinked | experiments/native/packed-pages.h:36-40 | pushing a page keeps all eight lists well-formed doubly linked lists and no page on two of them |
| PackedLists.UnlinkKeepsLinked | experiments/native/packed-pages.h:41-46 | removing any page of a list keeps all eight lists well formed, with the head moved exactly when the page was first |
| PackedHeap.BlockInside | experiments/native/packed-pages.h:59-91 | every live block is 16-byte aligned and lies, header included, inside one live mapping of the fewest whole system pages, a small one clear of its page's six descriptor words and bitmap |
| PackedHeap.SlotPlace | experiments/native/packed-pages.h:15-30 | slots begin at the first multiple of 16 behind the six words and the bitmap, as many as fit follow, and a block lies two words into its slot, which is the smallest of the eight sizes that holds it |
| PackedHeap.BlocksDisjoint | experiments/native/packed-pages.h:59-91 | live blocks never overlap, headers included |
| PackedHeap.VacantSlotIsFree | experiments/native/packed-pages.h:80-84 | a slot whose bit is clear belongs to no live block |
| PackedHeap.OccupyOk | experiments/native/packed-pages.h:80-88 | taking a clear slot keeps every heap invariant: counts equal set bits, each set bit is one live block |
| PackedHeap.VacateOk | experiments/native/packed-pages.h:100-107 | giving a slot back keeps every heap invariant |
| PackedHeap.CutsByPageSize | experiments/native/packed-pages.h:72-77 | every class works on 4 and 16 KiB pages, all but the smallest on 32 KiB, all but the two smallest on 64 KiB |
| PackedHeap.AddPageOk | experiments/native/packed-pages.h:71-79 | a new page on granted memory that can be cut into 1..512 slots keeps every heap invariant |
| PackedHeap.DropPageOk | experiments/native/packed-pages.h:107-107 | unmapping a page with no occupied slot loses no live block |
| PackedHeap.AddLargeOk | experiments/native/packed-pages.h:63-67 | a large block on granted memory keeps every heap invariant |
| PackedHeap.DropLargeOk | experiments/native/packed-pages.h:92-99 | unmapping a large block removes that block only |
| PackedPool.MembershipChange | experiments/native/packed-pages.h:78-107 | after one page's count changes, the lists hold exactly the pages of their class with 0 < count < capacity again |
| PackedPool.AllFreed | experiments/native/packed-pages.h:47-58 | once every block is freed nothing is mapped or requested, as many mappings were undone as made, and all eight lists are empty |
| PackedPool.Class | experiments/native/packed-pages.h:31-35 | the loop finds the smallest class whose slots hold the size, or the largest class |
| PackedPool.FirstVacant | experiments/native/packed-pages.h:80-82 | a page below capacity has a clear bit, and the scan finds the first |
| PackedPool.Pool.Link | experiments/native/packed-pages.h:36-40 | the page joins its class list, no other list changes, and all stay well formed |
| PackedPool.Pool.Unlink | experiments/native/packed-pages.h:41-46 | the page leaves its class list, no other list changes, and all stay well formed |
| PackedPool.Pool.CountMapping | experiments/native/packed-pages.h:47-53 | the mapping is counted and the peak is the highest amount ever mapped |
| PackedPool.Pool.TakeSlot | experiments/native/packed-pages.h:80-90 | the block handed out is the first clear slot of the page, new and the only one added, and the pool's invariant, list membership included, is kept |
| PackedPool.Pool.ReturnSlot | experiments/native/packed-pages.h:100-108 | exactly this block is gone, and the pool's invariant is kept: partly full pages are listed and no empty page stays mapped |
| PackedPool.Pool.Alloc | experiments/native/packed-pages.h:59-91 | a new block of the requested size is live and nothing else changed, alone in fresh memory above 4096 bytes with its header, else in the first clear slot of the page its list offers or the first slot of a fresh page; memory is mapped exactly when it is needed, exactly as much as that, and counted; NULL and the abort come exactly in the cases the code gives, for every page size |
| PackedPool.Pool.Free | experiments/native/packed-pages.h:92-108 | exactly this block is no longer live, and counters, lists, bitmaps and mappings keep matching |
| Protocol.KindRoundTrip | scripts/guardian/protocol.rs:33-55 | a code decodes to a kind exactly when it is that kind's code |
| Protocol.KindCodes | scripts/guardian/protocol.rs:13-32 | the sixteen codes |
| Protocol.FromToLe | scripts/guardian/protocol.rs:70-80 | little-endian fields give back the number that was stored |
| Protocol.ToFromLe | scripts/guardian/protocol.rs:81-100 | and the bytes that were read |
| Protocol.DecodeIffEncoded | scripts/guardian/protocol.rs:70-100 | 32 bytes decode to a frame for a generation exactly when they are that frame's encoding and the generation is its own |
| Protocol.KnownRecord | scripts/guardian/protocol.rs:70-80 | one record byte by byte: magic, version, code, generation and four values, little-endian and in two's complement |
| Channels.BlocksAreFrames | scripts/guardian/protocol.rs:173-199 | whole records cut from a prefix of the encoded frames are those frames' encodings, in order |
| Channels.ReceivedIsPrefix | scripts/guardian/protocol.rs:138-207 | however writes and reads are chopped, the records read decode to the first frames queued, in order; a partial record is left exactly when the stream stops inside a frame; when all is drained all have arrived |
| Channels.Channel.Enqueue | scripts/guardian/protocol.rs:138-151 | a foreign generation is refused, a record already waiting is not queued again, a full queue blocks, otherwise the frame joins the end |
| Channels.Channel.Flush | scripts/guardian/protocol.rs:152-172 | whatever the stream answers, the bytes on the wire stay a prefix of the queued frames' encodings; each accepting answer moves at least one byte, and eight that take whole records empty the queue; an empty queue, a blocked stream, a zero write and a failure are told apart |
| Channels.Channel.Receive | scripts/guardian/protocol.rs:173-199 | the bytes read are records plus the part of one; a frame is answered exactly for a completed record that decodes; the end of the stream inside a record is an error |
| Channels.Channel.FinishReceive | scripts/guardian/protocol.rs:200-207 | the end of the stream is clean exactly when what was read is whole records |
| Endpoints.SendKeepsOnce | helpers/guardian/src/links.rs:24-36 | a frame is taken for sending only if its kind never was, or is Successor or Finish |
| Endpoints.Endpoint.Send | helpers/guardian/src/links.rs:24-36 | the frame is remembered as sent and pending exactly when the endpoint is healthy and writable and its kind was never sent, or may repeat with other values; otherwise nothing changes |
| Endpoints.Endpoint.Receive | helpers/guardian/src/links.rs:37-56 | the messages are the frames of the records just completed, and health is lost only to an ended stream, a failed read or a record that does not decode; what has arrived is read: at least a byte if the first read gives any, and between records with reads of whole ones exactly the first eight records, decoded up to the first that does not decode |
| Endpoints.Endpoint.Flush | helpers/guardian/src/links.rs:57-74 | a frame that no longer waits was taken by the channel, everything newly taken had been waiting, the first waiting one is taken whenever the channel can take it, and eight or all of them when nothing was left to send; what is queued is written, some of it by an accepted write and all of it by eight whole ones; writing stops for good only after a refused write, and an unhealthy endpoint writes nothing |
| Endpoints.HeardOnce | helpers/guardian/src/links.rs:24-74 | what a listener heard is a prefix of what the speaker queued, and holds each kind other than Successor and Finish at most once |
| Endpoints.Converse | helpers/guardian/src/links.rs:24-74 | over every run of sends, flushes and receives with any chopping: what is heard is a prefix of what was queued, all of it was said, and of each kind but Successor and Finish it is the first that was said, heard at most once; unless a write is refused no such first frame is lost; once nothing is under way everything queued has been heard; and with whole writes and reads, two flushes after the last frame said and a receive for every eight frames leave nothing under way |
| Endpoints.DrainedIsHeard | helpers/guardian/src/links.rs:24-74 | with no frame waiting and everything written and read, what was heard is what was queued, and every first frame of a kind is among it |
| Endpoints.HearSome | helpers/guardian/src/links.rs:37-56 | between records, whole reads add to what was heard every whole record that was written and not yet read, up to eight, and keep the listener healthy |
| Endpoints.EasyDrains | helpers/guardian/src/links.rs:24-74 | when every write and read goes through, two flushes after the last frame said and a receive for every eight of them leave nothing waiting, unsent or unread |
| Endpoints.SayLosesNone | helpers/guardian/src/links.rs:24-36 | saying a frame keeps it if it is the first of its kind, and displaces no frame that was |
| Cancellation.TickAnchor | helpers/guardian/src/anchor.rs:69-110 | an anchor never joins again and never comes back once finished, passes a command on at most once and none after KILL, and confirms TERM only on its own member's report after it was told to signal; its member's last greeting of eight pins or rejects it, a pinned one is told what is wanted, a report of TERM is taken, and an exit is reaped |
| Cancellation.DispatchSignals | helpers/guardian/src/cancellation.rs:90-117 | TERM is only ever the first signal, and KILL follows nothing or TERM |
| Cancellation.ConfirmOk | helpers/guardian/src/cancellation.rs:73-84 | a group counts as confirmed only after its own anchor applied TERM |
| Cancellation.AnchoredOk | helpers/guardian/src/cancellation.rs:135-152 | a new anchor keeps the anchors at two at most, for distinct groups |
| Cancellation.Canceller.Request | helpers/guardian/src/cancellation.rs:62-66 | KILL absorbs every later request |
| Cancellation.Canceller.TickAnchors | helpers/guardian/src/cancellation.rs:73-86 | every anchor is ticked, the unfinished ones stay in order, and a target counts as confirmed exactly if it did before or an anchor of its group has confirmed |
| Cancellation.Canceller.Tick | helpers/guardian/src/cancellation.rs:71-159 | whatever is requested is applied to the workload and every live anchor is asked for it; the TERM time is that of the tick that sent TERM, and at or after it plus grace KILL is applied; unless it cleans up or waits, a tick fixes the targets of TERM and starts the anchors that are missing; what may be reported is exactly what the system and the anchors said; the history only grows legally |
| Cancellation.Canceller.TakeEscalation | helpers/guardian/src/cancellation.rs:160-164 | an escalation that was made is reported, once and only after TERM and then KILL |
| Cancellation.Canceller.TakeTermApplied | helpers/guardian/src/cancellation.rs:165-176 | TERM is acknowledged at most once and only after the direct signal and both groups confirmed |
| Cancellation.Run | helpers/guardian/src/cancellation.rs:62-176 | over every run of requests, stops, ticks and reports: the signals sent are exactly those the events decide, a subsequence of TERM, KILL; an escalation is read exactly by the first read after a turn on which KILL followed TERM, arrived, and nothing was being cleaned up, so at most once; at most one acknowledgement is read, after TERM was delivered and members of both target groups reported it, all before that read |
| Cancellation.TermTimeStands | helpers/guardian/src/cancellation.rs:87-117 | once TERM is sent its time never changes |
| Cancellation.DeadlineKills | helpers/guardian/src/cancellation.rs:87-117 | a turn at or after the TERM time plus grace leaves KILL sent, whatever happened in between |
| Cancellation.KillHasCause | helpers/guardian/src/cancellation.rs:62-117 | KILL is sent only if somebody asked for it or a turn came at or after the TERM time plus grace |
| Cancellation.Acknowledge | helpers/guardian/src/cancellation.rs:71-176 | TERM is acknowledged when it should be: delivered, with both anchors started, both members greeting at one turn and reporting TERM at a later one before the deadline |
| Cleanup.RemembersMore | helpers/guardian/src/cleanup.rs:93-119 | the flags of a scan cover everything it has delivered so far |
| Cleanup.Sweep.Observe | helpers/guardian/src/cleanup.rs:93-119 | each observation sets exactly its own mark: unknown ones uncertain, members of the two reserved places their flag and no other, and any other member starts an anchor and ends the walk |
| Cleanup.Sweep.PeerGone | helpers/guardian/src/cleanup.rs:54-63 | the scan starts over and no peer group is reserved any more |
| Cleanup.Sweep.Retry | helpers/guardian/src/cleanup.rs:137-144 | everything the scan learned is forgotten and the next one waits 50 ms |
| Cleanup.Sweep.Step | helpers/guardian/src/cleanup.rs:70-136 | it is ready to retire only after one entire scan without an unknown observation, with no anchor started or outstanding, and the reserved flags are then exactly those carried into the scan and those of the own-group and peer-group members it saw; a scan that is not over has delivered and has still to deliver its whole inventory, 128 observations at a time; a fresh scan of fewer that finds nothing else is always answered so; an outstanding anchor is never forgotten |
| Cleanup.Sweep.AdditionalPeer | helpers/guardian/src/cleanup.rs:64-66 | what the scan remembers still covers what it saw once another helper is to be left alone |
| Cleanup.Run | helpers/guardian/src/cleanup.rs:54-144 | over every interleaving of steps, retries, joining and dying helpers: retirement is answered only on the entire inventory one earlier step opened, a census with nothing in between that starts the sweep over, however many steps the scan took; a flag in the answer is that of a listed member unless an earlier answer left it behind or a helper joined on the way; and it is answered at once when a fresh scan of a short inventory finds nothing left to do |
| Cleanup.FlagsExact | helpers/guardian/src/cleanup.rs:93-136 | where no earlier answer left a flag behind and no helper joined on the way, own and peer are set exactly if a listed process that is no helper is in that group |
| Cleanup.PromptFlags | helpers/guardian/src/cleanup.rs:70-136 | so they are for every sweep that starts over on a short settled inventory |
| Retirement.StepKeepsInv | helpers/guardian/src/guardian.rs:112-157 | every step of sentinel, guardian, successors, members and the system keeps the hand-over invariant |
| Retirement.RunKeepsInv | helpers/guardian/src/sentinel.rs:49-104 | the invariant holds in every state of every run |
| Retirement.MembersAreGuarded | helpers/guardian/src/successor.rs:108-147 | while a session member is alive, some helper that can still sweep is alive |
| Retirement.RetiringOwnerHoldsAll | helpers/guardian/src/guardian.rs:112-157 | when a census lets an owner retire, every live member is in that owner's own group |
| Retirement.OwnerActs | helpers/guardian/src/guardian.rs:123-157 | what an owner's census does, by the groups live members are in: in both, a successor takes over and the owner is parked; in the sentinel's alone, the sentinel is told to go; in its own alone, or nowhere with the workload settled, the owner goes and every member with it; nowhere and not settled, nothing changes |
| Retirement.FlagsByGroup | helpers/guardian/src/cleanup.rs:96-110 | the flags decided on say exactly which of the two groups hold live members |
| Retirement.EveryRunCanClear | helpers/guardian/src/successor.rs:59-148 | from every state of every run the helpers alone, without a crash, can bring the session to an end with no member and no helper left |
| Retirement.RetiringSentinelIsLast | helpers/guardian/src/sentinel.rs:49-104 | when a census lets the sentinel retire, no process is parked outside its group |
| Retirement.LastHelperTakesAll | helpers/guardian/src/successor.rs:42-53 | the last capable helper goes only by a retirement that kills a group holding every remaining member |
| Retirement.GroupGoes | helpers/guardian/src/sentinel.rs:49-104 | a kill by a sweep and the end of a helper take every member of that group, the helper whose group it is, and nobody else |
| Retirement.EmptyStaysEmpty | helpers/guardian/src/guardian.rs:112-157 | a session once empty stays empty |
| Handoff.Check | experiments/pty/src/handoff.rs:93-109 | the scan's checksum and mismatch count are those of the chunk at its absolute offset |
| Handoff.AcceptOk | experiments/pty/src/handoff.rs:93-109 | each single access of accept keeps delivered bytes, the chunk in hand, offset, checksum and mismatch count in order |
| Handoff.StepOk | experiments/pty/src/handoff.rs:195-275 | every step of producer, dedicated reader, worker and coordinator keeps the ownership invariant, each access of accept being a step of its own |
| Handoff.RunOk | experiments/pty/src/handoff.rs:291-392 | the invariant holds in every state of every run, across any number of parks and wakes |
| Handoff.DeliveryIsPrefix | experiments/pty/src/handoff.rs:93-113 | at any time at most one reader is at a descriptor and it owns it; delivered bytes are a prefix of the produced ones and counted exactly, although the counter is loaded and stored separately; checksum and mismatch count are theirs, ahead only by a chunk counted and not yet published, and the mismatch count is zero for a produced ramp and only for a delivered one |
| Handoff.StaleIsExact | experiments/pty/src/handoff.rs:213-221 | a worker's stale count is exactly the number of readiness events for sessions it did not own |
| Handoff.ParkedDelivers | experiments/pty/src/handoff.rs:213-221 | from every state of every run, an event for a parked session lets its idle worker read what is left and publish it in four accesses, and then all is delivered |
| Handoff.DedicatedDelivers | experiments/pty/src/handoff.rs:304-316 | so does a dedicated reader with one more read |
| Handoff.ParkCompletes | experiments/pty/src/handoff.rs:222-280 | a session between two reads can be parked with its idle worker: the reader ends, the worker adopts and acknowledges |
| Handoff.WakeCompletes | experiments/pty/src/handoff.rs:222-280 | and woken: the worker gives it up and acknowledges, and a dedicated reader starts |
| Replay.SuffixExtends | crates/domain/src/replay.rs:141-156 | dropping old bytes and taking a suffix of the new ones keeps exactly the newest bytes of the whole stream |
| Replay.Buffer.AppendWithLimit | crates/domain/src/replay.rs:141-156 | the stream grows by the chunk and the newest bytes within both limits are kept, or the offset is exhausted and nothing changes |
| Replay.Buffer.RetainAtMost | crates/domain/src/replay.rs:158-161 | the oldest bytes go, down to the bound, and positions stay |
| Replay.Buffer.ReleaseStorage | crates/domain/src/replay.rs:131-133 | every byte goes and positions stay |
| Replay.Buffer.Read | crates/domain/src/replay.rs:164-195 | errors in order; a gap exactly up to the oldest kept byte, nothing exactly at the end, otherwise the stream's bytes at the cursor up to the page limit |
| Replay.Observer.Next | examples/release_load_support/observe.rs:23-49 | each page continues at the cursor; what is delivered are the stream's bytes there and what is counted as gap is no longer retained |
| Replay.Observer.LedgerBalances | examples/release_load_support/observe.rs:23-49 | delivered bytes plus gap bytes equal the cursor |
| Replay.Poll | examples/release_load_support/observe.rs:23-49 | with anything happening between its reads, a poll that stops early has caught up and one that does not advanced eight times; the stream is what the appends in between made of it |
| Replay.Drain | examples/release_load_support/run.rs:111-116 | polling while behind ends with the cursor at the end of the stream |
| Replay.Run | examples/release_load_support/observe.rs:23-49 | over every interleaving of appends, cuts, releases and polls, the stream is every chunk that could be appended, in order, and the buffer its newest bytes, as many as limits and cuts left; delivered bytes plus gap bytes add up to its length; and every offset was delivered with the byte produced there or counted as lost and really is no longer retained |
| Transfer.SharedAndLocal | crates/application/src/projection/budgets.rs:152-175 | both halves are charged exactly when both have room, otherwise neither, and giving the lease back restores both |
| Journals.PopOk | crates/application/src/projection/journal.rs:208-212 | an evicted record's charge returns to both quotas unless a consumer still holds it |
| Journals.DropHeldOk | crates/application/src/projection/budgets.rs:176-183 | a consumer's last clone returns the charge unless the journal still has the record |
| Journals.EvictOk | crates/application/src/projection/journal.rs:208-212 | evicting the first record leaves a gap-free run one shorter, with the order's oldest position moved along |
| Journals.InsertOk | crates/application/src/projection/journal.rs:214-223 | a charged record extends the gap-free run to the boundary |
| Journals.HoleOk | crates/application/src/projection/journal.rs:224-228 | an event that could not be charged leaves nothing retained and all earlier cursors invalid |
| Journals.ReadTells | crates/application/src/projection/journal.rs:95-138 | a read is decided by the log of all events: resync before the oldest or the start, the very event at the cursor, and pending or end exactly at the boundary; the last resync of the code is never reached |
| Journals.ReadRefuses | crates/application/src/projection/journal.rs:95-138 | closed, unavailable, foreign and future cursors, each exactly when |
| Journals.NothingHeldNothingCharged | crates/application/src/projection/budgets.rs:152-183 | when journal and consumers hold nothing, nothing is charged |
| Journals.Journal.Open | crates/application/src/projection/journal.rs:79-94 | a new observer starts at the boundary, or the journal is closed, unavailable or out of identities and nothing changes |
| Journals.Journal.Follow | crates/application/src/projection/transfer.rs:52-61 | a follower that advances by each event's boundary gets exactly the next event, is told it caught up, or is told to resync exactly when that event is gone |
| Journals.Journal.Charge | crates/application/src/projection/journal.rs:187-213 | whatever other sessions and consumers do between attempts, the eviction loop ends with the record chargeable or nothing left; left alone it evicts nothing for a record that fits, and otherwise the last record it evicted had to go |
| Journals.Journal.Append | crates/application/src/projection/journal.rs:167-235 | an accepted event extends the log by one, charged the buffer of an output and nothing for a resize, and keeps the retained run gap-free; a refused one makes the journal unavailable; a closed, failed or sealed journal ignores it |
| Journals.AdvancedIff | crates/domain/src/projection/transfer.rs:99-133 | an event is accepted exactly if it is output of the same lifetime at a later offset or a resize to the next generation, and the counters have room |
| Journals.Journal.Remove | crates/application/src/projection/journal.rs:150-160 | with the last observer everything retained is given back and all cursors move to the boundary |
| Journals.Journal.End | crates/application/src/projection/journal.rs:236-246 | the first end that says how it came about stands, at the boundary after the last event of the log, and no event follows it |
| Journals.Journal.Close | crates/application/src/projection/journal.rs:247-254 | nothing is retained after closing |
| Journals.Run | crates/application/src/projection/journal.rs:79-254 | in every run of opens, reads, removals, appends, ends, closes and outside pressure, the log is exactly the events the steps append while the stream is open, every follower starts where it was opened and has applied exactly the events between its start and its cursor, once each and in order, and the quotas charge exactly what is still held |
| Histograms.Micros | crates/application/src/diagnostics/histogram.rs:85-85 | nanoseconds rounded up to microseconds, capped at 64 bits |
| Histograms.RankExists | crates/application/src/diagnostics/histogram.rs:34-34 | every rank from one to the number of samples has a sample |
| Histograms.RankUnique | crates/application/src/diagnostics/histogram.rs:34-34 | and only one value |
| Histograms.TotalCounts | crates/application/src/diagnostics/histogram.rs:36-45 | running totals of the buckets count the samples that fall into them |
| Histograms.PercentileUpper | crates/application/src/diagnostics/histogram.rs:29-47 | the loop always finds the bucket in which the total reaches the least rank that covers the percentage; none exactly without samples or outside 1..100 |
| Histograms.PercentileIsTight | crates/application/src/diagnostics/histogram.rs:29-47 | that bucket holds the sample of that rank, so its edge is never below it, at most 100 us above it outside the last bucket, and never above the maximum |
| Histograms.Histogram.Record | crates/application/src/diagnostics/histogram.rs:80-89 | a success becomes one sample in its bucket and moves the maximum; a failure is counted apart; full counters stay full |
| Histograms.Histogram.ResetQuiescent | crates/application/src/diagnostics/histogram.rs:69-76 | the histogram is that of no samples, and nothing is counted |
| Histograms.Histogram.Percentile | crates/application/src/diagnostics/histogram.rs:29-47 | the answer against the recorded samples: never below the sample at the least rank that covers the percentage, at most 100 us above it up to 102.4 ms, and never above the largest |
| Slope.FitIff | scripts/release/accumulation.py:37-46 | there is a fit exactly with four samples and some spread in time |
| Slope.NormalEquations | scripts/release/accumulation.py:42-49 | residuals of the fitted line sum to zero, also weighted by time |
| Slope.Decomposition | scripts/release/accumulation.py:42-49 | any line's squared error is the fitted line's plus what its height and tilt against it add |
| Slope.FitIsBest | scripts/release/accumulation.py:30-66 | the fitted line is the only one with the least sum of squared residuals |
| Slope.FitReports | scripts/release/accumulation.py:37-66 | what the fit reports for the line no other beats: its gradient, the residual variance with n - 2 degrees of freedom over the span as squared error, the part of the spread it removes, the mean, and the ranges of values and times |
| Slope.InsignificantIff | scripts/release/accumulation.py:60-66 | the squared comparison says that the gradient is less than three standard errors from zero, a zero error meaning a zero gradient |
| Slope.ExplainedIsFraction | scripts/release/accumulation.py:52-60 | explained variance lies in [0,1] and is one exactly when every point is on the line |
| Slope.ShiftKeepsFit | scripts/release/accumulation.py:86-97 | adding one constant to every value changes the mean and nothing else of the fit |
| Slope.OmissionIsHarmless | scripts/release/accumulation.py:86-102 | so a constant omission never changes whether a population is comparable, and a constant count is comparable |
| Base64.BuildLookup | client/server/src/main.rs:241-245 | the table gives each alphabet byte its value and marks every other byte missing |
| Base64.SymbolTable | client/server/src/main.rs:241-241 | the alphabet by characters |
| Base64.SkippedTable | client/server/src/main.rs:250-252 | padding and ASCII white space by characters |
| Base64.AccumulatorKeeps | client/server/src/main.rs:257-257 | the 32-bit accumulator is the whole number read so far modulo two to the 32 |
| Base64.ByteCut | client/server/src/main.rs:258-262 | the byte cut from it is the byte of the whole number at that place |
| Base64.DecodeBase64 | client/server/src/main.rs:240-265 | an error exactly for a character outside alphabet, padding and white space; otherwise the bytes are as many leading bits of the values as fill whole bytes |
| Base64.EncodedDecodes | client/web/terminal.js:24-28 | the bytes are the leading bits of their own encoding |
| Base64.RoundTrip | client/server/src/main.rs:240-265 | decoding gives back what was encoded by section 4 of RFC 4648, with or without padding, and with padding signs or white space anywhere |
| Base64.KnownEncodings | client/web/terminal.js:24-28 | the encoding gives the test vectors of section 10 of RFC 4648 |
| InputQueue.Requeue | client/server/src/session.rs:239-244 | the unaccepted tail stands in front of everything newer, in order |
| InputQueue.AnyProgress | client/server/src/session.rs:149-166 | whatever part of the chunk in flight the system already took, that part, the rest and the queue are in order |
| InputQueue.CourseStops | client/server/src/session.rs:246-261 | once the loop ended nothing that follows changes anything |
| InputQueue.Queue.Finish | client/server/src/session.rs:233-250 | the system has the reported count of bytes more, at most the chunk, and accepted bytes and queue are together the whole stream, also when the write failed |
| InputQueue.Queue.Submit | client/server/src/session.rs:251-261 | one chunk of at most the limit goes in flight when none is; a refused write ends the loop; otherwise nothing changes |
| InputQueue.Queue.Step | client/server/src/session.rs:149-281 | one turn leaves queue, write slot and accepted bytes exactly as the turn decides, keeps them together equal to everything that arrived, in order, and ends the loop only on a refused or failed write; a write goes on until it is finished, and otherwise as much as fits a chunk goes in flight, so that only replies wait while nothing does |
| InputQueue.QuietCourse | client/server/src/session.rs:233-261 | every turn that brings nothing, but the first, leaves a chunk less to accept, until nothing is left |
| InputQueue.Run | client/server/src/session.rs:149-281 | every run leaves what its turns decide; what the system accepted is always the beginning of what arrived, also after the loop ended, which happens only on a turn that refuses or fails a write; until then accepted bytes, the chunk in flight however far it is and the queue are together everything that arrived, in order; and if every write is admitted and finished, enough turns that bring nothing leave everything accepted |
| AtomicUpdate.StepKeepsInv | crates/atomic_update.rs:20-36 | in every interleaving, with spurious failures, each store applies its closure to the value the store before it left, and each thread is told exactly what its own stores found; a step that stores nothing leaves the value |
| AtomicUpdate.ScheduleOk | crates/atomic_update.rs:20-52 | the invariant holds after every schedule of any number of threads, and every closure that stored was passed by one of its calls |
| AtomicUpdate.CallEnds | crates/atomic_update.rs:20-36 | from the state after any schedule a call in progress ends with one attempt, refused or storing what its closure gives and told the value before, unless the value moved on since it looked, and then with two |
| AtomicUpdate.CallAlone | crates/atomic_update.rs:20-36 | a call that runs alone is done after one attempt |
| AtomicUpdate.ScheduleKeeps | crates/atomic_update.rs:20-52 | what every closure passed by a call keeps holds of the value after every schedule |
| AtomicUpdate.IncrementsOnly | crates/atomic_update.rs:20-52 | a schedule whose calls all increment stores nothing but increments |
| AtomicUpdate.ValuesSatisfy | crates/atomic_update.rs:20-52 | what every closure keeps holds of every value ever stored |
| AtomicUpdate.CountIsExact | crates/atomic_update.rs:20-36 | under every schedule whose calls all increment, the value counts the successes |
| AtomicUpdate.IssuedOnce | crates/atomic_update.rs:20-36 | under every such schedule no previous value is handed out twice, to one thread or to two |
| AtomicUpdate.NoneSkipped | crates/atomic_update.rs:20-36 | and none between the initial value and the value now is skipped |
| AtomicUpdate.QuotaHolds | crates/application/src/runtime/quota.rs:20-28 | acquiring and giving back in any interleaving never takes a quota above its limit |
| AtomicUpdate.QuotaAlone | crates/application/src/runtime/quota.rs:20-29 | a lone call acquires exactly what the limit leaves room for and gives back what it asks to |
| AtomicUpdate.Run | crates/atomic_update.rs:38-52 | the state is the one the schedule leads to, its stores are in order, and every closure that stored was passed by one of its calls |

## Left out

- Diff.Sent.Diff: requires that the encode loop ends at all, which is exactly `Diff.Ends` (Diff.DiffEnds).
- Projection.EncodeHistory: requires at most 512 distinct styles in the page, because its loop does not end otherwise (Projection.PageEndsIff).
- Projection.Serve: requires at most 512 styles on each screen; in agreement that is exactly when the answer comes. After a reset and until a `ready` it says nothing of the rows that are not resent.
- PackedPool.Pool.Alloc: memory is maps from addresses and a 64-bit bitmap word is 64 booleans; the answer of the system to a mapping request is a parameter, required to be aligned and clear of what is mapped; the page size is a multiple of 16.
- PackedPool.Pool.Free: the caller gives the size it allocated, as the header demands; clearing freed bytes and a failing unmap are not modelled.
- Channels.Channel.Receive: a read never gives more bytes than asked for.
- Cancellation.Canceller.Tick: times are naturals and the answers of signals, scans and anchor processes are parameters; the poll delay is not modelled.
- Cleanup.Sweep.AdditionalPeer: only between scans or while no second helper is known, as both its callers use it.
- Retirement.OwnerActs: for an inventory of exactly the live processes, taken before a Finish was sent.
- Retirement.StepKeepsInv: a completed census is one step with what acts on it, and a helper crashes only while another capable helper remains.
- Handoff.ParkedDelivers: one read may take all that is left; the size of the read buffer and the fairness budget of a drain are not modelled.
- Handoff.StepOk: memory is sequentially consistent and the 64-bit counters do not wrap; shutting workers down is not modelled.
- Replay.Buffer.AppendWithLimit: allocator capacity and a failing allocation are not modelled.
- Journals.Journal.Follow: wakers and the observer permits are not modelled; a record's clones count as held until the last one is dropped.
- Journals.Journal.Charge: the two halves of a lease, and the slot and the bytes of one attempt, are acquired in one step; a lease once taken is kept whatever others do, so an attempt spread over time has the same outcomes.
- Histograms.Histogram.Percentile: states its bounds for up to 2^64 - 1 samples and for a snapshot taken while nothing is recorded.
- Slope.FitIsBest: over the reals; rounding is not modelled, and the square of the standard error stands for its root.
- InputQueue.Queue.Finish: what the system accepted of a finished write is what it reports, at most the chunk.
- AtomicUpdate.Run: one atomic object with a single modification order; closures are pure.
- AtomicUpdate.QuotaHolds: what is given back was taken before, as the journal's leases are shown to do (Journals.PopOk, Journals.DropHeldOk).
- System calls, signals, `/proc` discovery, fork and exec, WebSocket, HTTP and JSON plumbing, React rendering, key and mouse encoding: environment or user interface.
- The libghostty bridge, terminal parsing, checkpoint encryption and storage: foreign code.
- Release, coverage, archive and gate scripts other than the fit; `judge` and `assess` branch on its fields.
- `inflight.rs`, `blocking.rs`, `owner.c`, configuration and counters: they would add members one branch deep.
