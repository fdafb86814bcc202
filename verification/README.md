# btpd in Dafny

A model of the BitTorrent daemon btpd, with proofs. Everything is written against the C code; where code and
comment disagree the code was followed. The modules follow the program's files:

- **Piece and block scheduler** (`Lists`, `Peers`, `NetState`, `Requests`, `Withdrawals`, `Invariant`, `Blocks`,
  `Orders`, `Downloader.dfy` with module `Scheduler`, `Theorems`): `btpd/download_subr.c`, `btpd/download.c` and the request,
  interest and queue parts of `btpd/peer.c`. Class `Scheduler.Downloader` holds the state of one torrent's `struct net`
  in one record, and its methods are the functions of the source. `Invariant.Inv` is what holds between events;
  `Downloader.Run` shows it of every reachable state, `Blocks.Effect` says what each event does, and `Theorems` says what
  the invariant means for requests, want levels, interest messages and end game.
- **Wire** (`Wire`, `Framer`, `Buffers`, `Queues`, `Outgoing`): the incremental parser of `btpd/net.c`, the encoders and
  readers of `btpd/net_buf.c`, and the output queue of `btpd/peer.c` and `net_write`. `Outgoing.Session` joins the two
  ends: what one side says, the other side's parser understands.
- **Content on disk** (`Sizes`, `Streams`, `Content.dfy` with module `Contents`): the sizes of pieces and blocks in
  `btpd/torrent.c`, the multi-file stream of `misc/stream.c` and the content manager of `btpd/content.c`.
- **Containers** (`HashTable.dfy` with module `HashTables`, `TimeHeap.dfy` with module `TimeHeaps`): `misc/hashtable.c`
  and `evloop/timeheap.c`.
- **Bencoding** (`Bencode`): `misc/benc.c`.
- **Choker** (`Choker`): `btpd/upload.c`. **Tracker tiers** (`Tracker`): `btpd/tracker_req.c`.

How the source's state appears in the model:

- Peers, pieces and requests are held by identifier; intrusive lists are sequences, bit fields are sets or sequences of
  bytes, counters are kept beside the sets they count. `dl_find_piece` is a map lookup.
- A peer's `Peers.Record` is history that the source does not keep: which requests were answered, which became void and
  which were swept from the queue, and how many have messages and other messages were put into the stream. The
  invariant ties it to the messages written and queued.
- Random draws, hash verdicts, rates, the number of bytes read or written, and whether a tracker request must wait are
  inputs or nondeterministic choices. SHA-1 is an arbitrary function.
- The place of a request's buffer in the output queue, which the source finds by comparing addresses, is a
  nondeterministic choice among the buffers that could be it.
- `Framer.Env` stands for the rest of the program as the parser sees it: which torrents are known and how they are cut,
  which peer ids are taken, which pieces are had and whether the peer is choked when a message is handled.
- The choker's `qsort` is an insertion sort; what is promised of its result (`Choker.RatePass`) holds of every order by
  rate, however equal rates are arranged.

Standing assumptions of the scheduler, all in `Invariant.Enabled` or in the constructor: piece indices are in range,
every piece has a block, a bit field comes as the first message of a peer that chokes us, every piece that is tested has
its hash, and disk operations succeed.

## Model

| member | source | states |
|---|---|---|
| `Scheduler.Downloader.Run` | btpd/download.c:9-191 | After any sequence of events (peers come and go, have, bit field, choke, unchoke, blocks, writes, other messages queued and withdrawn) the invariant holds; stored blocks and verified pieces stay, end game stays on. |
| `Scheduler.Downloader.Handle` | btpd/download.c:9-191 | One event keeps the invariant, has the effect listed for it in `Blocks.Effect` and no other, loses nothing stored, never leaves end game, and if it begins end game then afterwards every missing block has been asked for. |
| `Theorems.NoIdleCapacity` | btpd/download_subr.c:407-421 | Outside end game an unchoked peer with fewer than ten requests is not wanted, and every missing block of every piece it has is outstanding at some peer. |
| `Theorems.NoIdleCapacityEg` | btpd/download_subr.c:555-572 | In end game such a peer has itself been asked for every missing block of every piece it has. |
| `Theorems.ExactWantLevel` | btpd/peer.c:260-303 | A peer's want level is the number of its pieces that still have a missing block nobody was asked for; in end game, of its missing pieces. So the assertions of peer_want and peer_unwant hold. |
| `Theorems.WantedMeansUnrequested` | btpd/download_subr.c:219-223 | A piece is neither verified nor full exactly when some block of it is missing and outstanding at no peer. |
| `Theorems.EndgameOnTime` | btpd/download_subr.c:225-241 | While end game is off and content is missing, some missing block is outstanding nowhere; once it is on, every missing piece is in getlst. |
| `Scheduler.Downloader.ShouldEnterEndgame` | btpd/download_subr.c:225-241 | The scan answers yes exactly when no piece is left to start or to fill. |
| `Scheduler.Downloader.EnterEndgame` | btpd/download_subr.c:271-311 | Entering frees every block for further requests, sorts getlst, wants every missing piece of every peer and leaves no capacity idle; nothing outstanding is lost. |
| `Theorems.NothingWantedMeansAllRequested` | btpd/download_subr.c:382-390 | Outside end game nothing is wanted exactly when every missing block is outstanding. |
| `Scheduler.Downloader.PieceUnfull` | btpd/download_subr.c:407-421 | Raising the want levels and reassigning after a piece became unfull never begins end game, only adds requests, and leaves no peer with room that has a wanted piece. |
| `Scheduler.Downloader.PieceAssign` | btpd/download_subr.c:456-474 | After asking a peer for blocks of a piece the piece is full or the peer laden, want levels follow, and end game has begun exactly when this was the last piece to fill. Blocks are asked for in turn from next_block on, and none is passed over that could have been asked for. |
| `Scheduler.Downloader.AssignRequests` | btpd/download_subr.c:487-515 | The peer ends laden, or has no piece that is wanted, or end game has begun with every missing block outstanding. Busy pieces are asked for in the order of getlst; pieces are started only when nothing is left of those, no piece that could be started is rarer than one that was, and they follow in getlst by piece_count. |
| `Scheduler.Downloader.UnassignRequests` | btpd/download_subr.c:517-552 | Every request of the peer is taken back, all other peers have been offered the freed blocks, and end game has not begun. |
| `Scheduler.Downloader.AssignEg` | btpd/download_subr.c:574-599 | In end game the peer ends laden or asked for every missing block it has; it is asked for a piece only when asked for all that is missing of its less loaded pieces; getlst holds the same pieces in order. |
| `Scheduler.Downloader.UnassignEg` | btpd/download_subr.c:601-639 | In end game every request of the peer is taken back and getlst holds the same pieces in order. |
| `Theorems.EndgameOrder` | btpd/download_subr.c:243-269 | In end game getlst holds exactly the missing pieces, each once, by requests per missing block. |
| `Scheduler.Downloader.InsertEg` | btpd/download_subr.c:243-262 | The piece comes before all more loaded pieces of getlst and behind all others, and nothing else moves. |
| `Theorems.RequestLedger` | btpd/download.c:143-191 | A piece's counters are the sizes of what they count, stored and requested blocks are disjoint, its list and the peers' lists hold the same requests, each once; outside end game a block is outstanding at one peer at most. |
| `Theorems.PeerLedger` | btpd/peer.c:188-195 | A peer has at most ten requests, each once, none while it chokes us, and only for missing blocks of listed pieces. |
| `Theorems.RequestProtocol` | btpd/peer.c:188-232 | Every open request has been put into the stream of messages for its peer with no cancel behind it; every other request in the stream, or swept from it, is matched by a cancel, an answer or a choke that made it void. |
| `Theorems.HavesAreRecorded` | btpd/download.c:71-90 | The have messages in the stream for a peer are, piece by piece, those of its record, to which only a completed piece adds. |
| `Scheduler.Downloader.OnPiece` | btpd/peer.c:520-542 | A block that was asked for is stored exactly once and verifies the piece exactly when it was the last; then each attached peer that lacks the piece is told so once. The request is answered, requests for other blocks stay, and no other record changes, so that every other request for the block is cancelled or withdrawn; any other block changes nothing. |
| `Scheduler.Downloader.OnChoke` | btpd/peer.c:439-456 | The choking peer is left without requests, those not yet begun are gone from its queue, its pieces are offered to others, and no request or message of another peer is lost. |
| `Scheduler.Downloader.OnUnchoke` | btpd/peer.c:458-468 | Requests are only added, and pieces that are started are the rarest that the peer has. |
| `Scheduler.Downloader.OnLost` | btpd/download.c:130-141 | The lost peer is gone from every list and count, and its blocks have been offered to others. |
| `Scheduler.Downloader.OnBitfield` | btpd/peer.c:506-518 | Announcing the pieces one by one, while the bit field already shows all, keeps the invariant and all requests. |
| `Theorems.InterestProtocol` | btpd/peer.c:260-303 | Of all messages sent or queued to a peer the interest messages alternate, beginning with interest, and the last is interest exactly when the peer is wanted or has requests; PF_DO_UNWANT is set exactly when it is unwanted with requests out. |
| `Peers.WantTells` | btpd/peer.c:260-284 | Wanting a peer changes what it is told exactly when it was told uninterest last: interest is queued, or the queued uninterest withdrawn. |
| `Peers.UnwantTells` | btpd/peer.c:286-303 | Unwanting a peer tells it uninterest exactly when neither a wanted piece nor a request is left. |
| `Peers.NoReqsTells` | btpd/peer.c:393-401 | The end of the last request tells uninterest exactly when it was owed. |
| `Peers.CancelRequest` | btpd/peer.c:214-232 | A cancelled request leaves the list and its message is withdrawn or a cancel for it follows; no other message is touched and the interest messages still alternate. |
| `Theorems.PieceCounts` | btpd/download.c:130-137 | piece_count is the number of attached peers that have the piece. |
| `Scheduler.Downloader.ChooseRarest` | btpd/download_subr.c:337-375 | A piece is found exactly when the peer has one to start on; it is startable, no startable piece is rarer, and it is the draw-th of the rarest. |
| `Framer.FramingIgnoresChunks` | btpd/net.c:391-458 | However the input is split into reads, parsing it chunk by chunk leaves the state, log and counts of parsing it whole. |
| `Framer.CountsBlockBytes` | btpd/net.c:310-317 | downloaded is the number of block bytes received, of whole blocks and of the part of the last one. |
| `Framer.RecoversAll` | btpd/net.c:319-387 | From rest, the encodings of any messages the handlers accept are parsed to exactly those messages, and the parser is at rest again. |
| `Framer.RecoversShake` | btpd/net.c:322-347 | The hand shake is recovered on both sides of a connection. |
| `Framer.RequestLaw` | btpd/net.c:252-267 | A request ends the connection exactly when the peer is interested and unchoked and the block is too long, of no piece, of a piece we lack, or ends past its piece in a 32-bit sum. |
| `Framer.FieldLaw` | btpd/net.c:246-251 | A bit field ends the connection exactly when a piece had been announced before. |
| `Framer.HeadLaw` | btpd/net.c:286-308 | A head of the wrong number or length ends the connection before its body is read; any other keeps it and awaits the body. |
| `Framer.BlockLengthLaw` | btpd/net.c:366-371 | After the head of a piece its index and begin are read and the length of the block follows from msg_len in 32 bits, also when that wraps around. |
| `Framer.ShakeLaw` | btpd/net.c:322-347 | Of 68 bytes exactly those are taken that name the protocol, an active torrent or the one asked for, and a peer id that is not taken. |
| `Framer.Connection.NetRead` | btpd/net.c:391-458 | The two-part read with its loop is one step of the parse of everything at once, of which the laws above say what it takes and refuses. |
| `Framer.Connection.Run` | btpd/net.c:391-458 | A run of reads, until the connection is given up, is the parse of all its bytes. |
| `Wire.DecodesNumber` | misc/subr.c:34-50 | A 32-bit number is read back from its big-endian bytes. |
| `Buffers.PieceHeadRead` | btpd/net_buf.c:226-265 | Index, begin and length of a piece message are read back from its head. |
| `Buffers.CreateMultiHave` | btpd/net_buf.c:146-160 | The buffer is the have messages of exactly the pieces we have, in order. |
| `Buffers.CreateShake` | btpd/net_buf.c:216-224 | The buffer is the encoded hand shake. |
| `Queues.WholeIsGood` | btpd/net_buf.c:49-194 | A buffer made by an encoder for a message of its own is good, is no half of a pair, and says that message. |
| `Queues.HavesRead` | btpd/net_buf.c:146-160 | Have messages packed into one buffer are read back one by one. |
| `Queues.WireIsPrefix` | btpd/net.c:126-223 | The bytes written are always a prefix of the encodings of whole messages: those gone and those still queued. |
| `Outgoing.OutQueue.NetWrite` | btpd/net.c:126-223 | On the wire come as many bytes as are written and offered: those of at most 1024 buffers with at most one block among them, and no more than the limit. What is said does not change, and requests are heard again exactly when an unchoke has left. |
| `Outgoing.OutQueue.Unsend` | btpd/peer.c:109-130 | A buffer is withdrawn exactly when no part of it has been written, and a withdrawn block is no longer counted. |
| `Outgoing.OutQueue.Choke` | btpd/peer.c:241-258 | Choking withdraws every piece message with its block but one that has begun, and keeps all other messages in order before the choke. |
| `Outgoing.WithoutPiecesSays` | btpd/peer.c:241-258 | What the withdrawal leaves of the queue says the messages that are no piece messages, in the same order. |
| `Outgoing.OutQueue.OnRequest` | btpd/peer.c:544-560 | A request queues its block, and with the 128th block a choke and an unchoke, after which requests are ignored until the unchoke is sent. |
| `Outgoing.OutQueue.OnCancel` | btpd/peer.c:562-579 | The first queued message that is the piece message of that block is withdrawn with its block unless it has begun; nothing else changes. |
| `Outgoing.OutQueue.CancelRequest` | btpd/peer.c:214-232 | A request still queued and not begun is withdrawn, else a cancel follows it. |
| `Outgoing.OutQueue.WithdrawRequests` | btpd/peer.c:448-454 | After a choke the queue says what it said without the requests, in the same order; only a request that has begun stays. |
| `Outgoing.OutQueue.Grow` | btpd/net_buf.c:207-214 | When the live piece field grows, a queued bit field shows the new bits but for bytes already written, and the wire is still a prefix of whole messages. |
| `Outgoing.ShowsExactly` | btpd/peer.c:419-427 | In either form, have messages or bit field, exactly the pieces we have are shown. |
| `Outgoing.OutQueue.Do` | btpd/peer.c:87-130 | Each thing done with the queue of a connected peer has the effect listed for it in `Did` and no other, keeps the queue consistent, hand shake and bit field at the opening, and words about interest alternating. |
| `Outgoing.OutQueue.Run` | btpd/peer.c:87-130 | Any interleaving of sends, withdrawals, chokes, requests, cancels, words about interest, field growth and partial writes keeps queue, wire, block count and uploaded bytes consistent, and the opening and the alternation with them; requests are ignored only while an unchoke is queued. |
| `Outgoing.TalkIsAccepted` | btpd/net.c:225-284 | What is said in that order net_dispatch_msg accepts, in the sense of `Framer.RequestLaw` and `FieldLaw`: the bit field is the first word about pieces. |
| `Outgoing.WireIsUnderstood` | btpd/net.c:319-387 | However the written bytes are read, the peer's parser accepts them, has handled a first part of the messages said, and all of them once the queue is empty; block bytes counted agree. |
| `Outgoing.Session` | btpd/peer.c:338-351 | From the hand shake on and over any run, every listening peer understands what was said and not withdrawn, hears interest and uninterest in turn, and sees a bit field between the field at the start and now. |
| `Sizes.PiecesSum` | btpd/torrent.c:52-61 | The pieces below k are k piece lengths, or the whole content for all of them. |
| `Sizes.BlocksSum` | btpd/torrent.c:63-79 | The sizes of a piece's blocks sum to the size of the piece. |
| `Streams.Stream.Seek` | misc/stream.c:45-70 | With or without the cached offset the cursor ends at that place of the stream: in the file that holds the byte, or at the start of an empty file right before it. |
| `Streams.Stream.Reopen` | misc/stream.c:79-97 | Before a byte is read or written a file that holds it is open at the cursor, past empty files. |
| `Streams.Stream.PutBytes` | misc/stream.c:116-157 | The bytes put are at their places over file boundaries and after short writes, and no other byte has changed. |
| `Streams.Stream.GetBytes` | misc/stream.c:72-114 | A get returns the bytes that are there, or fails exactly when one of them is missing. |
| `Streams.PutThenGet` | misc/stream.c:72-157 | What was put is got back, and what was there beside it is unchanged. |
| `Streams.RunIo` | misc/stream.c:72-157 | Over any sequence of puts and gets each get returns every byte as it was put last, or as it was at the start, and fails only if one was neither put nor there. |
| `Contents.Content.PutBlock` | btpd/content.c:252-305 | The bytes of the block are put at its place and zeros over the rest of the pieces that became positioned, and nothing else is written, so no byte of a verified piece or stored block; the block is counted. |
| `Contents.Content.Preallocate` | btpd/content.c:266-292 | Exactly the pieces of the group become positioned, g pieces to a group for the least g that makes up the allocation size; those that were not are filled with zeros to the last byte, and no other byte is written. |
| `Contents.Content.TestPiece` | btpd/content.c:229-250 | A complete piece becomes verified exactly when its bytes have its hash, else it has no blocks and its bytes are no longer counted; npieces_got stays below the number of pieces before. |
| `Contents.Content.Do` | btpd/content.c:220-305 | Starting a piece, a block or a test has the effect listed for it in `Did` and no other. Without preallocation as well as with it a block of a piece that was started can be put, since starting it positioned it; verified bytes stay. |
| `Contents.Content.Run` | btpd/content.c:220-305 | Over any run of started pieces, blocks and tests, verified pieces stay verified, their bytes stay as they are and have their hashes, ncontent_bytes is the sum of verified pieces and stored blocks, and with preallocation no byte of a piece positioned since is missing. |
| `Contents.StoreCounts` | btpd/content.c:301-302 | Storing a block adds its size to the content we have. |
| `Contents.VerifyCounts` | btpd/content.c:236-243 | Verifying a complete piece leaves the content we have as it is. |
| `Contents.Content.MarkRetest` | btpd/content.c:483-538 | A piece is marked for the test exactly when none of its bytes is missing from the files, and only the blocks of marked pieces are kept. |
| `Contents.Content.TakeStock` | btpd/content.c:381-430 | Whatever was resumed and tested, fields and counts are made to fit together, and the blocks of complete pieces that are not verified are forgotten. |
| `Contents.Content.CmStart` | btpd/content.c:483-538 | A test is run if forced or if the size or time of some file has changed; then exactly the pieces whose bytes have their hash are verified. Without one the resume data is kept as it is, and fields and counts fit together, whether or not it is true of the files. |
| `HashTables.HashTable.Insert` | misc/hashtable.c:94-101 | The new entry shadows older ones of its key, also when the table grows, which it does exactly when there are more entries than its ratio allows; nothing else changes. |
| `HashTables.HashTable.Grow` | misc/hashtable.c:69-92 | Growth keeps for every key its entries in their order, since chains are reversed before they are reinserted. |
| `HashTables.HashTable.Find` | misc/hashtable.c:103-112 | The latest live entry of the key is found, and nothing exactly when there is none. |
| `HashTables.HashTable.Remove` | misc/hashtable.c:114-128 | The latest entry of the key goes and the one before it comes into sight; other keys are untouched. |
| `HashTables.Iter.Sweep` | misc/hashtable.c:162-224 | An iteration mixed with deletions visits every entry exactly once and leaves exactly those that were not deleted. |
| `TimeHeaps.TimeHeap.Insert` | evloop/timeheap.c:91-108 | The handle gets its time and no other handle's time changes; heap order and back-indices are kept. |
| `TimeHeaps.TimeHeap.Remove` | evloop/timeheap.c:110-125 | The handle at the given place is gone and no other handle's time changes, also when it is in the last slot. |
| `TimeHeaps.TimeHeap.Change` | evloop/timeheap.c:127-137 | The handle has the new time and no other handle's time changes. |
| `TimeHeaps.TimeHeap.Top` | evloop/timeheap.c:139-143 | The top is the time of a live handle, and no live handle's is earlier in seconds and nanoseconds. |
| `TimeHeaps.TimeHeap.RemoveTop` | evloop/timeheap.c:145-152 | Removal through a temporary handle takes out the handle at the top, one of the earliest, and no other. |
| `TimeHeaps.TopIsLeast` | evloop/timeheap.c:41-72 | In heap order no entry is earlier than the first. |
| `Bencode.Validate` | misc/benc.c:17-81 | A buffer is accepted exactly when it is the encoding of a tree of the grammar. |
| `Bencode.Unambiguous` | misc/benc.c:28-81 | At a given place at most one tree is encoded. |
| `Bencode.Length` | misc/benc.c:108-133 | The length is that of the tree's encoding. |
| `Bencode.First` | misc/benc.c:144-149 | The first item of a list or dictionary is found, if there is one. |
| `Bencode.NextItem` | misc/benc.c:151-156 | The item behind a given one is found, if there is one. |
| `Bencode.Nelems` | misc/benc.c:135-142 | The number of items is counted. |
| `Bencode.DgetAny` | misc/benc.c:215-240 | The value of the first key that matches is found, whatever follows it, and nothing exactly when no key matches. |
| `Bencode.FirstKeyIsFirst` | misc/benc.c:215-240 | The key that the lookup uses matches and no key before it does. |
| `Choker.Uploader.Rechoke` | btpd/upload.c:30-94 | With m > 0 slots: the fastest peers with bytes flowing, by half the upload rate when we seed and by the download rate else, are picked until one slot is left among the interested, the rest go in queue order, peers that have everything are choked; at most m interested peers are unchoked, exactly m if an interested one that is not full stays choked. |
| `Choker.SlotsAreBounded` | btpd/upload.c:69-92 | The bound on slots follows for every choice of picked peers that keeps the rate pass. |
| `Choker.Uploader.ShuffleOptimists` | btpd/upload.c:96-108 | The queue is rotated to its first interested choked peer and is otherwise the same. |
| `Choker.Uploader.ChokeCb` | btpd/upload.c:110-119 | Every third time that peer, unless it is full, gets a slot whatever its rate. |
| `Choker.Uploader.OnNewPeer` | btpd/upload.c:121-138 | The peer comes to its drawn place in the queue and the slots are given anew: none stays empty while an interested peer that is not full is choked. |
| `Choker.Uploader.OnLostPeer` | btpd/upload.c:140-148 | If the peer had a slot, the slots are given anew, with none empty while one waits; else nothing else changes. |
| `Choker.Uploader.OnInterest` | btpd/upload.c:161-166 | New interest of an unchoked peer gives the slots anew; any other interest is only noted. |
| `Choker.Uploader.OnUninterest` | btpd/upload.c:168-173 | The slot of a peer that loses interest is given to a peer that waits, if there is one; else the change is only noted. |
| `Choker.Uploader.Run` | btpd/upload.c:121-173 | Over any run of ticks, peers and torrents that come and go, changes of interest and of rates, the number of interested peers served never exceeds the slots. |
| `Choker.Uploader.Handle` | btpd/upload.c:110-173 | Each event has the effect listed for it in `Handled` and no other, and whenever choke_do is run no slot stays empty while an interested peer waits. |
| `Tracker.Tier.Run` | btpd/tracker_req.c:88-158 | In every run an active tier waits for exactly one of an answer and its timer and has a tracker that did not fail; an inactive one waits for nothing. So abort and assertion are not reached. |
| `Tracker.Tier.Do` | btpd/tracker_req.c:114-158 | Each start, stop, completion, answer and expiry has the effect listed for it in `Did` and no other. |
| `Tracker.Tier.Result` | btpd/tracker_req.c:285-343 | A failed tracker is marked; the next that has not failed is asked, then one more round, then the timer with its delay or the end; an answer moves its tracker to the front and ends a stopping tier, else it sets the interval if it names one and the timer to it. |
| `Tracker.Tier.StopRun` | btpd/tracker_req.c:138-151 | Without a deferred request a tier of n trackers that is told to stop is inactive after at most 2n answers; every timer that begins a round anew allows n more, and there are no more of these than answers. |
| `Tracker.Tier.StopBounded` | btpd/tracker_req.c:114-151 | If at most one tracker has not failed, or the tier is given up at once, then it is inactive after at most 2n answers however requests are deferred. |
| `Tracker.Tier.StopUnbounded` | btpd/tracker_req.c:95-120 | In every other case there is no bound: with two trackers left, deferring each request for another than the first keeps a stopping tier active for any number of answers. |

## Left out

- Hash failures, block logs, suspicion and bans (`btpd/download_subr.c:27-154`, `btpd/peer.c:608-652`): a finished piece is
  then counted as got and as busy at once, and suspects skip PF_DO_UNWANT, so the invariant does not hold there.
- `Scheduler.Downloader.OnBitfield`: does not cover a peer that does not choke us, because end game may then begin inside
  the loop of `btpd/peer.c:506-518` and count a piece twice.
- `Outgoing.OutQueue.OnRequest`: does not cover requests of length zero, which `net_dispatch_msg` lets through
  (`btpd/net.c:258`). Their empty data buffer stays at the front of the queue, and if nothing else is queued the next write
  writes no byte and the peer is dropped (`btpd/net.c:184`).
- Disk errors: `dl_on_block` ignores the result of `cm_put_bytes`, and a failed stream leaves its cursor as it is.
- Torrent lifecycle, the torrent library, active file, HTTP, name lookup, event loops, IPC, options and logging.
- Aliasing of `struct net`, `struct piece` and `struct peer`: each is a value in one record-valued field of its owner, so
  that dangling or shared links are not modelled. Reference counts of network buffers are left out with them.
- Arrays for hash chains: a bucket array is an array, a chain is a sequence in it. `_htbl_fillv` and `_htbl_tov` are not
  modelled.
- Bandwidth limits and `writev`/`readv` failures: limits only shorten what is read or written at once.
- `m_tnext_req` and the delay of a deferred tracker request: whether a request is deferred is an input.
- `Bencode.Validate`: lengths are unbounded, so overflow of a length prefix is not modelled; nor is the stack depth.
- `Outgoing.Session`: that the other side has the pieces it is asked for while it serves us is assumed (`RequestsServed`).
  The scheduler and the output queue are separate models of the queue; they meet in the words about interest, which
  `Peers.WantTells`, `UnwantTells` and `NoReqsTells` show to be told in the order that `Outgoing.OutQueue.Do` asks for.
- `HashTables.HashTable.Insert`: the ratio of entries to buckets is a real number, without rounding.
- `Theorems.EndgameOnTime`: one-way, because once end game is on a choke can leave a missing block unrequested.
