# A verified model of the peer-to-peer file sharing system

The repository is a BitTorrent-like system with two replicated trackers. Clients register, form groups and
announce files at a tracker; two trackers exchange their whole state so that either can serve alone; clients
fetch the pieces of a file from each other. This project models the parts where things can go wrong quietly and
proves what they promise.

**The replicated tracker.** `States` holds the four cross-referencing maps as one value and the union merge on
it. `Records` is the line format: what a record says, how a text is parsed, every text a state may be printed
as (one for every iteration order of every hash table), and the round trips. `Commands` gives the effect of every
client command and the representation invariant, and `Effects` says what each adds and removes, fact by fact.
`Tracker.TrackerState` is the mutable object with the real maps
and version counter; each of its methods is proved against `Commands` or `Records`, with `Persistence` holding
the loops it is built from. `Merging` is the algebra of merging arbitrary payload texts. `Replication` runs two
trackers and their links as a step relation with client commands, lost connections, and late or foreign messages;
`Acknowledged` shows that an acknowledged version stands for a delivered printout of the present state, and
`Quiescence` that the links fall silent, and only in agreement.

**Sessions and commands.** `Sessions` is the token table, `Dispatch` the path from the words of a message through
the session to the state, `Messages` what each raw message does to the facts, `Listings` the three listing texts,
`Connections` whole runs of one tracker with its client connections, `Lasting` what lasts over them, and `Provenance`
traces every group membership of such a run back to the logins behind it; `Replicas` does the same for two
trackers that merge each other's printed states.

**The transfer.** `Pieces` cuts, hashes and serves pieces. `Transfer` is one download: up to eight workers
interleaved step by step over queue, status vectors, output file and resume sidecar, with peers that may do
anything. `DownloadSafety` keeps its invariants, `Resume` draws the conclusions over any number of interrupted
attempts (crash safety, the finished file), `Unrepaired` follows a damaged last piece through later attempts,
`Termination` bounds every run, `Tries` counts who was tried for a piece before it was given up, and `Retry` is the
nested retry loop of one worker. `Reply` is the tracker's answer to a download request and the downloader's parser for it. `Journey` joins both halves: from the
bytes one client announces to the same bytes on another client's disk.

**Below both.** `Text` has tokens, lines and strict integers, `Framing` messages over reads and writes of any
size, `PeerPool` the peer server's connection queue, its workers and its shutdown.

Where several threads interleave (links, download workers, server threads) the model is a step relation on
values, because its subject is the transitions between atomic sections; where one thread changes an object or
runs a loop, the model is a class or a method proved against a specification function.

## Assumptions

- Digests, salts and tokens are abstract. A digest maps to white-space-free text and is otherwise any function.
  A received payload whose hash matches is assumed to be the piece, so no received payload collides; nothing is
  assumed about other inputs of the digest.
- Version counters do not wrap. `fsize + kPieceSize - 1` is computed without overflow
  (`src/tracker/main.cpp:206-207`); mathematically every size for which it would overflow is refused anyway, as
  its piece count exceeds an `int`.
- A critical section is one step, and so is one command of one connection, from its session lookup to its
  change of the state. Reading or writing one status is one step, and so is one 4-byte cell of the sidecar.
- Reads of a regular file return what is asked for, up to the end of the file.
- Texts are shorter than 2^63 characters and frames within the receiver's cap where a statement says so.
- In the theorems with a reliable peer that peer serves every request from a registry and a disk that hold the
  file, and local writes succeed.
- In the theorems about two trackers, state messages from elsewhere have no bad line and carry printable records
  with credentials; what others do is said below.
- Between two attempts at a download nobody else touches the output file or its sidecar.

## Where the code does not do what one would expect

Each of these is a theorem with the exact condition, and a case that shows it:

- An index entry without files is merged without counting as a change (`Merging.SilentMergeIff`,
  `Merging.EmptyIndexRecordIsSilent`), and a payload with a bad line keeps the records before that line without a
  new version (`Merging.RefusedPayloadLeavesItsPrefix`).
- A rejected snapshot is not forgotten: the tracker says it starts empty (`src/tracker/main.cpp:437-441`), and it
  is empty if and only if no record came before the bad line (`Merging.LoadedEmptyIff`,
  `Merging.RefusedSnapshotIsNotEmpty`).
- A refused state message moves no version, so the links see nothing to push; the trackers still agree if and only
  if the records before the bad line name nothing new (`Replication.RefusedMessageDisagreesIff`,
  `Replication.RefusedMessageUnnoticed`).
- A user called `-` loses the groups they own when the state is printed and read back (`Records.WireExactIff`,
  `Commands.DashOwnerLost`).
- A state message is merged whatever it says and whoever sends it. A text can be merged into every sound state if
  and only if its records make a sound state by themselves (`Commands.MergeSoundIff`); one that gives a group an
  unregistered owner is accepted all the same (`Merging.StrangerOwns`).
- The documentation calls merging independent of order (`docs/DECISIONS.md:158`). It is, as far as presence of
  users, groups, files and members goes (`Merging.MergeOrder`); the whole state is if and only if the payloads agree
  on the credentials, owners and file metadata the tracker did not have (`Merging.MergeOrderIff`,
  `States.TwoOwnersDoNotCommute`).
- A merge can list a user as both participant and applicant (`Commands.JoinSinglyListedIff`,
  `Commands.AcceptedAndStillWaiting`).
- Preallocation zeroes the last byte of an existing file on every run, so a restored last piece is damaged unless
  it ends in a zero byte (`Resume.PreambleKeepsSlots`, `Resume.OneByteSpoiled`). While its
  sidecar is not cut short no later attempt repairs it (`Unrepaired.NeverRepaired`). A longer file already at the
  output path keeps its tail (`Resume.AttemptsEnd`).
- The reply to a download request is misread for files called `SIZE`, `PIECES` or `PIECE_HASHES`, and for
  non-empty files called `HASH` (`Reply.ReplyRoundTripIff`, `Reply.FileCalledSize`).
- A user logged in over two connections becomes unreachable when one closes, though the other session is valid
  (`Connections.SessionsConnectedIff`, `Connections.TwoConnectionsOneUser`).

## Model

| member | source | states |
|---|---|---|
| Text.SplitArgs | src/common/message.cpp:11-19 | The stream loop yields exactly the maximal runs of non-space characters |
| Text.TokensOfSpaced | src/common/message.cpp:11-19 | Words printed with single blanks are split back into the same words |
| Text.TokensConcat | src/common/message.cpp:11-19 | Text cut at any white-space boundary tokenises piece by piece |
| Text.LinesOfUnlines | src/tracker/persistence.cpp:122-124 | Reading lines undoes printing lines |
| Text.LinesUnended | src/tracker/persistence.cpp:122-124 | A last line without its newline is read as a line |
| Text.BlankSkipped | src/common/message.cpp:11-19 | Each of the six white-space characters in front of words is skipped |
| Text.ParseLLIff | src/common/message.cpp:21-38 | A value is read if and only if the whole text is an optional sign and digits spelling it, within 64 bits |
| Text.ParseIntIff | src/common/message.cpp:40-51 | The same within 32 bits |
| Text.ParseShow | src/common/message.cpp:21-51 | Strict parsing inverts decimal printing on the whole 64-bit range |
| States.JoinAssociative | src/tracker/persistence.cpp:130-221 | The union merge of states is associative |
| States.JoinAbsorbs | src/tracker/persistence.cpp:130-221 | Re-merging what was merged, or the echo of what was sent, changes nothing |
| States.JoinCommutesIff | src/tracker/persistence.cpp:130-221 | The merge commutes if and only if both sides agree on whole accounts (credentials, address, connection), on owners and on file metadata |
| States.JoinOrderIff | src/tracker/persistence.cpp:130-221 | Merging two states in either order gives the same state if and only if they agree on what was not there: accounts, owners, file metadata |
| States.TwoOwnersDoNotCommute | src/tracker/persistence.cpp:154-179 | Two states whose merges disagree: one group, two owners |
| States.JoinExtends | src/tracker/persistence.cpp:130-221 | No credential, non-empty owner, metadata or set member already present is lost or overwritten |
| States.HasJoin | src/tracker/persistence.cpp:130-221 | The facts after a merge are exactly those of either side |
| States.JoinUnchangedIff | src/tracker/persistence.cpp:130-221 | A merge is a no-op if and only if it brings no fact and no index key |
| States.CoveredJoin | src/tracker/persistence.cpp:206-220 | Without new facts a merge can only add empty index entries |
| Records.ParseOwnLine | src/tracker/persistence.cpp:125-220 | Every printed record line parses back to the record |
| Records.ParseOwnText | src/tracker/persistence.cpp:110-225 | Every printed text is accepted and parses back to its records in order |
| Records.SumOfPrintout | src/tracker/persistence.cpp:33-71 | All printouts of a state, in any iteration order of maps and sets, carry the same state |
| Records.MergeOfPrintout | src/tracker/persistence.cpp:110-239 | Parsing any printout of R into L is accepted and is Join(L, what the wire carries of R) |
| Records.LoadOfPrintout | src/tracker/persistence.cpp:110-225 | Loading any printout of a state over anything restores what the wire carries of it |
| Records.WireExactIff | src/tracker/persistence.cpp:33-71 | The round trip is exact, up to connections, if and only if all accounts have credentials and no owner is called "-" |
| Records.NoLineForBroken | src/tracker/persistence.cpp:36-42 | An account without a salt or a digest is not printed |
| Records.OfflineCommutesIff | src/tracker/persistence.cpp:130-221 | Addresses and connections aside, the merge commutes if and only if credentials, owners and file metadata agree |
| Commands.FilesKeyInjective | src/tracker/tracker_state.cpp:55-69 | File keys determine group and valid file name even if group names contain slashes |
| Commands.RejectedChangesNothing | src/tracker/tracker_state.cpp:87-427 | A rejected command leaves all four maps alone |
| Commands.ExecKeepsInv | src/tracker/tracker_state.cpp:87-427 | Every command keeps owner among participants (empty exactly without any), all references registered, piece counts right, index and file table in step |
| Commands.WireKeepsInv | src/tracker/persistence.cpp:33-71 | Printing and parsing a sound state gives the same state offline, still sound |
| Commands.JoinKeepsInv | src/tracker/persistence.cpp:130-221 | Merging sound states gives a sound state |
| Commands.RunKeepsInv | src/tracker/tracker_state.cpp:87-427 | The invariant holds in every run of commands, and of merges and loads of any text whose records make a sound state |
| Commands.PrintoutSound | src/tracker/persistence.cpp:33-71 | What a sound tracker prints is such a text |
| Commands.MergeSoundIff | src/tracker/persistence.cpp:227-239 | A text can be merged into every sound state without harm if and only if its records make a sound state |
| Commands.DashOwnerLost | src/tracker/persistence.cpp:48-49 | A user registers as "-", creates a group, and its printed form has no owner |
| Commands.AcceptedAndStillWaiting | src/tracker/persistence.cpp:146-179 | Apply, replicate, accept, push back: the applicant is then listed twice |
| Commands.ExecKeepsSinglyListed | src/tracker/tracker_state.cpp:135-265 | Commands never list a user as both participant and applicant |
| Commands.JoinSinglyListedIff | src/tracker/persistence.cpp:146-179 | A merge avoids double listing if and only if neither side has accepted whom the other lists as waiting |
| Commands.ExecKeepsAtom | src/tracker/tracker_state.cpp:87-427 | Names, groups, files and index entries survive every command; everything does when nothing is removed |
| Effects.FactsAfter | src/tracker/tracker_state.cpp:87-427 | After an accepted command each fact holds exactly if this command adds it, or it held and this command does not remove it |
| Effects.OwnerAfter | src/tracker/tracker_state.cpp:33-53 | A group is owned by its founder, by a remaining member when its owner leaves (by nobody when none remains), or as before |
| Effects.AccountAfter | src/tracker/tracker_state.cpp:87-133 | Credentials are set by registration and never again; address and connection follow login, logout and disconnect of that user only |
| Effects.MetadataAfter | src/tracker/tracker_state.cpp:277-304 | Metadata of a file are what its last accepted upload said, untouched by everything else |
| Effects.AcceptedIff | src/tracker/tracker_state.cpp:87-427 | When each command is accepted, in facts; for a login, when the salted digest of the password is the stored one |
| Records.TakeListIff | src/tracker/persistence.cpp:90-104 | A list is read if and only if a number stands first and at least that many tokens follow; they and the rest are what is read |
| Records.UserLineIff | src/tracker/persistence.cpp:130-144 | A user line is exactly the tag and three words |
| Records.GroupLineIff | src/tracker/persistence.cpp:146-179 | The words that make a group line, and no others |
| Records.FileLineIff | src/tracker/persistence.cpp:180-205 | The words that make a file line, and no others |
| Records.IndexLineIff | src/tracker/persistence.cpp:206-220 | The words that make an index line, and no others |
| Records.ShortListRefused | src/tracker/persistence.cpp:96-98 | A line shorter than its count is refused |
| Merging.CutOffRefused | src/tracker/persistence.cpp:96-98 | A snapshot cut off inside its last line, and its refusal |
| Records.CastTo32 | src/tracker/persistence.cpp:190-205 | The piece count of a read file is the number of hashes modulo 2^32, and that number where it fits |
| Persistence.TakeListAt | src/tracker/persistence.cpp:90-104 | The index-advancing reader takes the list of TakeListIff, or refuses |
| Persistence.LastLineWins | src/tracker/persistence.cpp:130-144 | In a snapshot the last line for a user counts, in a merge the account that is there |
| Persistence.PrintGroup | src/tracker/persistence.cpp:46-55 | A group line lists owner, members and applicants, each once, in any order |
| Persistence.PrintFile | src/tracker/persistence.cpp:56-64 | A file line carries size, hash, all piece hashes in order and all seeders once |
| Persistence.PrintIndex | src/tracker/persistence.cpp:65-69 | An index line lists every file name of the group once |
| Tracker.TrackerState.Serialize | src/tracker/persistence.cpp:33-78 | The text is a faithful printout of the four maps: one line for each entry, in hash order |
| Tracker.TrackerState.ApplyRecords | src/tracker/persistence.cpp:110-225 | The record loop yields Join with (or replacement by) exactly the records before the first bad line; the flag reports exactly whether a fact was new |
| Tracker.TrackerState.MergeFrom | src/tracker/persistence.cpp:227-239 | Merging is Join whatever the text; the version moves by one if and only if the text is accepted and brings a new fact |
| Tracker.TrackerState.LoadSnapshot | src/tracker/persistence.cpp:267-277 | Loading replaces all four maps and leaves the version |
| Tracker.TrackerState.CreateUser | src/tracker/tracker_state.cpp:87-104 | Registers a new name with salted digest, refuses taken names and failed entropy |
| Tracker.TrackerState.Login | src/tracker/tracker_state.cpp:106-121 | Connects a user whose password verifies and stores the address |
| Tracker.TrackerState.Logout | src/tracker/tracker_state.cpp:123-133 | Disconnects and forgets the address |
| Tracker.TrackerState.HandleDisconnect | src/tracker/tracker_state.cpp:418-427 | Does the same when a connection is lost, ignoring nobody and unknown users |
| Tracker.TrackerState.CreateGroup | src/tracker/tracker_state.cpp:135-152 | Creates an unused group with its creator as owner and only participant |
| Tracker.TrackerState.JoinGroup | src/tracker/tracker_state.cpp:154-172 | Puts a registered non-member among the applicants |
| Tracker.TrackerState.LeaveGroup | src/tracker/tracker_state.cpp:174-191 | Removes a member; an owner's group passes to some remaining member or to nobody |
| Tracker.TrackerState.AcceptRequest | src/tracker/tracker_state.cpp:217-240 | On the owner's word an applicant becomes a participant and stops being an applicant |
| Tracker.TrackerState.RejectRequest | src/tracker/tracker_state.cpp:242-265 | On the owner's word an applicant is dropped |
| Tracker.TrackerState.UploadFile | src/tracker/tracker_state.cpp:277-304 | A member's file replaces the metadata, keeps the seeders, adds the uploader and the index entry |
| Tracker.TrackerState.FileDownloaded | src/tracker/tracker_state.cpp:370-392 | A member becomes a seeder of a listed file |
| Tracker.TrackerState.StopShare | src/tracker/tracker_state.cpp:394-416 | A member stops being a seeder |
| Tracker.TrackerState.DownloadFile | src/tracker/tracker_state.cpp:333-368 | A member, and only a member, is sent the printed reply, its seeders in some order |
| Merging.MergeTwice | src/tracker/persistence.cpp:110-239 | For any payload text, applying it twice equals applying it once and reports no change |
| Merging.MergeKeeps | src/tracker/persistence.cpp:110-239 | For any payload text nothing present is removed or overwritten |
| Merging.ChangedIff | src/tracker/persistence.cpp:110-239 | Change is reported if and only if some fact is new |
| Merging.SilentMergeIff | src/tracker/persistence.cpp:206-239 | A merge changes the state without a new version exactly when a bad line cut off an effective payload, or only empty index entries are new |
| Merging.EmptyIndexRecordIsSilent | src/tracker/persistence.cpp:206-219 | The one-line payload that shows it |
| Merging.RefusedPayloadLeavesItsPrefix | src/tracker/persistence.cpp:227-239 | A two-line payload that is refused, counts as no version, and leaves its first line |
| Merging.StrangerOwns | src/tracker/main.cpp:95-105 | A one-line payload that is accepted and breaks the invariant |
| Merging.MergeOrder | src/tracker/persistence.cpp:227-239 | Two payload texts in either order leave the same facts |
| Merging.MergeOrderIff | src/tracker/persistence.cpp:227-239 | They leave the same whole state if and only if they agree on the credentials, owners and metadata the tracker did not have |
| Merging.LoadedEmptyIff | src/tracker/persistence.cpp:110-225 | A load, refused or not, leaves an empty tracker if and only if no record came before the end or the first bad line |
| Merging.RefusedSnapshotIsNotEmpty | src/tracker/main.cpp:433-441 | A two-line snapshot that is refused and leaves a user |
| Replication.RunKeepsLinks | src/tracker/peer_link.cpp:81-125 | In every run, an acknowledged current version means the peer has every tracked fact |
| Acknowledged.AckedIsCurrent | src/tracker/peer_link.cpp:112-122 | In every run, removals and faults included, equality of the version with the acknowledged one means an earlier step delivered to the peer, which merged and acknowledged it, a printout of the present state, empty index entries aside |
| Replication.Convergence | src/tracker/peer_link.cpp:81-125 | Over every run with client commands, lost connections and sound state messages from anyone: whenever both links have nothing to push the trackers agree on names, groups, files and index, and without removals also on members, applicants and seeders |
| Replication.AnyTime | src/tracker/peer_link.cpp:68-125 | The runs allow a lost link, any client command and any harmless message at any time |
| Replication.PrintoutHarmless | src/tracker/persistence.cpp:33-71 | What a sound tracker prints is such a message whenever it arrives |
| Replication.RefusedMessageDisagreesIff | src/tracker/persistence.cpp:227-239 | A refused message leaves a link with nothing to push as it is, and the trackers agreeing if and only if its records name nothing new |
| Replication.RefusedMessageUnnoticed | src/tracker/main.cpp:95-105 | A message that makes two settled trackers differ |
| Quiescence.LinksGoQuiet | src/tracker/peer_link.cpp:108-125 | After clients and faults pause, the links take at most 32 steps for each known fact and a few more |
| Quiescence.QuietMeansAgreed | src/tracker/peer_link.cpp:81-125 | When no link step is possible both links are idle at the pushed version and the trackers agree |
| Quiescence.Enabled | src/tracker/peer_link.cpp:81-125 | A link that is not settled always has a next step |
| Sessions.SessionManager.Create | src/tracker/session_manager.cpp:7-23 | A fresh token speaks for the user for 24 hours; failed entropy creates nothing |
| Sessions.SessionManager.Lookup | src/tracker/session_manager.cpp:25-40 | Finds a session strictly before its expiry and drops it from then on, touching no other |
| Sessions.SessionManager.UsernameFor | src/tracker/session_manager.cpp:42-50 | The same, narrowed to the user |
| Sessions.SessionManager.Destroy | src/tracker/session_manager.cpp:52-61 | Revokes one token, expired or not, and no other |
| Sessions.SessionManager.DestroyAllFor | src/tracker/session_manager.cpp:63-68 | Revokes every token of a user and no other |
| Dispatch.Server.Dispatch | src/tracker/main.cpp:76-244 | Every message acts on state, version and sessions as specified; state texts are printouts, file texts printed replies, listings list what is there |
| Dispatch.Server.LogIn | src/tracker/main.cpp:114-137 | Port, password and entropy are checked in this order; a login without entropy connects but gets no session |
| Dispatch.Server.InSession | src/tracker/main.cpp:151-152 | Identity comes from a valid token alone |
| Dispatch.Server.Upload | src/tracker/main.cpp:188-221 | Size and piece count are numbers that agree with each other and the hash list, or nothing is stored |
| Messages.CreateUserMessage | src/tracker/main.cpp:109-113 | The raw message registers a new name; afterwards exactly the passwords with the same salted digest fit |
| Messages.LoginMessage | src/tracker/main.cpp:114-137 | With a port number and a fitting password the user is connected and gets a session for 24 hours; otherwise nothing changes |
| Messages.LogoutMessage | src/tracker/main.cpp:144-149 | The token is revoked and its user disconnected, nothing else |
| Messages.CreateGroupMessage | src/tracker/main.cpp:154-158 | A session's user founds an unused group and is its owner and only member |
| Messages.JoinGroupMessage | src/tracker/main.cpp:159-163 | A session's user becomes one more applicant, unless a member |
| Messages.LeaveGroupMessage | src/tracker/main.cpp:164-168 | A session's user is a member no more, everybody else stays, and the group passes on |
| Messages.AcceptRequestMessage | src/tracker/main.cpp:174-178 | On the owner's message a registered applicant is a member and no longer an applicant, everybody else as before |
| Messages.RejectRequestMessage | src/tracker/main.cpp:179-183 | On the owner's message an applicant is one no longer, everybody else as before |
| Messages.FileDownloadedMessage | src/tracker/main.cpp:233-237 | A member seeds a listed file, other seeders and files as before |
| Messages.StopShareMessage | src/tracker/main.cpp:238-242 | A member seeds the file no longer, other seeders and files as before |
| Messages.DownloadMessage | src/tracker/main.cpp:227-232 | Members, and nobody else, are told about a listed file; asking changes nothing |
| Messages.ListMessage | src/tracker/main.cpp:169-173 | Who is answered with which listing; asking changes nothing |
| Messages.NoSession | src/tracker/main.cpp:139-152 | Without a session in time no verb but the open ones does anything |
| Messages.WrongCount | src/tracker/main.cpp:154-242 | A command with too many or too few words does nothing |
| Messages.WrongCountOpen | src/tracker/main.cpp:109-123 | Nor does a registration or login |
| Messages.UploadCountsIff | src/tracker/main.cpp:192-211 | The counts of an upload are taken if and only if they are numbers that fit each other and the hashes |
| Messages.UploadRefused | src/tracker/main.cpp:192-211 | An upload whose counts do not fit stores nothing |
| Listings.GroupsListed | src/tracker/tracker_state.cpp:267-275 | The lines of the group listing after its banner are exactly the groups |
| Listings.RequestsListed | src/tracker/tracker_state.cpp:193-215 | The lines of the request listing are exactly the applicants |
| Listings.FilesListed | src/tracker/tracker_state.cpp:306-331 | The words of the file listing are name, size and piece count of exactly the files that are there |
| Tracker.TrackerState.ListGroups | src/tracker/tracker_state.cpp:267-275 | Every group once, in hash order |
| Tracker.TrackerState.ListRequests | src/tracker/tracker_state.cpp:193-215 | The owner, and only the owner, is told every applicant once, or that there is none |
| Tracker.TrackerState.ListFiles | src/tracker/tracker_state.cpp:306-331 | A member, and only a member, is told every file once, or that there is none |
| Connections.Connection.Handle | src/tracker/main.cpp:261-308 | The connection remembers its last accepted login until a logout |
| Connections.Connection.Close | src/tracker/main.cpp:264-276 | A dropped connection's token is revoked and its user disconnected |
| Connections.PushIsReceived | src/tracker/main.cpp:95-105 | A pushed frame is dispatched as the merge of exactly the printed text in it |
| Connections.CommandWellformed | src/tracker/main.cpp:154-242 | Whatever words a session sends, what reaches the state has word fields and piece count equal to ceil(size / 512K) and to the hash count |
| Connections.RunKeepsSound | src/tracker/main.cpp:76-310 | Over whole runs of raw messages, if state messages carry sound records and nobody registers as "-", the state stays sound and whoever is connected has an address |
| Connections.DownloadIsReadable | src/tracker/main.cpp:227-232 | In a sound state the downloader reads the reply as the file's metadata and its connected seeders, unless the file name is a keyword |
| Connections.SessionsConnectedIff | src/tracker/tracker_state.cpp:418-427 | "Whoever has a session is connected" survives a step if and only if it signs off nobody who holds another session |
| Connections.TwoConnectionsOneUser | src/tracker/tracker_state.cpp:418-427 | The two-connection case in which it fails |
| Connections.VersionSound | src/tracker/tracker_state.cpp:87-427 | Two moments of a run with equal version have equal state but for empty index entries, when no merged payload is cut short |
| Lasting.CredentialsLast | src/tracker/persistence.cpp:130-144 | No message, merge or lost connection changes or removes the credentials of an account |
| Lasting.OnlyThePassword | src/common/auth.cpp:36-63 | From registration on, over any run, a login is accepted if and only if its password has the salted digest of the registered one |
| Lasting.SessionLasts | src/tracker/session_manager.cpp:25-40 | A session stays what it is, however often it is used, until it is revoked or runs out |
| Lasting.LoginLasts | src/tracker/session_manager.cpp:7-40 | Whoever logs in speaks for themselves for a day, if nothing ends the session |
| Lasting.DropEndsSession | src/tracker/main.cpp:264-306 | When a connection drops, the session it last logged in for ends and its user is not connected |
| Provenance.SessionOrigin | src/tracker/session_manager.cpp:7-61 | Every session stems from a password-verified login of its user and was never revoked since |
| Provenance.GroupsChange | src/tracker/main.cpp:76-244 | Groups change only by a command of a valid session or by a merge |
| Provenance.ApplicantOrigin | src/tracker/tracker_state.cpp:154-172 | An applicant applied through a session of their own, came with a merge or was there at the start |
| Provenance.MembershipOrigin | src/tracker/tracker_state.cpp:135-240 | A member created the group, or applied and was accepted by a session of the then owner, or came with a merge or was there at the start; each session verified, unrevoked and in time |
| Provenance.OnlySessionsMakeMembers | src/tracker/main.cpp:114-182 | From an empty tracker without merges only the first two remain, with the application made in person |
| Replicas.TwinsSound | src/tracker/peer_link.cpp:81-125 | Two trackers that merge only each other's printouts stay sound over whole runs of raw client messages |
| Replicas.TwinApplicantOrigin | src/tracker/tracker_state.cpp:154-172 | An applicant at either tracker applied in person at one of them, or was one at the start |
| Replicas.TwinMemberOrigin | src/tracker/tracker_state.cpp:135-240 | A member at either tracker was one at the start at one of them, created the group at one, or applied at one and was accepted at one by a session of the owner there; replication makes nobody a member |
| Pieces.AssembledPrefix | src/common/hash.cpp:98-107 | The first k pieces, put together, are the file up to k piece sizes |
| Pieces.PiecesPartition | src/common/hash.cpp:93-107 | ceil(size / 512K) non-empty pieces partition the file |
| Pieces.Sha1FilePieces | src/common/hash.cpp:83-110 | One hash for each piece, in order, of exactly that piece's bytes |
| Pieces.ServeOne | src/client/peer_server.cpp:123-167 | A well-formed request for a registered file is answered with that piece; anything else just closes |
| Pieces.ServedIff | src/client/peer_server.cpp:123-167 | Bytes are sent if and only if the request asks for an existing piece of a registered file on disk, and they are that piece |
| Pieces.HonestPeerAnswers | src/client/peer_server.cpp:123-167 | A peer holding the file answers the downloader's request line with exactly the bytes hashed for that piece |
| Transfer.PopConserved | src/client/downloader.cpp:212-222 | Taking a piece off the queue keeps every piece in exactly one place |
| Transfer.ReleaseConserved | src/client/downloader.cpp:336-374 | Finishing or failing a piece does too |
| Transfer.OneWorkerEach | src/client/downloader.cpp:378-388 | Every peer is the first choice of its own worker, up to eight, or four for more than a thousand pieces |
| Transfer.StartsApart | src/client/downloader.cpp:203-210 | No two workers start with the same peer |
| Transfer.NextPeer | src/client/downloader.cpp:203-210 | After each peer a worker tries the next in the list, and after the last the first |
| Resume.WritersDisjoint | src/client/downloader.cpp:308-334 | At every moment of every run two workers that are writing have disjoint byte ranges |
| DownloadSafety.StepKeepsInv | src/client/downloader.cpp:200-376 | Every step of every worker keeps work conserved, finished slots right, sidecar marks earned and the counter exact |
| DownloadSafety.EveryReplyHandled | src/client/downloader.cpp:281-298 | Whatever a peer sends is no frame within the cap, a wrong piece, or the piece; one of these steps can be taken |
| DownloadSafety.AnythingMayFail | src/client/downloader.cpp:189-334 | No answer, a failed write or a failed save may come at any time, except from the reliable peer where one is assumed |
| Resume.Preallocate | src/client/downloader.cpp:109-140 | The file is kept or created, then a zero is put at the last offset |
| Resume.LoadStatus | src/client/downloader.cpp:142-153 | Cells the sidecar has are restored, the others stay pending |
| Resume.StartsWithTheRest | src/client/downloader.cpp:142-182 | A run queues, in ascending order, exactly the pieces the sidecar does not mark 2 |
| Resume.RestoredNotFetched | src/client/downloader.cpp:142-182 | A piece the sidecar marks 2 is never queued or fetched |
| Resume.HandedOutInOrder | src/client/downloader.cpp:214-221 | The queue stays ascending, so pieces are handed out in order |
| Resume.CleanSaveStep | src/client/downloader.cpp:189-198 | A save nobody disturbs leaves exactly the statuses in the sidecar |
| DownloadSafety.ReliableReplies | src/client/peer_server.cpp:123-167 | A reliable peer's answer to the downloader's request is exactly the piece, and hashes right |
| Resume.PreambleKeepsSlots | src/client/downloader.cpp:121-135 | The preamble keeps a right slot right if and only if it is not the last one with a non-zero final byte |
| Resume.PreambleSpoils | src/client/downloader.cpp:121-135 | The last slot, if its final byte is not zero, is wrong after the preamble whatever was on disk |
| Resume.OneByteSpoiled | src/client/downloader.cpp:121-135 | A one-byte file, complete before the preamble and wrong after it |
| Resume.OnePlaceEach | src/client/downloader.cpp:174-376 | At every moment a piece is restored, queued, in one worker's hand or finished as 2 or 3, in one of these only; the counter is the number of 2s minus those restored |
| Resume.AlwaysHonest | src/client/downloader.cpp:121-153 | Over any number of attempts, stopped anywhere and with any peers, whatever sidecar an attempt finds marks only right pieces, save a spoiled last one |
| Resume.CrashSafe | src/client/downloader.cpp:189-198 | In whichever attempt and at whichever step the process dies, each piece the sidecar marks 2 is on disk with the right bytes, except exactly a spoiled piece this attempt took over as complete |
| Resume.Joined | src/client/downloader.cpp:384-412 | After the join every status is 2 or 3, both vectors agree, and 3 needs an unreliable swarm |
| Resume.FinalGate | src/client/downloader.cpp:397-430 | A file is announced exactly when all statuses are 2 and the full hash matches |
| Resume.AnnouncedIsWhole | src/client/downloader.cpp:397-437 | An announced file has every piece complete and, but for a colliding digest, is the original |
| Unrepaired.NeverRight | src/client/downloader.cpp:121-186 | An attempt that takes over a spoiled last piece never has the original and never fetches that piece |
| Unrepaired.NeverRepaired | src/client/downloader.cpp:121-198 | Nor does any later attempt while the sidecar is not cut short; the gate opens only if the wrong file has the right hash |
| Resume.ReliableRunEnds | src/client/downloader.cpp:174-395 | One attempt with a reliable peer that finds an honest sidecar completes every piece; when its file is the original, exactly |
| Resume.AttemptsEnd | src/client/downloader.cpp:107-395 | After any interrupted attempts, one with a reliable peer that ends has every piece; its file is the original if and only if nothing longer was there at the beginning and it took over no spoiled piece |
| Resume.EndToEnd | src/client/downloader.cpp:174-430 | On a fresh path the finished file is the original, under any interleaving and any behaviour of the other peers, and the final gate opens |
| Termination.RunsEnd | src/client/downloader.cpp:201-376 | No schedule and no mix of failures runs for ever: each step lowers a measure |
| Termination.DoneOrMoving | src/client/downloader.cpp:201-395 | A run can only stop with every worker returned |
| Retry.RotationIsPermutation | src/client/downloader.cpp:203-210 | Each worker's rotated order lists every peer exactly once, starting at its own |
| Retry.RotationAt | src/client/downloader.cpp:203-210 | It is the order the interleaved workers follow |
| Retry.AskedEachPass | src/client/downloader.cpp:237-361 | So many passes ask every listed peer exactly so many times |
| Retry.FetchPiece | src/client/downloader.cpp:234-374 | Giving up means complete passes over all peers which with the bad tries are at least five, and before the last pass were fewer; success ends a pass begun with fewer than five used up |
| Tries.GivenUpAfterTryingAll | src/client/downloader.cpp:234-374 | In every interleaving a piece given up as 3 was tried by one worker alone, at every listed peer, equally often; passes and tries gone bad are at least five, and before the last pass were fewer: five passes when nothing went bad, never more |
| Tries.FailedMeansTriedAll | src/client/downloader.cpp:363-395 | After the join that holds of every piece with status 3, nobody else having tried |
| Framing.PrefixRoundTrip | src/common/socket_io.cpp:41-54 | The 32-bit length survives network byte order |
| Framing.MostSignificantFirst | src/common/socket_io.cpp:41-54 | Prefixes compare like the lengths, byte by byte from the left |
| Framing.FrameRoundTripIff | src/common/socket_io.cpp:41-63 | A message is received as sent if and only if it is within the receiver's cap |
| Framing.FramesRoundTrip | src/common/socket_io.cpp:41-63 | Any sequence of messages within the cap arrives whole, in order, with nothing left over |
| Framing.Source.RecvAll | src/common/socket_io.cpp:9-20 | However reads are split, exactly n bytes are taken or the stream ended |
| Framing.Source.RecvFramed | src/common/socket_io.cpp:49-63 | Succeeds exactly when a whole message within the cap arrives and consumes exactly its bytes |
| Framing.Sink.SendAll | src/common/socket_io.cpp:22-39 | However writes are split, all bytes go out in order or the connection broke |
| Framing.Sink.SendFramed | src/common/socket_io.cpp:41-47 | What goes out is the frame of the payload, or the part of it the connection still took |
| Reply.ParseReply | src/client/downloader.cpp:56-96 | The parsing loops agree with the specified reader on every reply text |
| Reply.NoPlanIff | src/client/downloader.cpp:56-77 | A reply starts no download if and only if it is no file or its piece count is none a vector can have |
| Reply.AnyNumberRead | src/client/downloader.cpp:72-74 | A signed or unsigned number is read up to where its digits end; out of range the stream fails at the nearest bound |
| Reply.NoNumberAtEnd | src/client/downloader.cpp:70-76 | At the end of the text nothing is read and the variable keeps its value |
| Reply.HeaderRead | src/client/downloader.cpp:70-81 | What the header is read as, for every file name, keywords included |
| Reply.PeerLinesRead | src/client/downloader.cpp:84-96 | The peer block is read as exactly the printed contacts |
| Reply.ContactsExact | src/tracker/tracker_state.cpp:359-365 | The contacts are exactly the connected seeders with their addresses |
| Reply.FileCalledSize | src/client/downloader.cpp:70-81 | Of any file called SIZE only the contacts are read |
| Reply.ReplyRoundTripIff | src/tracker/tracker_state.cpp:352-367 | Size, hash, piece hashes and contacts are read back if and only if the name is no keyword, or is HASH and the file is empty |
| Journey.Announce | src/client/commands.cpp:154-184 | An existing non-empty file is shared under its base name and announced with its hash and one hash for each piece, anything else is not |
| Journey.UploadStored | src/tracker/main.cpp:188-221 | A member's honest announcement is accepted as a raw message and the tracker's entry is right |
| Journey.EntryKept | src/tracker/persistence.cpp:180-205 | Over any run no message, merge or lost connection alters an entry but for its seeders, except another upload of that name |
| Journey.PlanRight | src/tracker/tracker_state.cpp:333-368 | A later download request is answered by text that the downloader reads as the announced size and hashes |
| Journey.MembersAreTold | src/tracker/tracker_state.cpp:333-368 | After an announcement exactly the members of the group are answered with the file |
| Journey.FinisherIsOffered | src/tracker/tracker_state.cpp:370-392 | A connected member who reports a finished download is among the contacts of every later reply in that state, with their address |
| Journey.QuitterIsNotOffered | src/tracker/tracker_state.cpp:394-416 | A member who stops sharing is not |
| Journey.FileTravels | src/client/downloader.cpp:38-395 | Announced, stored, kept, replied, parsed and fetched on a fresh path, with one contact serving it from a disk that has it, the file arrives byte for byte |
| PeerPool.EachInOnePlace | src/client/peer_server.cpp:79-205 | In every run an accepted descriptor is with the acceptor, pending, with one worker or closed, exactly one of these, once |
| PeerPool.FirstComeFirstServed | src/client/peer_server.cpp:79-121 | A worker that starts to serve a connection has the one accepted first of all that waited |
| PeerPool.DrainFindsNothing | src/client/peer_server.cpp:200-204 | With at least one worker the final drain loop has nothing to close |
| PeerPool.StoppedCleanly | src/client/peer_server.cpp:169-205 | When stop returns every descriptor was closed exactly once |
| PeerPool.QueuedReachesWorker | src/client/peer_server.cpp:107-205 | Whatever is queued at any moment a worker gets before stop returns |
| PeerPool.StopReturns | src/client/peer_server.cpp:169-205 | Once stopping, at most a bounded number of steps is left |
| PeerPool.StoppingIsNeverStuck | src/client/peer_server.cpp:169-205 | And until stop has returned some thread can take one |

## Left out

- Sockets, timeouts, signals, console input and logging; a failed call is a step that may happen.
- The wording of replies other than listings, states and file replies; a refusal is modelled, its text is not.
- Writing the snapshot file (`src/tracker/persistence.cpp:241-265`): temporary file and rename are the file system's promises.
- Tracker restarts in the convergence theorem: an idle sender does not notice that its peer died (`src/tracker/peer_link.cpp:112-125`).
- The start order of tracker threads: the snapshot is loaded before the links start, while the program starts the link thread first (`src/tracker/main.cpp:414-433`).
- Agreement of file metadata, credentials and owners between trackers: an upload overwrites them locally and a merge keeps them, so it does not hold.
- Two commands of different connections between one's session lookup and its change of the state; the lookup and the change are one step.
- Two overlapping runs for one file name, which can happen because a run is marked inactive before it returns (`src/client/downloader.cpp:421`, `src/client/downloader.cpp:447`); one run at a time is modelled.
- Reply.ParseReply: does not model running out of memory for a piece count a vector could hold in principle.
- Empty files in the transfer theorems; they have no pieces and no worker does anything.
- Journey.FileTravels: file names with white space are not covered; the line-based messages cannot carry them.
- Retry.FetchPiece: how one try ends is arbitrary here; Tries.GivenUpAfterTryingAll says the same of the interleaved workers and their statuses.
- The dashboard, the HTTP server, the command prompt, the upload registry and configuration loading: thin.
