# TTLock Connect: a verified model

This project models the parts of the TTLock Connect integration for Home Assistant whose correctness is hard to see
from reading one function at a time, and proves what they promise:

- **The Bluetooth protocol** (`ble_protocol.py`, `ble.py`): the CRC-8/MAXIM shift loop and what it detects
  (`Crc8`, `Crc8Algebra`, `Crc8Detection`), payload encryption (`Cipher`), the frame encoder and decoder and what
  damage does to a frame (`Frames`, `FrameDamage`), the stream reassembler (`Assembler`), delivery across a link that
  cuts the stream anywhere (`Transport`), the one-at-a-time session (`Session.dfy`, module `SessionProtocol`), and the
  four readings of an AES key (`KeyText`, `KeyParsing`) and exactly which texts they read (`KeyReadings`).
- **The shared webhook** (`webhook.py`): choosing the id (`WebhookConsolidation`), a transition system in which any
  number of calls, STOP callbacks and deliveries interleave at their suspension points (`WebhookGroups`), its invariants
  (`WebhookInvariants`), what each step changes (`WebhookEffects`), what every run guarantees (`WebhookPromises`,
  `WebhookIds`), when the setup issue is open (`WebhookIssues`), the events that break the rest,
  step by step and over whole runs (`WebhookSafety`, `WebhookRuns`), why all but one of them never happen while Home
  Assistant runs (`WebhookLifetime`), a run with the one that does (`WebhookWitnesses`), and the code over its own
  objects, proved step by step against that system (`WebhookHandler`).
- **The lock coordinator** (`coordinator.py`, `store.py`, `usage_estimate.py`): one poll, the pushes and the commands
  (`LockStore`, `LockCoordinator`), runs of them with restarts (`CoordinatorRuns`), what a poll asks and publishes
  (`PollOutcome`), what a push publishes and what the state is after any run (`PushOutcome`), the door sensor's absence
  protocol (`AbsenceProtocol`), bounds on cloud calls (`CallBudget`), the monthly estimate they stay within
  (`UsageEstimate`) and reach (`EstimateReached`), and the coordinator as an object (`LockCoordinatorObject`).
- **The call counter** (`api_stats.py`): the pruned tally against the full log (`Division`, `Calendar`, `Rounding`,
  `ApiStats`, `CallLog`).

`dafny verify dfyconfig.toml` checks all of it.

How the model reads the code:

- Code that changes state in place is a class or a loop here too, proved against a function; the promises are then
  lemmas about that function and invariants over runs of it.
- A coroutine's code between two suspension points is one atomic step. The webhook's lock is held across a suspension
  only while the members are listed, which is the one place the model holds it too. A URL that is stored is handed out
  without suspending, so a call that has one goes on in the same step. A call may wait for any lock as long as it likes
  and start at any moment: the statements about every run cover all orders the event loop can take, and more.
- `WebhookLifetime` is about runs in which no group is made after a STOP callback has run (`NoGroupAfterStop`), which all
  runs of the code are. `webhook.py:110-117` starts a call only while Home Assistant is running, a state that it leaves
  before it fires STOP, and the call asks for the lock at once; so it is ahead of every STOP callback in the lock's queue,
  and holds the lock from the moment it finds no group until it has made one.
- A poll is one step at one instant. Its `now` stands for every reading of the clock inside it.
- Answers of the cloud, of the Bluetooth stack and of Home Assistant's URL helpers are parameters: every statement holds
  for all of them, unless it says which ones it is about.
- Bytes are numbers below 256 with a bitwise exclusive or defined on their bits; the block cipher is any bijection on
  16-byte blocks for each key.

Where the code and what is written about it differ, the model follows the code:

- `ble_protocol.py:448-451` says that starting mid-frame costs one frame. No later frame is lost exactly when the start
  leaves no marker in the buffer (`Transport.LosesNothingIff`).
- `ble_protocol.py:122-124` says that a key is accepted only with exactly 16 bytes. The strict reading does not check that
  (`KeyParsing.KeyIsSixteenBytesIff`).
- `coordinator.py:533-547` speaks of consecutive failures. A probe that raises is not counted and does not break the row;
  a confirmed verdict still spends that restart's recheck on it.
- A sensor reply without a battery level clears the stored count and leaves the sensor not present, so the next poll probes
  again; the probe bound is therefore about replies of "not found".
- The slow gates advance even if a later call makes the poll fail; the fetched data is then discarded. A call that fails
  moves no gate and is made again by the next poll, so the bounds by the slow interval are about succeeding polls
  (`CallBudget.SlowCallBudget`) or about answers (`CallBudget.SlowCallBudgetOfAnyPolls`).
- `usage_estimate.py:67` estimates slow fetches by their interval alone. They are made by polls, so with polls further apart
  than that the estimate is too high (`EstimateReached.SlowCallIsReachedIff` says when).
- `webhook.py:280-287` gives every join its STOP callback so that the webhook goes with the last member. A STOP that comes
  while a call waits for its URL defeats that (`WebhookWitnesses.EarlyStopLeavesAWebhook`).

## Model

| member | source | states |
|---|---|---|
| Crc8.Crc8Maxim | custom_components/ttlock_connect/ble_protocol.py:103-114 | the two nested loops compute the register defined byte by byte, over every message |
| Crc8.CrcIsBitSerial | custom_components/ttlock_connect/ble_protocol.py:103-114 | shifting a folded-in byte right against 0x8C eight times is the same as a bit-serial feedback register meeting the message bits least significant first |
| Crc8Algebra.CrcIsRemainder | custom_components/ttlock_connect/ble_protocol.py:103-114 | a byte is the checksum if and only if it is the remainder of the message times x^8 modulo x^8+x^5+x^4+1, in reflected bit order (CRC-8/MAXIM) |
| Crc8Algebra.DivisionIsUnique | custom_components/ttlock_connect/ble_protocol.py:103-114 | that division has one quotient and one remainder, so the previous row determines the checksum |
| Crc8Algebra.CrcAdditive | custom_components/ttlock_connect/ble_protocol.py:103-114 | checksums of equal-length messages are additive under exclusive or |
| Crc8Algebra.ResidueZero | custom_components/ttlock_connect/ble_protocol.py:396-399 | a body followed by a byte has residue 0 exactly when the byte is its checksum |
| Crc8Detection.ErrorUndetected | custom_components/ttlock_connect/ble_protocol.py:396-405 | an error pattern passes the check on any valid string exactly when the pattern itself has residue 0 |
| Crc8Detection.OddErrorsDetected | custom_components/ttlock_connect/ble_protocol.py:400-404 | every odd number of flipped bits, in strings of any length, is caught |
| Crc8Detection.BurstsDetected | custom_components/ttlock_connect/ble_protocol.py:400-404 | all damage within eight consecutive bits, byte-aligned or not, is caught |
| Crc8Detection.TwoBitErrors | custom_components/ttlock_connect/ble_protocol.py:400-404 | two flipped bits are missed if and only if they are a multiple of 127 bits apart |
| Cipher.DecryptEncrypt | custom_components/ttlock_connect/ble_protocol.py:231-261 | for any block bijection, decrypting an encrypted payload of any length gives it back (PKCS#7, section 6.3 of RFC 5652, in CBC, section 6.2 of NIST SP 800-38A, with the key as initialisation vector) |
| Cipher.EncryptDecrypt | custom_components/ttlock_connect/ble_protocol.py:239-261 | whatever decrypts is the encryption of what it decrypts to |
| Cipher.CbcBlocks | custom_components/ttlock_connect/ble_protocol.py:218-236 | block j of the output is the cipher of plaintext block j added to the block before it, the key standing before the first |
| Cipher.EncryptedBlocks | custom_components/ttlock_connect/ble_protocol.py:218-236 | what is encrypted under a key of sixteen bytes is, block by block, the cipher of the padded text added to the block before, the first one to the key itself |
| Cipher.PaddedBytes | custom_components/ttlock_connect/ble_protocol.py:233-234 | the padded text is the text and then as many bytes as fill its last block, at least one, each saying how many |
| Cipher.PadUnpad | custom_components/ttlock_connect/ble_protocol.py:256-261 | only proper padding is accepted: padding again what was unpadded restores it |
| Cipher.DecryptRefuses | custom_components/ttlock_connect/ble_protocol.py:239-261 | no whole blocks and a key of another length are refused as such; what decrypts is exactly what is an encryption |
| Frames.EncodeSucceeds | custom_components/ttlock_connect/ble_protocol.py:333-365 | encoding succeeds if and only if the fields fit their bytes and the payload has at most 255 bytes in the clear, or 239 under a 16-byte key |
| Frames.EncodeFaults | custom_components/ttlock_connect/ble_protocol.py:347-364 | a frame is refused for a key of another length, a payload too long or a field that does not fit, each exactly when it is the first of them |
| Frames.EncodedBytes | custom_components/ttlock_connect/ble_protocol.py:349-365 | each byte of an encoded frame by its number: marker, version, big-endian ids, command, scramble key, length, payload as it is or encrypted, checksum, CR and LF |
| Frames.DecodeEncode | custom_components/ttlock_connect/ble_protocol.py:333-428 | decode undoes encode for every frame with scramble key 0, in the clear and under any key |
| Frames.ScrambledIsRefused | custom_components/ttlock_connect/ble_protocol.py:409-414 | a frame with another scramble key is refused as unsupported |
| Frames.EncodeDecode | custom_components/ttlock_connect/ble_protocol.py:368-428 | what decodes without a key has fields in range and encodes back to the same bytes |
| Frames.DecodesIffEncoded | custom_components/ttlock_connect/ble_protocol.py:368-428 | without a key, decode succeeds on exactly the encodings of frames with scramble key 0 |
| Frames.KeyedEncodeDecode | custom_components/ttlock_connect/ble_protocol.py:424-426 | under a key, what decodes encodes back to the same bytes if and only if its payload is not empty: an empty one skips decryption |
| Frames.DecodeFaults | custom_components/ttlock_connect/ble_protocol.py:381-405 | each fault is reported exactly when it is the first: under 15 bytes, no marker, no terminator, another length than declared, another checksum |
| Frames.DecodeReads | custom_components/ttlock_connect/ble_protocol.py:407-428 | a frame with the right checksum is refused with a scramble key, read as it is without a key or payload, and else decrypted, with the errors of each case; its fields are the bytes at their places |
| FrameDamage.DamagedDecode | custom_components/ttlock_connect/ble_protocol.py:396-405 | damage that spares marker, length and terminator is a checksum error exactly unless the pattern itself has residue 0 |
| FrameDamage.OddDamage | custom_components/ttlock_connect/ble_protocol.py:400-405 | an odd number of flipped bits in header, payload and checksum is reported as a checksum error |
| FrameDamage.BurstDamage | custom_components/ttlock_connect/ble_protocol.py:400-405 | damage within eight consecutive bits of that span is reported as a checksum error |
| FrameDamage.TwoBitDamage | custom_components/ttlock_connect/ble_protocol.py:400-405 | two flipped bits there pass if and only if they are a multiple of 127 bits apart |
| FrameDamage.OneByteDamage | custom_components/ttlock_connect/ble_protocol.py:381-405 | any change to any one byte of a valid frame makes decode fail, as a framing error in marker, length or terminator and as a checksum error everywhere else |
| Assembler.FrameAssembler.Feed | custom_components/ttlock_connect/ble_protocol.py:461-494 | the in-place loop hands out exactly the frames of old buffer and chunk together and keeps exactly what that cut leaves; it terminates |
| Assembler.FrameAssembler.Reset | custom_components/ttlock_connect/ble_protocol.py:457-459 | the partial frame is gone |
| Assembler.RestIsSettled | custom_components/ttlock_connect/ble_protocol.py:492-494 | after a call nothing more can be cut from the buffer and it is shorter than 270 bytes |
| Assembler.CutAppend | custom_components/ttlock_connect/ble_protocol.py:461-494 | cutting a stream is cutting its first part and then what that left with the second part |
| Assembler.FeedEach | custom_components/ttlock_connect/ble_protocol.py:461-494 | feeding pieces to one assembler, call after call |
| Assembler.ChunkingInvariance | custom_components/ttlock_connect/ble_protocol.py:461-494 | for every stream and every way of cutting it into calls, frames and final buffer are those of one call with the whole stream |
| Transport.WritesFillPackets | custom_components/ttlock_connect/ble.py:303-314 | the pieces of a payload concatenate to it; none is empty, each leaves the 3 bytes of overhead free of what the link reports or of 23 if that is less or unknown, and all but the last reach that limit; so for the first of them |
| Transport.CutSegments | custom_components/ttlock_connect/ble_protocol.py:469-490 | every frame-sized string behind marker-free junk is cut out whole and in order, whatever its other bytes |
| Transport.FramesAreTheReading | custom_components/ttlock_connect/ble_protocol.py:461-494 | the frames of a stream are those of its one reading as junk without a marker and frame-sized strings by turns: an independent definition, both ways |
| Transport.EndToEnd | custom_components/ttlock_connect/ble.py:303-323 | frames encoded, led by any marker-free junk, cut into pieces in any way, fed and decoded are those frames in order, and the buffer ends empty |
| Transport.EndToEndAtMtu | custom_components/ttlock_connect/ble.py:303-314 | in particular for the pieces written at any MTU |
| Transport.DamagedFrameDoesNotDesynchronise | custom_components/ttlock_connect/ble_protocol.py:464-467 | one frame changed in any bytes but 0, 1 and 11 leaves all others intact and in order |
| Transport.LosesNothingIff | custom_components/ttlock_connect/ble_protocol.py:448-451 | starting mid-frame costs no frame after it, whatever valid frames follow, if and only if the start leaves no marker in the buffer: the exact condition of the promise, which is false without it |
| Transport.ResynchronisesIff | custom_components/ttlock_connect/ble_protocol.py:448-451 | exactly the frames after the start come out, none lost and none made of bytes of the start, if and only if the start has no marker in it |
| Transport.StartingMidFrameCostsSeventeenFrames | custom_components/ttlock_connect/ble_protocol.py:448-451 | against the promise, one frame: from the tail of a valid frame whose payload looks like a header, seventeen whole frames after it come out glued to it as one |
| SessionProtocol.RunKeeps | custom_components/ttlock_connect/ble.py:273-323 | the three invariants of the session hold after every interleaving of calls, writes, failures and notifications |
| SessionProtocol.AtMostOnePending | custom_components/ttlock_connect/ble.py:283-299 | at most one request is between its beginning and its end, and it alone is waiting for a frame |
| SessionProtocol.ReplyIsFirstFrameHeard | custom_components/ttlock_connect/ble.py:283-301 | a request that returns hands back the first whole frame cut from what was notified since its own turn began, told from the events |
| SessionProtocol.FailingFreesTheTurn | custom_components/ttlock_connect/ble.py:283-299 | a request that fails, waiting or in its turn, is over, and leaves the turn free for the next if it had it |
| SessionProtocol.ResolvedOnce | custom_components/ttlock_connect/ble.py:317-323 | a future that holds a frame keeps it whatever happens next |
| SessionProtocol.OneFrameEach | custom_components/ttlock_connect/ble.py:316-323 | of all frames ever cut, exactly one goes to each resolved request and none to any other; the rest are dropped |
| SessionProtocol.RequestGetsItsReply | custom_components/ttlock_connect/ble.py:273-301 | when the first thing a request hears, junk aside, is an encoded frame, decoding its result gives that frame |
| SessionProtocol.LockSession.Begin | custom_components/ttlock_connect/ble.py:283-286 | taking the turn resets the assembler and opens a new future: one step of the protocol |
| SessionProtocol.LockSession.Write | custom_components/ttlock_connect/ble.py:303-314 | what is written are such pieces in order, the beginning of the command; all of it when no write fails, and else as many as the connection takes |
| SessionProtocol.CommandArrives | custom_components/ttlock_connect/ble.py:273-301 | a command is refused for want of a key exactly when it is to be encrypted and there is none; one that is sent arrives whole whatever it is cut into, and is read as what was asked for |
| SessionProtocol.LockSession.Answer | custom_components/ttlock_connect/ble.py:317-323 | the first frame resolves an unanswered pending request, every other frame changes nothing |
| SessionProtocol.LockSession.Notification | custom_components/ttlock_connect/ble.py:316-323 | a notification is one step of the protocol and touches no other request |
| SessionProtocol.LockSession.Finish | custom_components/ttlock_connect/ble.py:291-301 | however a request ends, nothing stays pending and the turn is free |
| KeyParsing.DelimitedHexRoundTrip | custom_components/ttlock_connect/ble_protocol.py:159-178 | every 16-byte key in hex pairs, either case digit by digit, delimited by any of `:-,.` and surrounded by blanks, is read back |
| KeyParsing.PlainHexRoundTrip | custom_components/ttlock_connect/ble_protocol.py:181-189 | so is every key whose pairs are run together or set apart by blanks |
| KeyParsing.Base64RoundTrip | custom_components/ttlock_connect/ble_protocol.py:209-215 | so is every key in base64 (section 4 of RFC 4648) |
| KeyParsing.DecimalListRoundTripIff | custom_components/ttlock_connect/ble_protocol.py:126-131 | a comma-delimited list of signed or unsigned decimal bytes is read back if and only if not all sixteen numbers have two digits; then it is read as hex, and never as the same key |
| KeyParsing.KeyIsSixteenBytesIff | custom_components/ttlock_connect/ble_protocol.py:122-124 | a key has sixteen bytes if and only if the strict reading did not take a text with blanks inside; the documentation promises it always |
| KeyParsing.BlankPairGivesFifteenBytes | custom_components/ttlock_connect/ble_protocol.py:159-178 | any fifteen hex pairs with a pair of blanks as second token are accepted as a key of fifteen bytes |
| KeyParsing.DelimitedLength | custom_components/ttlock_connect/ble_protocol.py:167-178 | how long a strictly read key is: sixteen exactly when the text has no blank |
| KeyParsing.StrictTakes | custom_components/ttlock_connect/ble_protocol.py:167-178 | the strict reading finds sixteen pairs at their separator, whichever separators it tries first |
| KeyParsing.ListIsNotStrict | custom_components/ttlock_connect/ble_protocol.py:126-131 | a minus sign, or a token of one or three digits, makes a decimal list fall through the strict reading |
| KeyReadings.KeyIsReadIff | custom_components/ttlock_connect/ble_protocol.py:116-150 | a text is read as a key exactly when, without the blanks around it, one of the four readings gives it and none before does; it is refused as empty or as not recognised, with its length, exactly otherwise |
| KeyReadings.StrictIsReadIff | custom_components/ttlock_connect/ble_protocol.py:159-178 | the strict reading takes exactly sixteen tokens of two characters at one of the four separators whose characters together are read as hex |
| KeyReadings.ListIsReadIff | custom_components/ttlock_connect/ble_protocol.py:192-206 | the list reading takes exactly sixteen numbers from -128 to 255 between commas, the negative ones as themselves and 256 |
| KeyReadings.IntIsReadIff | custom_components/ttlock_connect/ble_protocol.py:200-203 | a number is digits, with single underscores between them and at most 4300, after a sign or none, blanks around it: `int` of ASCII text |
| KeyReadings.HexIsReadIff | custom_components/ttlock_connect/ble_protocol.py:181-189 | `bytes.fromhex` takes exactly pairs of hex digits with blanks before, between and after them |
| KeyReadings.HexDigits | custom_components/ttlock_connect/ble_protocol.py:181-189 | the hex digits and their values, written out |
| KeyReadings.AllBlank | custom_components/ttlock_connect/ble_protocol.py:139-141 | a text is stripped to nothing exactly when it is all blanks |
| KeyReadings.Base64IsReadIff | custom_components/ttlock_connect/ble_protocol.py:209-215 | strict base64 decoding takes exactly the encodings, but for the bits of a last group that stand for no byte |
| KeyReadings.EncodedBits | custom_components/ttlock_connect/ble_protocol.py:209-215 | and those are, group by group, the 24 bits of three bytes in four characters, with padding (section 4 of RFC 4648) |
| KeyReadings.Base64Characters | custom_components/ttlock_connect/ble_protocol.py:209-215 | the base64 alphabet, written out |
| WebhookConsolidation.ChosenIsStored | custom_components/ttlock_connect/webhook.py:184-209 | the chosen id is a stored one whenever there is one, the only one if there is only one, and a confirmed one when just one was confirmed |
| WebhookConsolidation.AmbiguousIsFirst | custom_components/ttlock_connect/webhook.py:201-209 | an ambiguous choice is the id of the first member that has one |
| WebhookConsolidation.MembersAgree | custom_components/ttlock_connect/webhook.py:211-222 | afterwards every member holds the chosen id, with its URL if and only if its id was that already, and is marked if the choice is confirmed; no other status changes |
| WebhookConsolidation.SecondRunChoosesTheSameId | custom_components/ttlock_connect/webhook.py:160-240 | a second run chooses the same id, without ambiguity |
| WebhookConsolidation.VerdictIsStableIff | custom_components/ttlock_connect/webhook.py:160-240 | the second verdict is the first if and only if just one id was confirmed before or no member was marked |
| WebhookInvariants.RunnerDoesNotMatter | custom_components/ttlock_connect/webhook.py:143-158 | the members consolidated, and so the id chosen, are the same whichever of two members of an application runs the resolution |
| WebhookEffects.MemberIff | custom_components/ttlock_connect/webhook.py:143-158 | the members are the runner and the entries of its application whose lookup does not fail |
| WebhookEffects.MembersInOrder | custom_components/ttlock_connect/webhook.py:143-158 | they are listed in the order of the entries |
| WebhookEffects.ConsolidateEffects | custom_components/ttlock_connect/webhook.py:211-240 | making a group changes exactly its members, each to the chosen id and verdict, and adds one group that has both |
| WebhookEffects.JoinEffects | custom_components/ttlock_connect/webhook.py:268-289 | joining counts the call in, gives its entry the group's id and verdict, drops a URL made for another id, and goes on if one is left |
| WebhookEffects.PublishEffects | custom_components/ttlock_connect/webhook.py:289-307 | a URL got is stored, the cloud's for the id asked for or a local one for the stored id; without one nothing changes and the call gives up |
| WebhookEffects.RegisterEffects | custom_components/ttlock_connect/webhook.py:313-327 | the group's webhook is registered with this call's handler unless it was; no other changes |
| WebhookEffects.StopEffects | custom_components/ttlock_connect/webhook.py:362-377 | a STOP callback counts one member out, and takes group and webhook away with the last and with nobody before |
| WebhookHandler.HomeAssistant.CollectIds | custom_components/ttlock_connect/webhook.py:179-188 | the loops over the members gather exactly the stored and the confirmed ids |
| WebhookHandler.HomeAssistant.ChooseId | custom_components/ttlock_connect/webhook.py:190-209 | the branches over those sets choose what the specification chooses |
| WebhookHandler.HomeAssistant.AdoptChoice | custom_components/ttlock_connect/webhook.py:211-222 | the loop over the members changes exactly their data, each as the choice demands |
| WebhookHandler.HomeAssistant.SyncEntryToGroup | custom_components/ttlock_connect/webhook.py:242-260 | one entry takes over the id and the verdict; nothing else changes |
| WebhookHandler.HomeAssistant.JoinExisting | custom_components/ttlock_connect/webhook.py:268-311 | with the lock and a group there: join it, and with a URL stored go straight on to the setup issue, in one step of the transition system |
| WebhookHandler.HomeAssistant.MakeAndJoin | custom_components/ttlock_connect/webhook.py:268-311 | with the lock and no group: consolidate, make the group, join it and go on in the same way, in one step of the transition system |
| WebhookHandler.HomeAssistant.Publish | custom_components/ttlock_connect/webhook.py:289-311 | once a URL is found or not: storing it and raising the setup issue once, or giving up |
| WebhookHandler.HomeAssistant.Register | custom_components/ttlock_connect/webhook.py:313-327 | registering the webhook unless that has been done |
| WebhookHandler.HomeAssistant.ResolveSetupIssue | custom_components/ttlock_connect/webhook.py:401-422 | mark everyone with this id, confirm the group, close its issue: the step of the next row |
| WebhookIssues.TrafficEffects | custom_components/ttlock_connect/webhook.py:359-360 | the first traffic an entry hears closes its application's issue and no other, marks exactly the entries with its id and no status, and confirms its application's group; any other traffic changes nothing |
| WebhookIssues.IssueAfterStep | custom_components/ttlock_connect/webhook.py:309-311 | an issue is raised exactly when a call has a URL to show, its entry has heard no traffic and its group's was not raised; it is open after a step exactly when raised by it or open before and not closed by first traffic |
| WebhookIssues.IssueIsOpenIff | custom_components/ttlock_connect/webhook.py:379-422 | after any run an application's issue is open if and only if it was raised and no first traffic for it came since |
| WebhookHandler.HomeAssistant.HandleWebhook | custom_components/ttlock_connect/webhook.py:359-360 | only the first traffic an entry hears does that |
| WebhookHandler.HomeAssistant.MarkSiblings | custom_components/ttlock_connect/webhook.py:408-416 | the loop gives a status to exactly the entries with the id and none |
| WebhookHandler.HomeAssistant.Unregister | custom_components/ttlock_connect/webhook.py:362-377 | the STOP callback: count down, and take group and webhook away with the last member |
| WebhookInvariants.CoreStep | custom_components/ttlock_connect/webhook.py:262-422 | every step of every interleaving keeps counts, dictionary, lock, ids and once-only flags in agreement |
| WebhookPromises.CountIsJoins | custom_components/ttlock_connect/webhook.py:268-276 | after any run a group's count is the number of joins not yet undone by their STOP callback, and the group exists exactly while that is positive |
| WebhookPromises.RegisteredAndRaisedOnce | custom_components/ttlock_connect/webhook.py:309-327 | a group's webhook is registered at most once, exactly once if any member ran to the end; its setup issue is raised at most once |
| WebhookPromises.MembersHoldTheGroupsId | custom_components/ttlock_connect/webhook.py:242-260 | every entry that has joined and not left holds its group's id |
| WebhookPromises.OnlyTheLastUnregisters | custom_components/ttlock_connect/webhook.py:362-377 | a registered webhook goes away only in the STOP callback of the last join of the group whose id it is |
| WebhookRuns.OwnedRunIff | custom_components/ttlock_connect/webhook.py:313-327 | every registered webhook has a listed group throughout a run if and only if no event of it registers for a group that has left the dictionary |
| WebhookRuns.NothingLeftBehindIff | custom_components/ttlock_connect/webhook.py:280-289 | when all joins are undone no group is left, and no webhook if and only if each had a listed group |
| WebhookRuns.NothingLeftBehind | custom_components/ttlock_connect/webhook.py:280-289 | so nothing is left behind by any run without such an event, early STOPs allowed |
| WebhookWitnesses.EarlyStopLeavesAWebhook | custom_components/ttlock_connect/webhook.py:280-289 | a STOP while the URL is being got does leave a webhook behind: a run of seven steps, in which no group is made after the STOP |
| WebhookSafety.MarksKeptIff | custom_components/ttlock_connect/webhook.py:401-422 | a step keeps confirmed groups' members marked if and only if it is not traffic for an entry without a status whose id is not its application's group's, while that group has a member without one |
| WebhookRuns.MarkedRunIff | custom_components/ttlock_connect/webhook.py:401-422 | confirmed groups' members are marked throughout a run if and only if it has no such traffic |
| WebhookRuns.OwnedRunsMark | custom_components/ttlock_connect/webhook.py:401-422 | a run that orphans no webhook has no such traffic |
| WebhookLifetime.OneGroupKeptIff | custom_components/ttlock_connect/webhook.py:262-276 | that each application has one group at most and all who joined it hold its id, even once it is gone, is kept by a step if and only if the step makes no second group |
| WebhookLifetime.OneGroupAfterRun | custom_components/ttlock_connect/webhook.py:110-117 | so it holds after every run in which no group is made after a STOP callback; `setup` sees to that |
| WebhookLifetime.LifetimeIsSafe | custom_components/ttlock_connect/webhook.py:110-117 | through every such run, however early its STOPs, no stale URL is stored and no traffic misses a member: stored URLs match their ids and confirmed groups' members are marked in every state |
| WebhookLifetime.ConfirmedGroupsAreMarked | custom_components/ttlock_connect/webhook.py:401-422 | after every such run everybody who joined a confirmed group carries the confirmed status |
| WebhookLifetime.NoIssueAfterConfirmation | custom_components/ttlock_connect/webhook.py:309-311 | in every such run a confirmed group stays confirmed and no setup issue is raised for it again |
| WebhookLifetime.StoredUrlsMatch | custom_components/ttlock_connect/webhook.py:211-222 | after every such run each stored URL was made for the id stored beside it |
| WebhookLifetime.JoinedHoldTheGroupsId | custom_components/ttlock_connect/webhook.py:242-260 | after every such run whoever joined a group holds its id, its STOP callback run or not |
| WebhookSafety.OwnersKeptIff | custom_components/ttlock_connect/webhook.py:313-327 | a step leaves every registered webhook with a listed group if and only if it does not register for a group that has left the dictionary |
| WebhookSafety.UrlsKeptIff | custom_components/ttlock_connect/webhook.py:291-294 | a step leaves every stored URL made for the id beside it if and only if it does not store one the cloud made for an id the entry no longer has |
| WebhookRuns.CoherentRunIff | custom_components/ttlock_connect/webhook.py:291-294 | stored URLs match their ids throughout a run if and only if no event of it stores such a URL |
| WebhookSafety.NoIssueOnceConfirmed | custom_components/ttlock_connect/webhook.py:309-311 | with confirmed groups' members marked, no step raises a setup issue for a confirmed group or makes it unconfirmed |
| WebhookSafety.TimelyIsSafe | custom_components/ttlock_connect/webhook.py:280-327 | without an early STOP no step registers for a group that is gone or stores a stale URL |
| WebhookRuns.TimelyRunsAreSafe | custom_components/ttlock_connect/webhook.py:262-422 | a run in which no STOP comes before its call is finished has none of the three bad events |
| WebhookIds.SeparateStep | custom_components/ttlock_connect/webhook.py:184-209 | entries of different applications never come to hold the same id, if they did not at first |
| WebhookIds.MembersKeepTheWebhook | custom_components/ttlock_connect/webhook.py:362-377 | after any run, a group that has members and has registered its webhook has it registered still, whatever the other groups did, if stored ids were separate by application at first |
| LockStore.LockStateStore.Update | custom_components/ttlock_connect/store.py:50-54 | the attributes given are merged into one lock's entry in memory and on disk; no other lock's entry changes |
| LockStore.MergeKeeps | custom_components/ttlock_connect/store.py:50-54 | an attribute given is stored, one not given stays |
| LockStore.LockStateStore.Get | custom_components/ttlock_connect/store.py:45-48 | what is stored for the lock, read from disk on first use |
| LockStore.WriteRestartRead | custom_components/ttlock_connect/store.py:40-54 | what is written about a lock is read back by a new store after a restart, whatever was written about another lock in between |
| LockCoordinatorObject.LockUpdateCoordinator.UpdateData | custom_components/ttlock_connect/coordinator.py:369-477 | a poll, fetch by fetch with its early failures, is one step of the model; the store entries of other locks stay |
| LockCoordinatorObject.LockUpdateCoordinator.PresentSensor | custom_components/ttlock_connect/coordinator.py:521-531 | a present sensor is asked once more than a day has passed |
| LockCoordinatorObject.LockUpdateCoordinator.BeginProbe | custom_components/ttlock_connect/coordinator.py:548-562 | when a lock without a known sensor is probed, and that a verdict allows one recheck |
| LockCoordinatorObject.LockUpdateCoordinator.RecordProbe | custom_components/ttlock_connect/coordinator.py:566-594 | what a probe writes to the store |
| LockCoordinatorObject.LockUpdateCoordinator.PollState | custom_components/ttlock_connect/coordinator.py:411-446 | the choice between Bluetooth, webhook and cloud, and what each writes |
| LockCoordinatorObject.LockUpdateCoordinator.ProcessWebhookData | custom_components/ttlock_connect/coordinator.py:611-647 | a pushed record: state, user, reason, door, battery and the auto-lock task |
| LockCoordinatorObject.LockUpdateCoordinator.HandleAutoLock | custom_components/ttlock_connect/coordinator.py:649-671 | a task waits the delay less the time the message was under way |
| LockCoordinatorObject.RestartAll | custom_components/ttlock_connect/coordinator.py:243-315 | a new coordinator starts with no gates and no recheck behind it, and with the record as stored |
| CoordinatorRuns.KnownStaysKnown | custom_components/ttlock_connect/coordinator.py:369-477 | over any run, a known lock state becomes unknown only through the update service or a restart |
| CoordinatorRuns.PollPublishesIff | custom_components/ttlock_connect/coordinator.py:428-477 | a failed poll publishes nothing; after one that succeeds the state is unknown only if it was, Bluetooth said nothing and the query failed |
| PollOutcome.PollFollowsPlan | custom_components/ttlock_connect/coordinator.py:369-477 | a poll makes the queries that are due, in their order, up to the first that fails, and succeeds exactly when none does; which are due is told from ages, the feature, the sensor record and what is known |
| PollOutcome.PollPublishes | custom_components/ttlock_connect/coordinator.py:369-477 | every field a poll that succeeds publishes, by cases on what was due and answered: the state and the door from the lock, from webhooks as they were, or from the cloud, where only "locked" is locked |
| PushOutcome.PushPublishes | custom_components/ttlock_connect/coordinator.py:611-647 | what a pushed record sets: a lock record true, an unlock record false, a closed door with a sensor true and closed, an opened one only open; user, reason and battery with it |
| PushOutcome.PushLeavesAlone | custom_components/ttlock_connect/coordinator.py:611-622 | another lock's record or one that did not succeed changes nothing |
| PushOutcome.CommandPublishes | custom_components/ttlock_connect/coordinator.py:743-763 | a command the cloud took leaves what was asked for, any other nothing |
| PushOutcome.FiringPublishes | custom_components/ttlock_connect/coordinator.py:660-669 | a task that fires when due or later locks the lock and says so, and just that task is gone; none fires before |
| PushOutcome.RefreshPublishes | custom_components/ttlock_connect/coordinator.py:479-491 | refreshing codes asks for passcodes and then eKeys, and publishes both and restarts their interval when both are answered, and else nothing |
| PushOutcome.UpdatePublishes | custom_components/ttlock_connect/services.py:610-615 | the update service makes the state unknown and nothing else |
| PushOutcome.RestartPublishes | custom_components/ttlock_connect/coordinator.py:243-315 | a restart starts from the seed data with no gates or tasks and keeps the sensor record |
| PushOutcome.StateIsLastWord | custom_components/ttlock_connect/coordinator.py:369-671 | after any run the lock's state is what the last event that tells it said, and what it was if none did |
| PushOutcome.TaskStartedIff | custom_components/ttlock_connect/coordinator.py:649-671 | an auto-lock task is started by an unlock record that counts, with a delay set and no passage mode, and by nothing else |
| CoordinatorRuns.StateAskedByPoll | custom_components/ttlock_connect/coordinator.py:415-430 | a poll asks the cloud for the state at most once, and not if Bluetooth told it or a confirmed webhook keeps a known state |
| CoordinatorRuns.NoStateQueries | custom_components/ttlock_connect/coordinator.py:493-505 | over any run from a known state, webhook-only mode with a confirmed webhook, or answers over Bluetooth, means no state query at all |
| CoordinatorRuns.TasksAreConserved | custom_components/ttlock_connect/coordinator.py:649-671 | through any run without a restart every auto-lock task under way or queued is still under way with its due time or has fired, once, and there are no others |
| CoordinatorRuns.FiringLocks | custom_components/ttlock_connect/coordinator.py:660-671 | whatever task fired in a run did so when due or later, and locked the lock |
| CoordinatorRuns.AutoLockIsOnTime | custom_components/ttlock_connect/coordinator.py:649-671 | whenever a push of an unlock is handled, a task is due the delay after the unlock and the handling's lag behind the server, or at once if the delay was over; after any events without a restart it is still under way or has fired |
| AbsenceProtocol.StaysCoherent | custom_components/ttlock_connect/coordinator.py:533-594 | over any run with any restarts the persisted count is between 0 and 3 and absence is confirmed exactly when it is 3, starting from no record or any such record |
| AbsenceProtocol.LookRecords | custom_components/ttlock_connect/coordinator.py:548-594 | when a sensor that is not known is looked for and what that writes down, reply by reply |
| AbsenceProtocol.FailuresAreDaysApart | custom_components/ttlock_connect/coordinator.py:552-562 | counted failures are more than a day apart, across restarts |
| AbsenceProtocol.AtMostThreeProbesAndOnePerRestart | custom_components/ttlock_connect/coordinator.py:533-594 | with replies of "not found" only, r restarts allow at most 3 + r probes in all |
| AbsenceProtocol.BatterylessSensorIsProbedAgain | custom_components/ttlock_connect/coordinator.py:566-571 | a sensor found without a battery level settles nothing: any later poll probes again |
| CallBudget.SlowCallBudget | custom_components/ttlock_connect/coordinator.py:507-513 | in a run of succeeding polls within T, each slow call is made at most T/S + 1 times, and the gateway call never without a gateway |
| CallBudget.SlowCallBudgetOfAnyPolls | custom_components/ttlock_connect/coordinator.py:507-513 | whether polls succeed or not, each slow call is made at most T/P + 1 times within T and answered at most T/S + 1 times, passcodes and eKeys together |
| CallBudget.SlowDataIsFresh | custom_components/ttlock_connect/coordinator.py:507-513 | after a succeeding poll nothing fetched slowly is a slow interval old |
| CallBudget.StateQueryBudget | custom_components/ttlock_connect/coordinator.py:411-430 | polls at least P apart, whether they succeed or not, query the state at most T/P + 1 times |
| CallBudget.OneStartUpQuery | custom_components/ttlock_connect/coordinator.py:421-430 | webhook-only mode with a confirmed webhook and an answering cloud queries it once at most |
| CallBudget.SensorQueryBudget | custom_components/ttlock_connect/coordinator.py:515-594 | the sensor of any lock with the feature, present, absent or not looked for yet, is queried at most T/day + 1 times |
| CallBudget.NoSensorNoQueries | custom_components/ttlock_connect/coordinator.py:399-409 | a lock without the sensor feature is never asked about one |
| UsageEstimate.TotalIsNearExact | custom_components/ttlock_connect/usage_estimate.py:90-98 | the total of the rounded parts is within 2.5 calls of the unrounded estimate |
| UsageEstimate.OneLockWithinEstimate | custom_components/ttlock_connect/usage_estimate.py:66-88 | a month of scheduled polling of one lock, with or without a sensor paired, makes no more calls than the unrounded estimate for it, plus one of each kind |
| EstimateReached.StatePartIsReached | custom_components/ttlock_connect/usage_estimate.py:66-75 | a month of polls at the configured interval queries the state as often as the estimate says; with confirmed webhooks instead the estimate has no such part |
| EstimateReached.SlowPartsAreReached | custom_components/ttlock_connect/usage_estimate.py:77-84 | with polls a slow interval apart, if that is allowed, the slow calls of both parts are as many as the estimate says |
| EstimateReached.SlowCallIsReachedIff | custom_components/ttlock_connect/usage_estimate.py:67-83 | for each slow call some ordinary month reaches its estimate less one if and only if polls are no further apart than slow fetches, or the polls of a month suffice: the estimate takes no account of the poll interval there |
| EstimateReached.SensorPartIsReached | custom_components/ttlock_connect/usage_estimate.py:89-90 | some ordinary month queries a sensor as often as the estimate says; without the feature there is no such part |
| EstimateReached.AllPartsAreReached | custom_components/ttlock_connect/usage_estimate.py:66-88 | when a slow interval is a whole number of polls and a poll comes soon enough after a day, one month reaches all parts, the sensor's less one |
| EstimateReached.DefaultsAreInTime | custom_components/ttlock_connect/usage_estimate.py:59-64 | untouched options are such |
| EstimateReached.GatewayPartIsReached | custom_components/ttlock_connect/usage_estimate.py:86-87 | gateway list cycles at their interval are as many as the estimate says |
| EstimateReached.ManualIsNothing | custom_components/ttlock_connect/usage_estimate.py:49-57 | with syncing by hand every part and the total are zero |
| EstimateReached.DefaultEstimate | custom_components/ttlock_connect/usage_estimate.py:61-98 | the estimate for untouched options and one lock with gateway and sensor, number by number |
| UsageEstimate.EstimateAdds | custom_components/ttlock_connect/usage_estimate.py:66-88 | the per-lock part of the estimate is additive over sets of locks |
| UsageEstimate.AccountWithinEstimate | custom_components/ttlock_connect/usage_estimate.py:37-98 | all calls of an account in a month stay within the estimate shown, 2.5 for rounding and one of each kind |
| ApiStats.ApiCallCounter.Record | custom_components/ttlock_connect/api_stats.py:61-74 | one call counted under its day and endpoint, then old days dropped |
| ApiStats.ApiCallCounter.Prune | custom_components/ttlock_connect/api_stats.py:80-83 | the loop deletes exactly the days before the cutoff |
| ApiStats.ApiCallCounter.TodayCount | custom_components/ttlock_connect/api_stats.py:85-89 | the sum over the stored days that start with today's text, if the days are the keys |
| ApiStats.DayIsTotal | custom_components/ttlock_connect/api_stats.py:85-89 | in a tally keyed by days, one day's entry is the sum over the keys with its text |
| ApiStats.ApiCallCounter.MonthCount | custom_components/ttlock_connect/api_stats.py:97-103 | the loop adds up the days of the month |
| ApiStats.ApiCallCounter.MonthByEndpoint | custom_components/ttlock_connect/api_stats.py:105-114 | the nested loops add up each endpoint over the month, and list just the endpoints called |
| ApiStats.ApiCallCounter.ProjectedMonthCount | custom_components/ttlock_connect/api_stats.py:116-126 | the projection of the month's total |
| ApiStats.ProjectionNotBelowTally | custom_components/ttlock_connect/api_stats.py:116-126 | the projection is never below the tally |
| ApiStats.ProjectionIsProportional | custom_components/ttlock_connect/api_stats.py:116-126 | in the first six hours the projection is the tally; later it is to the tally as the month to what has gone of it, to the nearest whole number |
| Rounding.RoundTies | custom_components/ttlock_connect/api_stats.py:126 | halfway between two whole numbers the even one is taken |
| CallLog.TallyRefinesLog | custom_components/ttlock_connect/api_stats.py:61-114 | the tally's sums for today and the month, overall and by endpoint, equal the counts over the full log of calls, in any order as long as none is dated after now |
| CallLog.TodayRefinesLog | custom_components/ttlock_connect/api_stats.py:85-95 | what is stored for today, overall and by endpoint, is the count over the full log |
| CallLog.ReportRefinesLog | custom_components/ttlock_connect/api_stats.py:85-114 | what the counter reports for today, the month and each endpoint of the month are the counts over the full log; endpoints it does not list have none |
| CallLog.DaysKept | custom_components/ttlock_connect/api_stats.py:61-83 | with a clock that does not run back, each of the last 63 days has its full count and every other day none |
| CallLog.AtMost63Days | custom_components/ttlock_connect/api_stats.py:36-38 | at most 63 days are kept |
| CallLog.CurrentIsKept | custom_components/ttlock_connect/api_stats.py:80-83 | pruning on any day up to now never drops a day of the current month |
| CallLog.ProjectionCoversLog | custom_components/ttlock_connect/api_stats.py:116-126 | the projection never falls below the calls the full log has for the month |
| Calendar.IsoOrder | custom_components/ttlock_connect/api_stats.py:81-82 | ISO texts compare as the dates do and identify them |
| Calendar.BeforeIsLess | custom_components/ttlock_connect/api_stats.py:81 | days are numbered in order, so 62 days back is 62 days before |
| Calendar.YearsInDays | custom_components/ttlock_connect/api_stats.py:81 | the days before a year: 365 each, and one for every leap year |
| Calendar.MonthLengths | custom_components/ttlock_connect/api_stats.py:120 | the lengths of the months |
| Calendar.IsoDigits | custom_components/ttlock_connect/api_stats.py:81-82 | an ISO text read as numbers is the date |

## Left out

- The AES block function and any promise that a wrong key is noticed: padding cannot give one.
- HTTP, OAuth and the endpoint wrappers of `api.py`; the cloud's replies are taken as already parsed.
- Bleak connections, adapter discovery and presence callbacks; a local read is a parameter of the poll.
- Config and options flow, entities, diagnostics, translations and the gateways coordinator's contents; of the latter
  only its cycles are counted.
- Which command a reply answers: the session does not check it, so a late reply may answer the next command.
- Parsing of a webhook's form data, and dispatching its records before its status is resolved: traffic is one step.
- The repair issues `webhook_consolidation_ambiguous` and `no_webhook_url`; the choice records whether the former is due.
- Config entries added or removed during a run, and an entry whose application changes.
- Text outside ASCII in keys: Python's other digits and blanks are not modelled.
- Fields of `lock/detail` that are only copied (name, MAC, model, revisions, sound) are one value; so is the passage-mode
  schedule, whose activity at an instant is a parameter.
- Polls that overlap, two coordinators on one lock, and a push that arrives during a poll and is overwritten by it.
- Time zones and daylight saving: times are seconds, and the counter's dates are those its clock shows.
- Floating-point error: the estimate and the projection are exact until they are rounded.
- The order of the counter's breakdowns, busiest first, and the order of dictionaries in general.
- The counter's debounced saving to disk: a day's last half minute may be lost in a crash.
- The capture ring buffer, `passage_mode_active`, `LockStatus.parse` and `feature_value_bytes`: easy members.
- The order in which calls waiting for the lock get it, and that a free lock is taken at once: see above.
