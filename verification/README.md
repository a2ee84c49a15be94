# Verified model of the node's protocols and its QR encoder

This project models the parts of the node software where a mistake is hardest to see, and proves what
they are for. Each file of the source that changes state step by step has a Dafny class or method that
does the same, proved equal to a step function; the theorems are about every sequence of those steps.

- **QR encoder** (`public/qr.js`). Bytes to a symbol, version 1 to 20, error correction level L. The
  tables are proved to be the field GF(256)/0x11d, with multiplication defined by shift and xor; the
  shift register is proved to be division by the generator polynomial; the zigzag walk is proved to meet
  each free module once; and a decoder that sees nothing but the finished grid is proved to read back the
  bytes. Section numbers are those of ISO/IEC 18004:2015.
- **Hosted work queue** (`src/control-plane-tasks.ts`, `src/work-result-outbox.ts`). One node is a state
  with one step per stretch between two awaits; a fleet of nodes, a control plane, a clock and messages in
  flight form a second state machine above it.
- **Relay chunks and freshness** (`src/relay-chunk.ts`, `src/e2e.ts`). Splitting, reassembly under
  reordering, duplication and interleaving, and the replay guard.
- **Delegated runs** (`src/run-tools.ts`, and what the control plane's
  `services/control-plane/src/index.ts:3369-3412` makes of a start). The source string printed and parsed
  down to UTF-16, UTF-8 and base64url, trimming and merging by the control plane, the promise chain that
  makes starts take turns, the child limit, the idempotency key, the cache, who is shown whose runs, and
  the wait.
- **Keys and vaults** (`src/team-vault.ts`, `src/device-registry.ts`, `src/automation-reseal.ts`, and the
  control plane's `write` in `services/control-plane/src/team-vault.ts`). Cryptography is symbolic: what is
  sealed under a key opens under that key and no other; new keys, secrets and ids do not repeat.
- **Buffers and traversals** (`src/terminal.ts`, `src/node-stats.ts`, `src/history-sync.ts`).

## Where the code does less than it promises

Each of these is proved with a concrete case or as an exact condition.

- A pass over the result outbox works on a snapshot and removes by item. It can come to remove a newer
  result of an item, which nobody answered, just when a listing asked for before the pass is still being
  fetched and the snapshot's result is gone or the run that owns it can still get it answered
  (`PassRemovesAnotherJustWhen`, reached in `StaleSnapshot`); an entry whose item has no run in flight is
  safe (`EntryUnchanged`).
- A frame stamped at its first acceptance or later, and no other, can be accepted again in some
  continuation of any history (`ReplayedJustWhen`).
- A team vault write by a machine that cannot open the newest generation is safe just when it is based on
  the generation that machine kept; the guard compares with the vault's generation only
  (`UnreadBaseIsNewestJustWhen`, `StaleBaseLosesAKey`).
- When the control plane stores a team vault and the machine gives up on the answer, some machine can open
  the newest generation again just when the request did not bring a fresh key. Otherwise no machine has
  kept the key, and from then on nobody can open the vault or write to it (`OpenedAgainJustWhen`,
  `StrandedForGood`).
- The limit of 100 team keys is tested with `in`, which is true of names every object inherits, so seven
  more are possible (`LimitExceededJustWhen`); the same test leaves a removed key of such a name in the
  machine's store (`KeepsJustTheVaultsKeys`).
- Re-sealing writes the text it listed: text entered between listing and turn is lost just when the listed
  copy was under a retired key and nothing is entered afterwards (`TextLostJustWhen`). When a pass ends and
  forgets the retired keys, a template is lost just when the last store that the pass did not overwrite was
  under another key than the room key (`EndLosesJustWhen`). A ninth rotation before a finished pass loses
  the templates under the oldest key (`RotationLosesJustWhen`).
- A flag belongs to the listed copy: a template that is stored again before its turn is still flagged when
  that copy could not be opened (`FlaggedJustWhen`). A pass reads its keys before it awaits the listing, so
  a template stored in between under a key rotated to in between is flagged though the node can read it,
  and no later pass clears the flag (`CarefulFlagJustWhen`, `WrongFlagStays`).
- The control plane trims a start's ids and key before it prints the source; the node looks for the source
  and counts its children with the ids as they are. The limit of three children holds for a session just
  when its id is trimmed and has no lone surrogate (`ChildLimitJustWhen`), and the listing shows a start's
  own run just when ids and key are trimmed (`FindsOwnJustWhen`, `OneRunPerKeyJustWhen`). Parked children
  that go on come on top of the three (`ParkedChildrenAddUp`).
- A session can be shown a run of another session's start, the owner's, in some run of events just when the
  owner can start runs and there is a session that is the owner or one the control plane cannot tell from it
  (the trimmed ids are the same up to lone surrogates, or run together with a key through a NUL), and that is
  the asker or has an id which the asker's id followed by a colon begins, or the other way round when names
  of runs may hold colons. With a third session in between, ids that share nothing are enough: ` a` is shown a
  run of `a:b` through ` a:b` (`ShownToAnotherJustWhen`, `ThirdSession`).
- The answer of a finished run, once shown, can be replaced by another when an ask that began before the
  answer was kept gets its reply (`AnswerStaysJustWhen`).
- On one machine a tick that is answered late can replace the key a push has just written by an older one
  (`TickDuringPushKeepsKeyJustWhen`). If the copy the machine sealed for itself is lost too, nobody opens the
  vault again; only that machine can still save, under a fresh key, until it restarts
  (`OverlapLosesJustWhen`, `HolderSaves`).
- A client appends a tail when the counts fit and does not look at what the counts are of. Two history requests on
  their way at once can leave it with a transcript that never was, and the next sync does not mend it
  (`ArrivalExactJustWhen`, `MistakeReached`, `MistakeStays`).
- The receiver of relay chunks remembers 256 closed groups: a late chunk opens its group again just when 256
  were closed since, or the closing expired (`LateChunkReopensJustWhen`).

## Model

| member | source | states |
|---|---|---|
| Encodation.ChooseVersion | public/qr.js:107-113 | The smallest version whose data capacity holds mode, count and bytes; an error exactly above 858 bytes. |
| Encodation.FitsBelow859 | public/qr.js:103-113 | Data that fits a version is at most 858 bytes, and its length fits that version's character count field. |
| Capacity.FitsTable | public/qr.js:103-113 | A version holds exactly as many bytes as table 7 of the standard says. |
| Encodation.Put | public/qr.js:117-119 | Appends the low bits of a value, most significant first. |
| Capacity.NatBitsAt | public/qr.js:117-119 | Bit i of a number written in len places is the one of weight 2^(len-1-i). |
| Encodation.PutMessage | public/qr.js:120-122 | Section 7.4: mode 0100, character count, then the data bits. |
| Encodation.Terminate | public/qr.js:124-128 | Up to four terminator bits within the capacity, then zeros to a byte boundary. |
| Encodation.Pad | public/qr.js:129-135 | Alternating pad bytes 0xec and 0x11 up to the capacity. |
| Encodation.ToBytes | public/qr.js:136-143 | Each byte is the next eight bits, first bit highest. |
| Encodation.EncodeData | public/qr.js:115-144 | The code words spell the whole encoded bit stream and fill the version's capacity exactly when the data fits. |
| Capacity.CodewordsAre | public/qr.js:115-144 | Every code word in closed form: mode 4 and the length in halves of bytes, the data half a byte out of step, half a byte of terminator, then 0xec and 0x11 in turn. |
| Encodation.ParseEncoded | public/qr.js:115-144 | Reading mode, count and that many bytes from the code words gives back the input, for every input that fits. |
| GFTables.BuildTables | public/qr.js:15-27 | EXP holds the powers of alpha at all 512 places and LOG the exponent below 255 of every nonzero byte. |
| GFTables.RepeatPowers | public/qr.js:26 | The second loop continues the powers with period 255. |
| GFTables.TableMul | public/qr.js:29-32 | The table lookup, with its test for zero, is the shift-and-xor product of the field. |
| GF256.MulAdd | public/qr.js:29-32 | The product distributes over xor on both sides. |
| GF256.MulCommutes | public/qr.js:29-32 | The product commutes. |
| GF256.MulAssociates | public/qr.js:29-32 | The product is associative. |
| GF256.MulNonZero | public/qr.js:29-32 | A product is zero just when a factor is. |
| GF256.AlphaOrder | public/qr.js:15-27 | alpha^255 is 1, and no proper divisor of 255 already gives 1. |
| GF256.AlphaToTheEighth | public/qr.js:15-27 | alpha^8 is 0x1d: the field is the one of x^8 + x^4 + x^3 + x^2 + 1. |
| GF256.AlphaInjective | public/qr.js:15-27 | The first 255 powers of alpha differ, so no LOG entry is written twice. |
| GF256.LogExists | public/qr.js:15-27 | Every nonzero byte is one of those powers, so every LOG entry but LOG[0] is written. |
| ReedSolomon.RsGenerator | public/qr.js:35-46 | The nested loops build the product of (X + alpha^0) ... (X + alpha^(degree-1)). |
| ReedSolomon.GeneratorRoots | public/qr.js:35-46 | The generator is zero at those powers of alpha and nowhere else. |
| ReedSolomon.GeneratorMonic | public/qr.js:49-51 | Its leading coefficient is 1, so dropping it loses nothing. |
| ReedSolomon.Feed | public/qr.js:53-60 | One round of the register: shift, then add the divisor times the factor. |
| ReedSolomon.RsEncode | public/qr.js:48-62 | The loop leaves the register after all data bytes, also for an empty register. |
| ReedSolomon.RsStepDivides | public/qr.js:53-60 | A round of the register is a step of long division. |
| ReedSolomon.CodewordIsMultiple | public/qr.js:48-62 | Data followed by the register is a multiple of the generator: the register is the remainder. |
| ReedSolomon.CodewordVanishes | public/qr.js:48-62 | Section 7.5: data with its error correction words evaluates to zero at alpha^0 .. alpha^(ecCount-1). |
| RSDistance.SparseMultiple | public/qr.js:48-62 | A polynomial of at most 255 terms with n consecutive zeros has more than n nonzero terms or none. |
| RSDistance.BlocksFarApart | public/qr.js:48-62 | Different data blocks give code words that differ in more than ecCount places. |
| RSDistance.CorrectableErrors | public/qr.js:48-62 | A word with at most half ecCount wrong bytes comes from one block only. |
| FinalSequence.CutBlocks | public/qr.js:146-157 | The blocks are the consecutive slices the version's table asks for. |
| FinalSequence.ConcatCut | public/qr.js:151-157 | The slices joined are the code words, and have the table's lengths. |
| FinalSequence.Interleave | public/qr.js:163-169 | Byte i of every block that has one, for each i in turn. |
| FinalSequence.BuildFinalSequence | public/qr.js:146-176 | Section 7.6: interleaved data blocks, then interleaved error correction blocks. |
| FinalSequence.DeinterleaveAll | public/qr.js:163-174 | Interleaving is undone from the block lengths alone. |
| FinalSequence.FinalLength | public/qr.js:146-176 | The final sequence has every data and error correction byte of the version. |
| FinalSequence.ReadFinal | public/qr.js:146-176 | From the final sequence and the version one gets back the code words and each block's error correction words. |
| Placement.DataByteStands | public/qr.js:146-177 | Byte i of block b stands at i times the number of blocks plus b, and the last byte of a longer block after them. |
| Placement.EcByteStands | public/qr.js:146-177 | Error correction byte i of block b stands behind the data, at i times the number of blocks plus b. |
| Drawing.Matrix.constructor | public/qr.js:179-187 | Nothing drawn and nothing reserved. |
| Drawing.Matrix.SetFn | public/qr.js:189-192 | One module gets its value and becomes a function module; no other changes. |
| Drawing.Matrix.PlaceFinder | public/qr.js:194-206 | Finder and separator, cut off at the edge; every other module unchanged. |
| Drawing.Matrix.PlaceAlignment | public/qr.js:208-223 | Every alignment pattern but those on a finder; every other module unchanged. |
| Drawing.Matrix.PlaceTimingAndDark | public/qr.js:225-231 | Timing where nothing was drawn, and the dark module. |
| Drawing.Matrix.ReserveFormat | public/qr.js:233-243 | The format places become light function modules unless they were drawn. |
| Drawing.Matrix.ReserveVersion | public/qr.js:245-254 | From version 7 on the two version blocks become light function modules. |
| Drawing.BaseCellIs | public/qr.js:391-402 | The order of drawing gives a closed form for value and reservation of every module. |
| Drawing.BuildBase | public/qr.js:391-402 | The loops draw exactly that closed form. |
| Counting.AlignmentByAxis | public/qr.js:208-223 | Whether a module is in an alignment pattern, decided from its row and its column separately. |
| Counting.ColumnCount | public/qr.js:391-402 | How many modules of a column are free. |
| Counting.FreeModules | public/qr.js:270-289 | For every version the free modules are eight per byte of the final sequence plus the standard's remainder bits. |
| Zigzag.WalkMembers | public/qr.js:274-279 | The walk meets every module of its columns except the timing column. |
| Zigzag.WalkDistinct | public/qr.js:274-279 | It meets none twice. |
| Zigzag.FreeCellsExact | public/qr.js:270-289 | The modules placeData writes are exactly the free ones, each once, and there are enough for every bit. |
| Placement.DataInTurn | public/qr.js:270-289 | The free modules come in the order of a turn computed from row and column: pair of columns from the right without the timing column, upwards and downwards by turns, right module first. |
| Placement.MaskFlips | public/qr.js:256-268 | Which modules each mask flips, by remainders of row, column and their product. |
| Drawing.Matrix.PlaceModule | public/qr.js:278-285 | One step writes the next bit, masked, unless the module is a function module. |
| Drawing.Matrix.PlacePair | public/qr.js:276-286 | One pass over two columns, up or down. |
| Drawing.Matrix.PlaceData | public/qr.js:270-289 | The k-th free module holds bit k, false past the end, xor the mask; no function module changes. |
| Bch.BchWord | public/qr.js:291-298 | The loop appends the remainder of the shifted value to the value. |
| Bch.WordDivides | public/qr.js:291-328 | Sections 7.9 and 7.10: every format and version word, before the final mask, is divisible by its generator. |
| Bch.FormatWordIs | public/qr.js:291-303 | Every format word is the one of table C.1 of the standard for its mask and level L. |
| Bch.VersionSeven | public/qr.js:321-328 | The word of version 7 is the first of table D.1. |
| Bch.MaskOfFormatWord | public/qr.js:291-303 | The mask number and level L are read back from the fifteen format bits. |
| Drawing.Matrix.PlaceFormat | public/qr.js:300-319 | Both copies of the fifteen bits, and no other module. |
| Drawing.Matrix.PlaceVersion | public/qr.js:330-341 | Both copies of the eighteen bits from version 7 on, and no other module. |
| Patterns.FormatPlaces | public/qr.js:305-318 | Each format bit stands at exactly two places, one in column 8 and one in row 8. |
| Drawing.VersionPlaces | public/qr.js:334-340 | Each version bit stands at exactly two places, mirrored on the diagonal. |
| Patterns.InformationIsReserved | public/qr.js:300-341 | Format and version bits fall only on modules reserved for them: never data, finder, alignment, timing or the dark module, nor on each other. |
| Patterns.FormatShown | public/qr.js:300-319 | On the finished symbol both copies of each format bit are the bit of the tabulated word. |
| Patterns.VersionShown | public/qr.js:330-341 | From version 7 on both copies of each version bit are the bit of the version's word. |
| Patterns.AlignmentSteps | public/qr.js:89-96 | The centres of the alignment patterns are the first in line with the timing pattern, the last seven from the edge, the others at equal even steps, as many as annex E asks for. |
| Patterns.SymbolRecognisable | public/qr.js:194-231 | Whatever is encoded and under every mask: around each finder centre a module at distance up to 4 is dark just when that is 0, 1 or 3, around each alignment centre up to 2 just when it is 0 or 2, the timing patterns alternate, and the dark module is dark. |
| Penalty.ScoreLine | public/qr.js:345-359 | The running score of a line is the sum over its maximal runs of length L of L - 2 where L is at least 5. |
| Penalty.LastRunIsMaximal | public/qr.js:345-359 | The run taken off the end of a line is all the equal modules there and no more. |
| Penalty.ScoreRuns | public/qr.js:345-359 | Rule 1 over all rows and all columns. |
| Penalty.ScoreBlocks | public/qr.js:360-366 | Rule 2 is three for each place where a one-coloured block of four begins. |
| Penalty.ScorePatterns | public/qr.js:367-381 | Rule 3 is forty for each place where a finder-like pattern begins in a row or in a column. |
| Penalty.CountDark | public/qr.js:382-384 | The counter is the number of dark modules. |
| Penalty.ComputePenalty | public/qr.js:343-389 | The four rules add up to the score of section 7.8.3. |
| Penalty.LineScoreByWindows | public/qr.js:345-359 | Rule 1 counted otherwise: one for every five modules of one colour and two more where a run reaches five. |
| Penalty.FinderLikeMeans | public/qr.js:367-381 | A finder-like stretch is dark just at distance 0, 1 or 3 from a centre, with four light modules on one side. |
| Penalty.ProportionBand | public/qr.js:382-389 | The steps of rule 4 are the whole times five percent that the dark modules are off one half. |
| Penalty.StripedScore | public/qr.js:343-389 | The whole score of any symbol of equal rows, with every weight. |
| Penalty.TurnedScore | public/qr.js:343-389 | A symbol and its mirror image about the diagonal score the same. |
| Drawing.Matrix.Clone | public/qr.js:404-413 | A fresh copy of every module and reservation. |
| Generator.DrawMask | public/qr.js:430-434 | Base, data, format and version in that order give the symbol of this mask, module by module. |
| Generator.BestMask | public/qr.js:428-438 | The first mask with the lowest penalty. |
| Symbols.FunctionModules | public/qr.js:391-402 | A module is drawn by buildBase just when it is a function module, and information bits stand on function modules only. |
| Symbols.DataReadBack | public/qr.js:270-289 | Reading the free modules in walk order and unmasking them gives the bits. |
| Symbols.DecodeSymbol | public/qr.js:415-439 | Section 7 whole: a decoder that knows only the grid reads back exactly the encoded bytes, under every mask. |
| SymbolErrors.BlockReadBack | public/qr.js:415-439 | The bytes of each block read from the grid alone are a data block of the code words followed by its error correction bytes. |
| SymbolErrors.BlocksVanish | public/qr.js:415-439 | Section 7.5 on the finished grid: every block read from it evaluates to zero at alpha^0 .. alpha^(ecCount-1). |
| SymbolErrors.SameLengthInAnyGrid | public/qr.js:163-174 | However a grid is damaged, the blocks read from it are as long as those written. |
| Bch.FormatWordsApart | public/qr.js:291-303 | Section 7.9: the format words of two masks differ in at least seven of the fifteen places. |
| Bch.FormatSurvives | public/qr.js:291-303 | So fifteen bits that are within three places of the words of two masks are of one mask. |
| SymbolErrors.DamagedDeterminesInput | public/qr.js:415-439 | A grid that differs from a symbol in at most three of its first fifteen format bits and, in each block, in at most half as many bytes as the block has error correction bytes comes from one input and one mask only. |
| Generator.Generate | public/qr.js:415-439 | From bytes: an error above 858 bytes; otherwise the smallest version, the final sequence of code words that spell the input, drawn with the best mask; the grid decodes to the bytes and its blocks vanish at the powers of alpha. The patterns a scanner looks for are all there. |
| PollerSteps.TimerWithinLease | src/control-plane-tasks.ts:462-463 | The timer is at least a millisecond and never longer than what is left of the lease. |
| PollerObjects.Poller.Tick | src/control-plane-tasks.ts:355-356 | A tick up to its first await: it begins a pass over what the outbox lists, or waits for the one in progress. |
| PollerObjects.Poller.AdvancePass | src/control-plane-tasks.ts:470-477 | The pass skips entries whose item is in flight and sends the next one; at its end the ticks that waited go on to fetch. |
| PollerObjects.Poller.ListingArrives | src/control-plane-tasks.ts:357-390 | A listing comes only from a fetch that is out, and is taken in once. |
| PollerObjects.Poller.TakeIn | src/control-plane-tasks.ts:363-390 | Takes the listed items in order up to the cap, skipping those running, recorded, handed off or not eligible. |
| PollerObjects.Poller.HandOffSettled | src/control-plane-tasks.ts:393-405 | A hand-off that failed keeps the item here. |
| PollerObjects.Poller.ClaimAnswered | src/control-plane-tasks.ts:423-431 | The claim reply sets token, attempt limit and deadline, or ends the run. |
| PollerObjects.Poller.RunningAnswered | src/control-plane-tasks.ts:431-440 | A rejected running transition ends the run before any agent work. |
| PollerObjects.Poller.SetDeadline | src/control-plane-tasks.ts:452-465 | Sets the timer within the lease; a lease that has run out loses the run; none without a lease. |
| PollerObjects.Poller.AgentReturns | src/control-plane-tasks.ts:568-571 | A run still active records completion; any other records nothing. |
| PollerObjects.Poller.AgentThrows | src/control-plane-tasks.ts:572-675 | Recorded item, inactive run, filter and admission errors, attempt limit, retry, park and give up, in that order. |
| PollerObjects.Poller.AttemptAnswered | src/control-plane-tasks.ts:496-521 | Only the next attempt number is accepted; a refusal is checked against the lease; anything else is asked again. |
| PollerObjects.Poller.RefusalChecked | src/control-plane-tasks.ts:511-517 | A refused reservation parks the item only while the run is still ours. |
| PollerObjects.Poller.FinishWork | src/control-plane-tasks.ts:481-484 | Records the result with the claim token before anything is sent. |
| PollerObjects.Poller.ResultAnswered | src/control-plane-tasks.ts:486-492 | An answer removes the entry; without one it is sent again while the lease holds, or kept for recovery. |
| PollerObjects.Poller.HeartbeatAnswered | src/control-plane-tasks.ts:523-548 | A renewal moves the deadline, 404 and 409 stop the run, anything else changes nothing. |
| PollerObjects.Poller.TimerFires | src/control-plane-tasks.ts:456-461 | An active run is lost; a run in any other state is left. |
| PollerObjects.Poller.FlushAnswered | src/control-plane-tasks.ts:473-475 | An answered result is removed by its id, and the pass goes on. |
| PollerObjects.Poller.Dispatch | src/control-plane-tasks.ts:355-677 | Any event is handled as the step function says, keeps the invariant, starts no run of an item with a kept result, and removes a result only when it was answered. |
| PollerObjects.Poller.Drive | src/control-plane-tasks.ts:355-677 | The object driven by any schedule keeps every result until it is answered and never calls the agent for its item again. |
| PollerObjects.WorkResultOutbox.Put | src/work-result-outbox.ts:25-37 | The entry is in memory even when the write throws; on disk just when the rename took effect. |
| PollerObjects.WorkResultOutbox.Remove | src/work-result-outbox.ts:26-37 | Gone from memory even when the write throws; from disk just when the rename took effect. |
| PollerObjects.WorkResultOutbox.List | src/work-result-outbox.ts:23 | Every kept entry once. |
| PollerObjects.ParseRows | src/work-result-outbox.ts:17-21 | One malformed row refuses the whole file; otherwise the last row of each id counts. |
| PollerObjects.LastRowWins | src/work-result-outbox.ts:17-21 | An id is in the file just when a row has it, with the token and action of its last row. |
| PollerSafety.HandleOk | src/control-plane-tasks.ts:355-677 | Every step of a node keeps the invariant on runs, outbox, disk and reservations. |
| PollerSafety.RunHistory | src/control-plane-tasks.ts:559-677 | In every history a run calls the agent with attempts n, n+1, ... at most max(1, limit - start + 1) times and records at most one result. |
| PollerSafety.EveryStep | src/control-plane-tasks.ts:355-677 | No step runs an item that has a recorded result, makes an inactive run active, or removes an entry that was not answered. |
| PollerSafety.NeverRunAgain | src/control-plane-tasks.ts:366-578 | From the moment a result is kept until it is answered the item is never run again, through failing writes, crashes and reloads. |
| PollerSafety.EntryUnchanged | src/control-plane-tasks.ts:467-479 | An entry whose item has no run in flight is the same when its answer arrives. |
| PollerOutcomes.KeptResultsExplained | src/control-plane-tasks.ts:407-675 | Under any schedule, crashes included, every kept result that was not in the file at the start is what a run of the item claimed with its token came to: complete only if the agent returned, failed only if it threw and the policy gave up, needing attention only after a filter or admission error, a park, the attempt limit or a refused reservation; first attempt and limit are those of the claim. |
| PollerOutcomes.EndsAreKept | src/control-plane-tasks.ts:559-675 | Conversely each such end of an active run is kept, at once or after the report or lease check that follows, also when the file cannot be written. |
| PollerOutcomes.AttemptsAllowed | src/control-plane-tasks.ts:431-520 | The agent is called only after the running transition was accepted, and a run with a claim token goes on to a further attempt only after the control plane granted it. |
| PollerIntake.TakenIn | src/control-plane-tasks.ts:363-391 | One listing starts exactly the eligible free items, in order, before the first without room under the cap, and offers elsewhere exactly those to be offered before it. |
| PollerIntake.NotTaken | src/control-plane-tasks.ts:393-405 | An item no other machine took is not offered again and can be started here; a taken one cannot. |
| PollerIntake.LeaseGivesTime | src/control-plane-tasks.ts:452-465 | A claim or renewal times an active run to a second before the lease ends or nine tenths of a shorter one, and loses it when the lease is over or unknown. |
| PollerIntake.AnsweredIsGone | src/control-plane-tasks.ts:467-479 | An acknowledgement or lost claim takes a result off memory and file, another answer leaves it, and no other result changes. |
| PollerIntake.PassSendsUnowned | src/control-plane-tasks.ts:467-479 | A pass over the outbox sends next the first entry left that no run in flight owns; with none left every tick that waited fetches its listing. |
| PollerIntake.RunEndsOnlyBy | src/control-plane-tasks.ts:407-450 | An active run ends only by a denied claim, a rejected transition, an answered result, a result without token, a failed write or a crash. |
| PollerIntake.TheseEndRuns | src/control-plane-tasks.ts:407-450 | Each of these ends it, and a result nobody acknowledged stays. |
| PollerIntake.RestartReadsTheFile | src/work-result-outbox.ts:13-22 | A crash leaves what a poller started on the file has. |
| PollerFlush.PassKept | src/control-plane-tasks.ts:467-479 | A listing that arrives during a pass was already being fetched when the pass began, and the entries of a pass have different items. |
| PollerFlush.PassRemovesAnotherJustWhen | src/control-plane-tasks.ts:467-479 | With a pass on its way to an entry that is still kept as in the snapshot, or was removed with no run of its item begun since, it can come to remove another, unanswered result of the item just when a listing asked for before the pass is still out and the entry is gone or the run that owns it can still get it answered. |
| PollerFlush.StaleSnapshot | src/control-plane-tasks.ts:355-479 | That state is reached from a start by three overlapping ticks, and the removal happens. |
| Fleet.FleetOk | src/control-plane-tasks.ts:407-465 | Every step of nodes, control plane, clock and messages keeps each claimed active run within the current lease. |
| Fleet.OneActiveRun | src/control-plane-tasks.ts:407-548 | At any time at most one node holds an active claimed run of an item, with messages late or lost. |
| Relay.FrameMessages | src/relay-chunk.ts:58-72 | The payload itself in one message up to 192 KiB, its slices with id, index and count above that, an error above the receiver's limit. |
| Relay.AcceptedFits | src/relay-chunk.ts:58-72 | What the sender accepts has at most 171 nonempty chunks, within the receiver's limits. |
| RelayObjects.FrameReassembler.Purge | src/relay-chunk.ts:110 | Drops exactly the tombstones that expired. |
| RelayObjects.FrameReassembler.RemoveGroup | src/relay-chunk.ts:98-101 | Closes a group and gives its bytes back. |
| RelayObjects.FrameReassembler.AddTombstone | src/relay-chunk.ts:138-139 | Evicts the oldest of 256 tombstones before adding one. |
| RelayObjects.FrameReassembler.RejectGroup | src/relay-chunk.ts:102-108 | Closes the group, leaves a tombstone and reports the reason. |
| RelayObjects.FrameReassembler.StorePart | src/relay-chunk.ts:127-140 | A duplicate is ignored, an oversized part rejects the group, the last part delivers the join in order. |
| RelayObjects.FrameReassembler.AcceptFrame | src/relay-chunk.ts:109-141 | Every branch of accept, malformed metadata included. |
| RelayObjects.FrameReassembler.TimerFires | src/relay-chunk.ts:122 | An open group that timed out is rejected. |
| RelayObjects.FrameReassembler.ResetAll | src/relay-chunk.ts:142 | Nothing is left, and the counter is back at zero. |
| RelaySafety.AcceptOk | src/relay-chunk.ts:109-141 | Any message keeps the accounting invariant. |
| RelaySafety.ExactAccounting | src/relay-chunk.ts:91-142 | Always: the counter is the length of the stored parts and within the limit, each group's count is its filled slots and below its total, the tables are bounded, and no id is both open and remembered. |
| RelayRoundTrip.RoomFor | src/relay-chunk.ts:128 | Within the promised limits the byte test never rejects. |
| RelayRoundTrip.OneArrival | src/relay-chunk.ts:109-141 | One chunk, new or not: the receiver keeps exactly the chunks it got and answers with the payload just when it completes one. |
| RelayRoundTrip.AnswerIs | src/relay-chunk.ts:109-141 | Every arrival in any order is answered with the payload it completes or with nothing. |
| RelayRoundTrip.ExactlyOnce | src/relay-chunk.ts:58-141 | Each payload comes back exactly once and unchanged, at the arrival of its last missing chunk, under any interleaving and duplication. |
| RelayDelivery.EveryPayloadComesBack | src/relay-chunk.ts:58-141 | Short payloads and chunked ones interleaved in any way: each comes back unchanged once all its messages arrived, a chunked one at no other message. |
| RelayDelivery.ShortAnswer | src/relay-chunk.ts:110-112 | A short payload is delivered at its one message, which leaves groups, counter and tombstones as they were. |
| RelayDelivery.ExactlyOneAnswer | src/relay-chunk.ts:58-141 | When every message comes once, every payload the sender accepts, short or chunked, is the answer to exactly one message. |
| RelayOrigin.NothingInvented | src/relay-chunk.ts:109-141 | In every history, well formed or not, what is delivered is the message itself within the limit, or all slices that came under its id and count, in order. |
| RelayOrigin.NothingLostSilently | src/relay-chunk.ts:102-141 | Every message with a payload is delivered, kept in its group, or of a group that is remembered; otherwise its group is closed, remembered and reported. |
| RelayMemory.RunRemembers | src/relay-chunk.ts:98-141 | After any messages, timeouts and resets the tombstones are the end of the list of closed groups; what is missing is 256 closings old or expired. |
| RelayMemory.LateChunkReopensJustWhen | src/relay-chunk.ts:109-141 | A chunk of a closed group, with room for another group, opens the group again just when the closing is not among the last 256 or has expired. |
| Freshness.ReplayGuard.Accept | src/e2e.ts:82-89 | Refuses frames outside the window or with a nonce still remembered; remembers the others; prunes a full table. |
| Freshness.ReplayGuard.Prune | src/e2e.ts:91-95 | Drops exactly the expired nonces. |
| Freshness.AcceptancesApart | src/e2e.ts:76-96 | Two acceptances of a nonce are at least the window apart. |
| Freshness.NoReplay | src/e2e.ts:76-96 | A frame stamped before its first acceptance is never accepted again, however often the table is pruned. |
| Freshness.ReplayedJustWhen | src/e2e.ts:76-96 | After any ordered history that ends with a frame accepted, some continuation has it accepted again just when it was stamped at that moment or later. |
| Freshness.NewNonceAcceptedJustWhen | src/e2e.ts:82-89 | An accepted frame is stamped within the window before or after the clock, and one with a nonce never accepted is accepted just when it is. |
| Freshness.BoundedMemory | src/e2e.ts:86-95 | After an acceptance more than 5000 nonces are remembered only if none of them has expired. |
| TextCodec.RepairExact | src/run-tools.ts:60-68 | Replacing lone surrogates keeps the length, and the text just when it has none. |
| TextCodec.Utf8RoundTrip | src/run-tools.ts:60-68 | Encoding text as UTF-8 and decoding it replaces lone surrogates and changes nothing else. |
| TextCodec.Base64UrlRoundTrip | src/run-tools.ts:60-69 | base64url is undone by its decoder, has no colon, and is never one character long. |
| TextExamples.AlphabetIs | src/run-tools.ts:60-69 | The sixty-four characters of table 2 of RFC 4648. |
| TextExamples.FourOfThree | src/run-tools.ts:60-69 | Three bytes and their four characters are the same 24 bits. |
| TextExamples.ShortGroups | src/run-tools.ts:60-69 | One or two bytes at the end are written as if filled up with zeros, without the characters of the zeros. |
| TextExamples.Utf8Bytes | src/run-tools.ts:60-69 | How long each scalar value is in UTF-8, its first and following bytes, and its value from them. |
| TextExamples.SourceExample | src/run-tools.ts:60-69 | The source string of a start by a session named a, in full. |
| DelegationSource.ParseOfSource | src/run-tools.ts:57-73 | What parsing makes of any printed source, whatever ids, depth and key: the repaired ids within the limits, otherwise nothing. |
| DelegationSource.RoundTripJustWhen | src/run-tools.ts:57-73 | Parsing undoes printing just when depth and lengths are within the limits and no id has a lone surrogate. |
| DelegationSource.SameSourceJustWhen | src/run-tools.ts:57-61 | Two starts print the same source just when the hashed key and depth are the same and the ids are, up to lone surrogates. |
| DelegationStamp.TrimExact | services/control-plane/src/index.ts:3380-3389 | Trimming leaves no white space at the ends, and the text as it was just when there was none; otherwise it is shorter. |
| DelegationStamp.StampNames | services/control-plane/src/index.ts:3380-3391 | The source the control plane prints names the starter, trimmed and with lone surrogates replaced. |
| DelegationStamp.OneRunForBothJustWhen | services/control-plane/src/index.ts:3401-3404 | Two sessions can, each with some key, be given one run just when their trimmed ids are the same up to lone surrogates, or one followed by a NUL begins the other and the rest can begin a key. |
| DelegationObjects.RunDelegationService.BeginStart | src/run-tools.ts:138-143 | Refuses a blank or long key; otherwise takes the session's last promise and puts its own in its place. |
| DelegationObjects.RunDelegationService.EnterStart | src/run-tools.ts:144-147 | After the earlier promise is released, reads the context or gives up its turn. |
| DelegationObjects.RunDelegationService.FindSource | src/run-tools.ts:148-149 | Finds the first listed run with the source, if there is one. |
| DelegationObjects.RunDelegationService.CountActive | src/run-tools.ts:153 | The number of listed children of the session that are not settled. |
| DelegationObjects.RunDelegationService.ChooseStart | src/run-tools.ts:148-155 | Returns the run with the key, refuses at three children, or goes on to start. |
| DelegationObjects.RunDelegationService.LeaveStart | src/run-tools.ts:159-162 | Releases the promise and forgets it only if it is still the last. |
| Delegation.DoTurns | src/run-tools.ts:138-163 | Every step keeps the chain: each call waits for the last earlier call of its session. |
| Delegation.TurnsInCallOrder | src/run-tools.ts:138-163 | A call's turn comes only when every earlier call of its session is done: turns never overlap and keep call order. |
| Delegation.NobodyIsStuck | src/run-tools.ts:138-163 | A waiting call takes its turn, or leaves when the session is gone or too deep, just when every earlier call of its session is done. |
| Delegation.TurnsCanEnd | src/run-tools.ts:138-163 | A call that has its turn can end at once: by a failed listing or a failed start. |
| Delegation.MapHoldsCallsInProgress | src/run-tools.ts:159-162 | The map has an entry for exactly the sessions with a call in progress. |
| DelegationSafety.ChildJustWhen | src/run-tools.ts:153 | A run counts for a session just when that is its starter's id trimmed and with lone surrogates replaced; so for its starter just when nothing of its id is. |
| DelegationSafety.DepthIsOneMore | src/run-tools.ts:116-122 | A run's source says one more than its starter's depth, and at most three. |
| DelegationSafety.NeverMoreThanThree | src/run-tools.ts:138-163 | Whatever interleaves, no session whose id is trimmed and has no lone surrogate ever has more than three children at work that it started, apart from settled ones that went on. |
| DelegationLimits.ChildLimitJustWhen | src/run-tools.ts:138-163 | Over all runs and backends the limit holds for a session in a context just when nothing of its id is trimmed or replaced, or the control plane refuses its starts; otherwise any number is started. |
| DelegationLimits.ParkedChildrenAddUp | src/run-tools.ts:151-154 | A parked child holds no slot, and a session whose parked children go on comes to have any number at work. |
| DelegationSafety.OneRunPerKey | services/control-plane/src/index.ts:3401-3404 | The control plane makes one run of a session's key, whatever the session's own run and depth. |
| DelegationLimits.OneRunPerKeyJustWhen | src/run-tools.ts:138-163 | Over all backends, those that merge starts and those that do not, a start with a key makes one run just when nothing of its ids and key is trimmed, or it is refused. |
| DelegationSafety.KeyFindsRunJustWhen | src/run-tools.ts:146-150 | A start's key finds a run just when the run's key, session and run, as trimmed, are its own up to lone surrogates, and the depth is the same. |
| DelegationSafety.FindsOwnJustWhen | src/run-tools.ts:146-150 | A start repeated unchanged looks for the source its run carries just when its ids and key neither begin nor end with white space. |
| DelegationObjects.RunDelegationService.CheckCache | src/run-tools.ts:124-125 | A cache entry under a second old is shown unless forced; otherwise the ask waits, with the answer an entry held. |
| DelegationObjects.RunDelegationService.TakeFetched | src/run-tools.ts:126-137 | The backend's run if its source names the session, with the answer held since the ask or else fetched, cut to 8000 characters, once it is settled; or not found. |
| DelegationObjects.RunDelegationService.NoteStarted | src/run-tools.ts:155-162 | The run the backend answered with is cached under the calling session, and the promise released. |
| DelegationViews.SharedKeyJustWhen | src/run-tools.ts:124 | Two sessions can have one cache key just when they are the same or one id followed by a colon begins the other. |
| DelegationViews.OnlyParentsSee | src/run-tools.ts:123-163 | Whatever starts, asks and replies interleave, a session is shown only runs that its own starts made, as long as no two sessions share cache keys or are alike to the control plane. |
| DelegationShared.ShownToAnotherJustWhen | src/run-tools.ts:123-163 | Over all runs of starts, asks and replies of any sessions: some run shows the asker a run that a start of the owner made just when the owner can start runs and some session is the owner or not told from it by the control plane, and is the asker or one whose cache entries the asker can hit; stated for any names of runs and for names without a colon. |
| DelegationShared.ThirdSession | src/run-tools.ts:123-163 | Two sessions that share no cache key and that the control plane tells apart: one is shown a run of the other through a third, with names without a colon. |
| DelegationShared.AnswersBounded | src/run-tools.ts:130-134 | In every history an answer is kept only for a settled run, is not empty, and is at most 8000 characters. |
| DelegationCache.ShownAtOnceJustWhen | src/run-tools.ts:123-137 | In every history an ask that is not forced is shown a result at once just when that was the last one brought for its key, less than 1000 ms before; otherwise, and when forced, nothing is shown and the ask waits for the backend. |
| DelegationCache.AnswersAreGiven | src/run-tools.ts:123-137 | Every answer a reply shows is one that a settled run's machine gave for that key, whole or cut to 8000 units with an ellipsis. |
| DelegationCache.AskEndsOnce | src/run-tools.ts:123-137 | After its reply or failure an ask shows and stores nothing more. |
| DelegationCache.AnswerCloses | src/run-tools.ts:123-137 | A reply or a failure ends the ask it belongs to. |
| DelegationShared.AnswerStaysJustWhen | src/run-tools.ts:123-137 | Once an answer is kept, everything shown of the run has it, while the run stays settled, no start comes back with it and no new run takes a name that a waiting ask for the entry names, just when every ask that still waits and will find the run began when the answer was kept. |
| DelegationObjects.WaitForRun | src/run-tools.ts:165-175 | For any timeout from 1 to 300 seconds, fractions included, ends with a settled run, an error, or the first reply at or after the deadline, after at most one poll per begun second and one more; refuses any other timeout. |
| DelegationObjects.PollsEverySecond | src/run-tools.ts:165-175 | Each poll is planned a second after the last, or at the deadline when that comes first, and never at once. |
| TeamVault.PatchesKeepClean | src/team-vault.ts:147-163 | Accepted patches leave only well-formed key names. |
| TeamVault.LimitExceededJustWhen | src/team-vault.ts:158 | A patch takes a body past 100 keys just when it adds an inherited name to a full body and removes nothing. |
| TeamVault.OrdinaryKeysBounded | src/team-vault.ts:154-160 | Patches never make more than 100 ordinary keys. |
| TeamVault.AllKeysBounded | src/team-vault.ts:154-160 | So never more than 107 keys in all. |
| TeamVault.EnvelopeRoundTrip | src/team-vault.ts:130-144 | An envelope gives back its body just when it is opened with its key and every name is a key name. |
| TeamVault.KeepsJustTheVaultsKeys | src/team-vault.ts:239-243 | The machine's stored keys are the vault's just when it held no inherited name the vault has dropped. |
| TeamVaultObjects.TeamVaultSync.DoForget | src/team-vault.ts:204-209 | Files, stored keys and the body in memory are gone. |
| TeamVaultObjects.TeamVaultSync.TakeUsableKey | src/team-vault.ts:217-231 | The cached key of this generation, or the copy sealed for this machine, which is then cached. |
| TeamVaultObjects.TeamVaultSync.SetKeys | src/team-vault.ts:241 | The store takes every key of the body. |
| TeamVaultObjects.TeamVaultSync.DropOthers | src/team-vault.ts:242 | The store loses every name that is not `in` the keys. |
| TeamVaultObjects.TeamVaultSync.DoKeep | src/team-vault.ts:233-245 | Body, file and store become those of the generation. |
| TeamVaultObjects.TeamVaultSync.DoTick | src/team-vault.ts:271-309 | Left the team, no vault, cannot open, or opened, with the rotation an admin then owes. |
| TeamVaultObjects.TeamVaultSync.DoWrite | src/team-vault.ts:187-199 | Every refusal in order, or the request with the patched body and a fresh key where one is due. |
| TeamVaultObjects.TeamVaultSync.DoPushed | src/team-vault.ts:256-261 | An accepted push is kept under the generation and key generation the control plane gave it. |
| TeamVault.TickDuringPushKeepsKeyJustWhen | src/team-vault.ts:217-261 | A tick answered with an older vault between a push's key file and its body leaves the new key just when the answer brings no older copy this machine can open. |
| TeamVaultSafety.AcceptedOk | services/control-plane/src/team-vault.ts:136-165 | The control plane's compare-and-swap write: what it accepts follows from the newest body by the change it carries. |
| TeamVaultSafety.WriteOk | src/team-vault.ts:187-202 | A write based on a generation the machine kept carries the newest body changed, or can no longer be accepted. |
| TeamVaultSafety.RunOk | src/team-vault.ts:165-310 | Every interleaving of machines that each do one tick or write at a time, with answers late, lost or repeated, and restarts, keeps the invariant. |
| TeamVaultSafety.VaultIsItsChangesInOrder | src/team-vault.ts:147-262 | The vault is the accepted changes applied in generation order, none of them refused, and its generation counts them. |
| TeamVaultContents.VaultHoldsLastValues | src/team-vault.ts:146-163 | A key is in the vault just when the last accepted change that touched it set it, with the value and time of that change; text and time are those of the last change that wrote text. |
| TeamVaultContents.MachineHoldsLastValues | src/team-vault.ts:233-245 | So for every machine that opened a generation, and its store has those values and no other names but inherited ones, its file the text and times. |
| TeamVaultContents.AcceptedWithinLimits | src/team-vault.ts:145-164 | No accepted change has a text above 16 KiB, a value empty or above 8 KiB, or a bad name. |
| TeamVaultContents.LengthIsUtf8 | src/team-vault.ts:145-164 | The length that is limited is that of the UTF-8 bytes. |
| TeamVaultContents.StoredUnderANewKey | services/control-plane/src/team-vault.ts:136-198 | Once a member left whose machines had a sealed copy of the key, everything stored for the team in any continuation is under a later key generation. |
| TeamVaultContents.RotationOwedJustWhen | src/team-vault.ts:290-307 | A tick owes a rotation just when it opened a vault that asks for one on an admin's machine. |
| TeamVaultWrites.OnlyAdminsWrite | src/team-vault.ts:183-202 | A request is sent only on an answer that calls the machine an admin's in that team, and an edit is the user's own, naming the generation they saw. |
| TeamVaultWrites.RefusalsAreTrue | src/team-vault.ts:146-202 | Every refusal says what is the case. |
| TeamVaultWrites.OthersGoOnReading | src/team-vault.ts:196-200 | An ordinary write by a machine with the key brings no fresh one: everybody with the key reads the new body at the next tick. |
| TeamVaultWrites.SecondTickOpens | src/team-vault.ts:290-303 | With a good sealed copy a machine opens the vault at this tick or the next, whatever key it had cached. |
| TeamVaultWrites.LeaverKeepsNothing | src/team-vault.ts:275-283 | A machine found outside every team, or in another, keeps nothing of the team it was in. |
| TeamVaultWrites.StatusSays | src/team-vault.ts:275-304 | No team, waiting for a key, or ready, just when each is the case. |
| TeamVaultSafety.RotationKeepsBody | src/team-vault.ts:306-307 | A push onto a fresh key that the control plane stores is one more generation with the vault's body as it was. |
| TeamVaultSafety.StoredStays | src/team-vault.ts:187-262 | What was answered to be stored is, in every later state, what the first changes up to its generation make, and later changes only follow it. |
| TeamVaultSafety.OneStepKeepsChanges | services/control-plane/src/team-vault.ts:136-165 | A change is added only by a request that named the current generation. |
| TeamVaultSafety.OpenedIsAGeneration | src/team-vault.ts:233-245 | What a machine holds is what the vault was at the generation its file names. |
| TeamVaultSafety.UnreadBaseIsNewestJustWhen | src/team-vault.ts:187-202 | In every reachable state, the request a machine sends when its tick could not open the vault carries the newest body changed, whatever made it so, just when the generation it names is the one the machine kept. |
| TeamVaultSafety.StaleBaseLosesAKey | src/team-vault.ts:191-196 | Otherwise an accepted write can drop a key another admin added. |
| TeamVaultStranded.WriteOutside | src/team-vault.ts:187-202 | A machine that has neither the newest body nor its key can only send writes that name an older generation. |
| TeamVaultKeys.RunKeys | src/team-vault.ts:187-310 | In every honest run the key generations machines and sealed copies carry stay in step with the keys the vault was sealed under. |
| TeamVaultStranded.AcceptCloses | services/control-plane/src/team-vault.ts:136-165 | From the moment a request under a fresh key is stored, only its answer carries the vault's key. |
| TeamVaultStranded.StaysClosed | src/team-vault.ts:187-310 | Until that answer arrives no step of any machine changes the vault or gets at its key. |
| TeamVaultStranded.StrandedForGood | src/team-vault.ts:187-310 | Once the answer is given up, every run leaves the accepted changes as they are and every machine without the newest body. |
| TeamVaultStranded.LostFreshKeyStrands | src/team-vault.ts:248-262 | In every honest run: a stored write or rotation under a fresh key whose answer is given up strands the vault. |
| TeamVaultStranded.KeptKeyOpens | src/team-vault.ts:217-231 | If it did not bring a fresh key, the machine opens what it stored at its next tick, restarted or not. |
| TeamVaultStranded.OpenedAgainJustWhen | src/team-vault.ts:187-310 | After the answer to the newest stored request is given up, some continuation opens the newest generation just when the request brought no fresh key. |
| TeamVaultStranded.FirstWriteAwaited | src/team-vault.ts:248-258 | A stored fresh-key request with its answer awaited is reached: the first write of a team. |
| TeamVaultOverlap.OpenedAgainJustWhen | src/team-vault.ts:217-233 | After a vault was stored under a fresh key, whatever late answers, sealed copies that land or are lost, and restarts: some run has a machine that opens it just when a machine has the key, or a copy its machine can open is kept by the control plane or on its way there. |
| TeamVaultOverlap.HeldAgainJustWhen | src/team-vault.ts:186-210 | Some run has a machine with the newest body in memory just when there is such a way, or a machine has that body now or is about to keep it. |
| TeamVaultOverlap.HolderSaves | src/team-vault.ts:186-204 | A machine with the newest body in memory can save, key or not: an admin's write is based on that body and accepted, under a fresh key when there is no way to the old one. |
| TeamVaultOverlap.OverlapLosesJustWhen | src/team-vault.ts:217-265 | A late answer is taken in during a push, the copy sealed for the machine is lost, the body is kept: some run opens the vault again just when that answer brought no older vault with a copy of its key that opens; after a restart the same holds of anyone having the body. |
| TeamVaultOverlap.RunsLeadThere | src/team-vault.ts:248-263 | Every honest run in which a write under a fresh key was stored and its answer is awaited leads to the state the overlap starts from. |
| DeviceRegistryObjects.PairingStore.SweepSecrets | src/device-registry.ts:334-339 | Drops exactly the expired secrets. |
| DeviceRegistryObjects.PairingStore.IssuePairSecret | src/device-registry.ts:229-234 | Sweeps, then adds the secret with its expiry. |
| DeviceRegistryObjects.PairingStore.WelcomeForTrustedDevice | src/device-registry.ts:236-258 | Registers a public key once and delivers the room key wrapped for it. |
| DeviceRegistryObjects.PairingStore.HandleHello | src/device-registry.ts:267-281 | Uses up the secret the proof was made with and welcomes the device, or refuses. |
| DeviceRegistryObjects.PairingStore.RotateRoomKey | src/device-registry.ts:323-332 | Retires the key, keeps the newest eight, and wraps the new key for every device. |
| DeviceRegistryObjects.PairingStore.DoRevokeDevice | src/device-registry.ts:315-320 | Nothing for an unknown id; otherwise drops the device and rotates for the rest. |
| DeviceRegistryObjects.PairingStore.ForgetRetiredRoomKeys | src/device-registry.ts:213-217 | No retired key is left. |
| DeviceRegistry.CurrentKeyHolders | src/device-registry.ts:236-332 | After any pairings, revocations and rotations exactly the linked devices have been handed the current room key. |
| DeviceRegistry.RevokeReaches | src/device-registry.ts:315-332 | A revocation drops one device and delivers the new key to each other one under its own public key. |
| DeviceRegistry.RevokedGetsNothing | src/device-registry.ts:315-332 | A device that is not linked gets no key at all until it is let in again. |
| DeviceRegistry.WelcomedJustWhen | src/device-registry.ts:267-281 | After any history a greeting is welcomed just when its proof fits its public key and a secret that was issued until now or later and has let no device in, however often expired secrets were swept. |
| DeviceRegistry.SecretsAreSingleUse | src/device-registry.ts:278-279 | A secret that let a device in never lets in another. |
| DeviceWelcomes.WelcomeSays | src/device-registry.ts:236-258 | After any history a welcome hands the current room key, for pairing, wrapped for the device's public key and under the id it is listed with; a new device is listed last, with its name cut to sixty characters. |
| DeviceWelcomes.RetiredAreTheLastEight | src/device-registry.ts:323-325 | The retired keys are the last eight before the current one, or all there were since they were forgotten. |
| Reseal.OpenSealed | src/device-registry.ts:220-226 | Opens just when the key is the current or a retired one. |
| Reseal.FirstOpening | src/automation-reseal.ts:40 | The plaintext just when one of the keys opens it. |
| Reseal.ResealAutomationTemplates | src/automation-reseal.ts:26-50 | The loop, with any requests failing, does what the pass says template by template. |
| Reseal.PassSettlesEveryTemplate | src/automation-reseal.ts:26-50 | Every own template that opened under the current or a retired key opens under the current one to the same text; the unreadable list is exactly the other own ones; nothing else changes. |
| Reseal.PassCounts | src/automation-reseal.ts:26-50 | The count of a finished pass is the number of listed templates that were under a retired key. |
| Reseal.SecondPassChangesNothing | src/automation-reseal.ts:26-50 | A second pass re-seals nothing. |
| Reseal.FailedPassLosesNothing | src/automation-reseal.ts:26-50 | A pass cut short leaves every readable template readable with its text. |
| ResealSafety.NoTemplateIsLost | src/server.ts:4132-4160 | Over all runs with rotations, stores and passes interleaved at every await, every template stays readable with the text last entered, through every forgetting of keys, if no text is entered once a pass has its listing and fewer than eight keys are retired at a rotation. |
| ResealSafety.PassEndsCurrent | src/server.ts:4155-4156 | A pass that ends with the key it began with leaves everything under that key. |
| ResealSafety.RotationLosesJustWhen | src/device-registry.ts:323-326 | A rotation loses a template just when eight keys are retired and it needs the oldest. |
| ResealLosses.RotationLossReached | src/device-registry.ts:323-326 | A template stored under the first key is lost at the ninth rotation without a finished pass. |
| ResealLosses.EndLosesJustWhen | src/server.ts:4132-4160 | From a listing to the end of a pass that forgets keys, with stores and rotations in any order: a template cannot be read afterwards just when what was last stored for it, after its turn if the pass re-sealed it and since the listing if not, was under another key than the room key; with nothing stored, just when the pass could not open it. |
| ResealLosses.EndLossReached | src/server.ts:4132-4160 | Such a loss is reached: a device without the new key stores a template during the pass. |
| ResealDuringPass.TextLostJustWhen | src/server.ts:4132-4160 | From a listing to any point after a template's turn, with stores, rotations and failures in any order: the text last entered is lost just when other text than listed was last entered before its turn, none after it, its listed copy was under a retired key of the pass, and the request got through. |
| ResealDuringPass.TextLossReached | src/automation-reseal.ts:36-47 | Such a loss is reached, with any texts. |
| ResealDuringPass.FlaggedJustWhen | src/automation-reseal.ts:36-47 | After any history and any stores and rotations since the listing: at the end of its turn a template is flagged just when its listed copy was not and opened under no key of the pass, or was and neither a store nor a re-seal replaced it; it can be read just when the node has the key it is then under. |
| ResealDuringPass.CarefulFlagJustWhen | src/server.ts:4132-4160 | In a careful run every flag is wrong, and a turn leaves one just when the template is under a key made after the pass read its keys, or was flagged already under the key of the pass. |
| ResealDuringPass.FlagClearedJustWhen | src/automation-reseal.ts:36-47 | A flag goes just when the template is stored again or re-sealed from a key the pass read as retired. |
| ResealDuringPass.WrongFlagStays | src/server.ts:4132-4160 | So the wrong flag of a template under the room key stays through any number of passes until it is entered again or the key is rotated. |
| ResealDuringPass.WrongFlagReached | src/server.ts:4134-4137 | Such a flag is reached: rotation and store fall between the reading of the keys and the listing. |
| HistorySync.OneSync | src/history-sync.ts:55-72 | An answer to an honest client's own cursor gives it the node's messages, and is a tail just when what it has is a prefix. |
| HistorySync.SyncIsExact | packages/core/src/store.ts:2973-2998 | With one request on its way at a time, every answer gives the client exactly what the node had when it answered, and its hash, after any edits. |
| HistorySync.ArrivalExactJustWhen | packages/core/src/store.ts:2973-2998 | In every run with any number of requests on their way, an arriving answer does so just when all was sent or the client holds exactly what the tail was cut from; the cache is dropped just when a tail's base count differs from the held count. |
| HistorySync.MistakeStays | packages/core/src/store.ts:2973-2998 | A transcript with the right count and a token of other messages is not mended by the next sync while the node's messages go on from those. |
| HistorySync.MistakeReached | packages/core/src/store.ts:2973-2998 | Such a transcript is reached by two requests on their way at once and an edit taken back between their answers. |
| ProcessTree.ChildLists | src/node-stats.ts:66-71 | The map holds the children of every parent in table order. |
| ProcessTree.ClosedHolds | src/node-stats.ts:75-82 | A set with the root that is closed under children holds everything reachable. |
| ProcessTree.Subtree | src/node-stats.ts:65-84 | Terminates on every table, cyclic ones included, and returns each reachable entry once and nothing else. |
| Terminal.NothingLost | src/terminal.ts:327-382 | For any schedule, delivered batches and pending are the received output while the terminal is live, and the scrollback is its last 262144 characters. |
| Terminal.ExitDeliversAll | src/terminal.ts:364-382 | A natural exit delivers everything received. |
| Terminal.SilentOnceClosed | src/terminal.ts:327-382 | After exit or close nothing more is delivered. |
| Terminal.CloseDropsPending | src/terminal.ts:454-481 | Closing by hand delivers nothing more. |
| Terminal.ScrollbackIs | src/terminal.ts:335-363 | The scrollback is the last 262144 characters of the output, or all of it. |
| Terminal.ClampSizeIs | src/terminal.ts:593-598 | Columns and rows are what was asked for without the fraction, within 1 to 1000, and 80 and 24 when missing or not positive. |
| Terminal.TerminalEntry.OnData | src/terminal.ts:335-363 | Buffers, trims, and starts a timer unless one runs; ignored when closed. |
| Terminal.TerminalEntry.FlushPending | src/terminal.ts:327-333 | Delivers what is pending as one batch unless closed. |
| Terminal.TerminalEntry.OnTimer | src/terminal.ts:327-333 | When the timer fires, what is pending goes out as one batch. |
| Terminal.TerminalEntry.OnExit | src/terminal.ts:364-376 | Flushes, then closes. |
| Terminal.TerminalEntry.CloseEntry | src/terminal.ts:454-481 | Closes and drops what is pending. |
| Terminal.TerminalEntry.SetClientSize | src/terminal.ts:404-410 | Records the clamped size and resizes to the minimum. |
| Terminal.TerminalEntry.DropClientSize | src/terminal.ts:417-422 | Forgets the client and resizes only if it had a size here. |
| Terminal.DropClient | src/terminal.ts:430-434 | Every terminal forgets the client and keeps its size the minimum of the rest. |
| Terminal.TerminalEntry.ApplyMinSize | src/terminal.ts:437-452 | The PTY gets the componentwise minimum, within 1 to 1000; unchanged without sized clients. |

## Left out

- The UTF-8 step at the start of `generate` and the canvas drawing: encoding starts from bytes and ends with the matrix.
- ReedSolomon.RsEncode: the number of error correction bytes is at most 512, because the EXP table ends there; the versions use at most 30.
- The proportion rule of the mask score divides floating-point numbers in the source; here the same quotient is taken over whole numbers, which agrees for every symbol size.
- Network, files, clocks and randomness are parameters or steps: answers may be late, lost or repeated, clocks may stand still but do not run back, and new keys, secrets, nonces and ids are chosen from outside without repeats.
- Cryptography, hashes and proofs are symbolic; a hash of messages is a function given from outside without collisions, and the hash of a key stands for the bytes that are hashed.
- The control plane's queue is known by its contract: it grants a claim only when no lease of the item is unexpired, a renewal never shortens a lease, a terminal item is not granted again, and timers fire when due.
- Order of iteration over a Map or an object is arbitrary, except where the source relies on it: tombstones, listed items and table entries keep theirs.
- PollerObjects.Poller.ResultAnswered: the write of the outbox file after an acknowledgement is assumed to succeed, as in FlushAnswered; a throw there would re-enter the policy with an acknowledged result. The outbox object itself models the throw.
- Routing, evidence reports, labels, capability ranking and log lines of the work queue do not affect what is proved; the outcome of the eligibility tests is part of the listing.
- DelegationSource.ParseOfSource: a depth is read only as decimal digits; other spellings a number conversion takes, such as an exponent, are read as no depth.
- TextCodec.Base64UrlRoundTrip: the decoder skips every character outside the alphabet; padding in the middle of foreign text is not treated apart.
- DelegationSafety.NeverMoreThanThree: rests on the backend listing every run, while the server asks for the latest hundred; and on a run being made before its start is answered or never. Only runs that this node's sessions start are there.
- The fields of a run copied for display, other than which run it is, settled or not, and answer, are not part of this model, nor is the cut of its id at 256 units; a wait that is called off is an error reply.
- TeamVaultContents.StoredUnderANewKey: a member whose machines had no sealed copy flags nothing in the source; such a departure is no event here.
- HistorySync.SyncIsExact: attachments, rendering and the seed read from the client's own storage are left out; a seed is a cache like any other.
- PollerIntake.TakenIn: the items of a listing are different, as the queue's ids are.
- RelayDelivery.EveryPayloadComesBack: a short message that is repeated is delivered again, since nothing in it names it.
- TeamVaultSafety.VaultIsItsChangesInOrder: rests on every write naming a generation the machine has kept, on requests reaching the team the snapshot named, and on a team's vault not being deleted while its machines run.
- TeamVaultSafety.RunOk: a machine does one tick or write at a time. In the source a tick can overlap the requests of a push on the same machine; the overlap and what follows from it until somebody writes again is in `TeamVaultOverlap`, where answers about the newest vault show an opening copy only while it is kept.
- TeamVaultStranded.OpenedAgainJustWhen: an honest run is one in which a sealed copy of a key comes from a machine that had that key, and a new key is no earlier one.
- PollerFlush.PassRemovesAnotherJustWhen: an entry that was removed while another run of its item is already under way is not treated.
- RelayMemory.LateChunkReopensJustWhen: an unchunked message above the byte limit, which no sender sends, is left out; it is remembered without an id.
- Who else learns a team key: a snapshot may carry any sealed copy, so confidentiality of the vault is not stated. The size limit of the ciphertext and lone surrogates in byte counts are left out too.
- Writing `pairing.json` is assumed to succeed; loading it, the seeded room key, session guests with keys of their own, and the times a device was seen are not part of this model.
- Reseal.ResealAutomationTemplates: the method runs without interference; interference at its awaits is in the state machine of `ResealSafety`, which steps through the same loop body.
- Terminal taps, bell, working directory and metadata; a PTY whose resize throws keeps its old size, here a resize succeeds.
- ProcessTree.Subtree: the order of the returned entries is not stated, only that each reachable one is there once.
