# Proofs about the Urbit runtime

A Dafny model of the hard parts of Vere, and proofs of what they promise. Every noun is `Atom(nat)` or
`Cell(Noun, Noun)`; each part below relates a piece of the C code, in the shape it has there (loops, explicit
stacks, words in memory, fields that change), to a plain definition on nouns, bits, maps or files.

| part | files |
|---|---|
| nouns and addressing | `Nouns`, `Axes`, `Formulas` |
| Nock: specification, compiler, assembler, bytecode machine, caches | `Nock4K`, `Rules`, `Compile`, `Bytecode`, `Assembler`, `AssemblerLoops`, `Strict`, `Machine`, `Simulation`, `TailCalls`, `Agreement`, `Burn`, `Theorems` |
| snapshot patch protocol | `Snapshot` |
| jam and cue over a bitstream | `JamCue`, `JamForm`, `Bitstream`, `BitReader`, `JamLoops`, `CueLoops` |
| hash table with clock eviction | `Hamt`, `HamtCache` |
| allocator with boundary tags and free lists | `Heap`, `FreeLists`, `Alloc`, `Arena` |
| compaction in place | `Heap`, `Pack` |
| copying off the stack | `Take` |
| in-place edit | `InPlace` |
| hashing and unifying equality | `Mugs`, `Equality` |
| hash-consing and meld | `Held`, `Dictionary`, `Hashcons`, `Rooms`, `Meld` |

How the Nock proof is put together: `Star` is the specification of `doc/spec/nock/4.txt` with a bound on nesting.
`Eval` is a strict evaluator in the order the C code works in; `EvalStar` and `StarEval` relate the two. `Comp`
compiles to an instruction list, `Asm` lays it out as bytes, and the machine fetches and decodes those bytes with an
operand stack, return frames, a program cache, call-site caches and a memo cache that may forget anything at any
save. `Sim` shows that the bytes of a compiled formula carry the stack from `[subject, rest]` to `[value, rest]`
(`lose`) or `[value, subject, rest]` (`keep`) with the rest untouched, tail position only with `lose`.
`Rules` states each line of the specification on literal nouns, so that what `Star` gives does not hang on how formulas
are taken apart; `TailCalls` shows that calls in tail position leave nothing on the stack.

Findings that the proofs rest on, each with its exact condition:

- Nock 4K gives values that the runtime refuses: a formula with a `9 0` in a branch that is never taken does not
  compile; a `%bout` hint whose clue is an atom fails an assertion; a hint tag that is a cell makes a branch not
  formulaic. A run returns a value if and only if the formula has a program and the strict evaluation yields the value
  (`Theorems.Returns`), and dies exactly when that evaluation crashes or is refused (`Theorems.Dies`).
- Starting up applies a patch that it finds in the operating system's cache and never syncs the patch's own files. So when
  the process dies after it has written `control.bin` and before both patch files are synced, is started again, and power
  fails while the patch is applied, the images can be left a mixture of old and new (`Snapshot.Mixture`). Deaths of the
  process alone are harmless (`KillSafe`), and so are power failures without such a death (`CrashSafe`). A death does harm
  in some continuation if and only if it came in that stretch, the patch was not on disk yet by chance, and the patch
  does more than change one page of one image or make one image shorter (`KillExact`).
- A power failure between the two deletions that end a save leaves `memory.bin` behind; the next save with a dirty page
  aborts, and the restart after that clears it away (`Snapshot.SaveWorks`, `OrphanLeft`, `OrphanCleared`). A save with
  no dirty page does nothing, so images that only became shorter keep their length (`SaveNothing`).
- `ur_bsr_bytes_any` counts the bits it needs of the last byte in eight bits. A read from inside a byte that reaches
  256 or more bits past the last byte may wrap the count; `BitReader.Wraps` is exactly when (256 bits from the second bit
  of the last byte, `WrapsFirst`). It then takes fewer than eight bits of the last byte, and the parser goes on from there
  while its count of bits, and so the positions that back-references name, runs ahead. `JamCue.WrapStream` is a stream
  of three bytes whose atom is read as 0 instead of 31.
- `ur_bsw_bytes` reads one byte past its source when the last output byte uses all of the last source byte, and masks it
  away. `ur_bsr_log` reads each byte before it knows that it is in the stream, and so one byte past the stream's end when
  only zeros are left, and does not use it. Both contracts hold for whatever byte is there (`beyond`).
- An atom of at most 62 bits that a stream gives a length of more than 62 bits is entered as bytes, and is then one noun
  under two references (`JamCue.OverlongZero`, `CueLoops.CueOverlong`, `Hashcons.TwoRefs`). Every noun has one reference
  exactly as long as the arena has no such atom (`Hashcons.CanonicalIff`). cue of jam gives back the same noun always,
  and the same reference if and only if no atom in it is held that way (`CueLoops.CueOfJam`).
- A dictionary grows for ever once an eleventh reference has the hash of ten others. `Dictionary.Put` returns if and only
  if that is not so; `Meld.Melder.FromLoom`, `Meld.Melder.MeldAll` and `JamLoops.JamLoop` state which nouns that allows.
- Unifying two equal nouns frees what loses its last reference. Nothing on the comparison stack can be freed
  (`Equality.Rejoined`). A remembered pair can name an object that has been freed since (`Equality.Forgotten`), which does
  no harm, because no reference leads there again (`GoneForGood`).
- After trimming, nodes with no children can stay in the trie. Lookup, insertion and the clock all cope.

## Model

| member | source | states |
|---|---|---|
| Nock4K.GivesUnique | doc/spec/nock/4.txt:5-45 | the reduction rules give a formula on a subject at most one value, at whatever depth it is found |
| Rules.SlotLaw | doc/spec/nock/4.txt:15-20 | the five rules for `/` on literal axes, and no part at axis 0 or of an atom |
| Rules.HaxLaw | doc/spec/nock/4.txt:22-25 | the rules for `#` on literal axes |
| Rules.RulePair | doc/spec/nock/4.txt:27 | `[[b c] d]` gives v exactly if `[b c]` gives the head of v and d its tail |
| Rules.Rule0 | doc/spec/nock/4.txt:29 | the rule for 0 on literal nouns, both ways |
| Rules.Rule1 | doc/spec/nock/4.txt:30 | the rule for 1 |
| Rules.Rule2 | doc/spec/nock/4.txt:31 | the rule for 2: the first part gives the subject, the second the formula |
| Rules.Rule3 | doc/spec/nock/4.txt:32 | the rule for 3, with 0 for a cell and 1 for an atom |
| Rules.Rule4 | doc/spec/nock/4.txt:33 | the rule for 4, which a cell has no value under |
| Rules.Rule5 | doc/spec/nock/4.txt:34 | the rule for 5, with 0 for equal and 1 for not |
| Rules.Rule6 | doc/spec/nock/4.txt:36 | the rule for 6 through its two increments and two lookups |
| Rules.Branch | doc/spec/nock/4.txt:36 | what it comes to: the second part on 0, the third on 1, and nothing else |
| Rules.Rule7 | doc/spec/nock/4.txt:37 | the rule for 7 |
| Rules.Rule8 | doc/spec/nock/4.txt:38 | the rule for 8, the value before the subject |
| Rules.Rule9 | doc/spec/nock/4.txt:39 | the rule for 9, through 2 and 0 |
| Rules.Rule10 | doc/spec/nock/4.txt:40 | the rule for 10: the new part, and what it is put into |
| Rules.Rule11 | doc/spec/nock/4.txt:42 | the rule for 11 with a clue |
| Rules.Rule11Bare | doc/spec/nock/4.txt:43 | the rule for 11 without one |
| Rules.NoRule | doc/spec/nock/4.txt:45 | a formula that is none of these has no value |
| Axes.At | pkg/noun/retrieve.c:12-112 | the walk down the bits of an axis, word by word from its highest, finds exactly the slot operator's part, for direct and indirect axes, every noun, missing parts and what is no atom included |
| Nouns.FragIsSlot | pkg/noun/xtract.h:43-57 | taking an axis apart by its first step and the rest computes the slot operator |
| Nouns.EditIsHax | pkg/noun/imprison.c:598-645 | the recursive edit computes the replacement operator |
| Nouns.EditDefined | pkg/noun/imprison.c:598-645 | a noun can be edited at exactly the addresses that exist in it |
| Nouns.EditThenFrag | pkg/noun/imprison.c:598-645 | what was put at an address is read back there |
| Assembler.PickMeaning | pkg/noun/nock.c:398-565 | the opcode and operand width chosen for an instruction decode to that instruction, in the narrow and the wide form |
| Assembler.FetchAt | pkg/noun/nock.c:1534-1554 | decoding assembled bytes at the offset of an instruction gives that instruction with its operands, the offset of the next, and for skips the offset exactly past the instructions counted |
| Assembler.FetchEnd | pkg/noun/nock.c:785-930 | assembled code ends in a halt |
| AssemblerLoops.SumSizes | pkg/noun/nock.c:565-689 | the loop that adds up the sizes of skipped instructions gives the distance in bytes |
| AssemblerLoops.Melt | pkg/noun/nock.c:565-689 | the measuring loop succeeds exactly when every table fits, and gives the number of bytes, the four table sizes and the skip distances of the code |
| AssemblerLoops.WriteInx | pkg/noun/nock.c:764-783 | an indexed opcode written backwards occupies its measured bytes and touches no others |
| AssemblerLoops.WriteDist | pkg/noun/nock.c:785-930 | a skip written backwards as 1, 2 or 4 bytes occupies its measured bytes and touches no others |
| AssemblerLoops.AsmProg | pkg/noun/nock.c:785-949 | the loop that writes the program backwards fills the measured buffer exactly and gives the layout that decoding is proved about |
| Burn.CompClosed | pkg/noun/nock.c:1207-1456 | every skip and memo span the compiler emits ends inside its own code |
| Burn.Bite | pkg/noun/nock.c:1621-1628 | compiling and assembling a formula gives a program exactly when it compiles and its tables can be indexed; the machine runs exactly those of at most 2^31 bytes |
| Burn.Burn | pkg/noun/nock.c:2024-2762 | the interpreter loop, for any number of steps, never goes wrong; a value it returns is the Nock 4K value, with the caches in order; it dies only where the formula crashes or is refused |
| Strict.EvalMono | pkg/noun/nock.c:1207-1456 | a deeper bound never changes an outcome of the strict evaluator |
| Strict.LimEq | pkg/noun/nock.c:1207-1456 | the unbounded evaluator satisfies one equation per operation, with errors in the order the code meets them |
| Simulation.Sim | pkg/noun/nock.c:1207-1456 | for every formula, keep or lose, tail or not: running its code from the stack with the subject on top either dies because there is no value, or is still running, or leaves the value on top (over the subject when kept) with the rest of the stack and the frames below untouched |
| Simulation.SimEnter | pkg/noun/nock.c:2057-2077 | entering a formula computed at run time compiles or finds its program and returns its value on the stack below |
| Simulation.LockOk | pkg/noun/jets.c:1488-1502 | a call site gives the program of the core's arm whether it was cached for that battery or is looked up, because only axes under the battery are compiled to call sites; afterwards it is locked to that battery and program, and a site that was locked to it is used as it is |
| Simulation.SaveOk | pkg/noun/zave.c:44-75 | storing a value in the memo cache, and forgetting any others, keeps every entry the Nock value of its key |
| TailCalls.TailCall | pkg/noun/nock.c:2057-2077 | a formula in tail position that ends with a 2 or a 9, through any nesting of 6, 7, 8 and passing hints, makes that call on the stack that was below its subject: no frame and no operand is left |
| TailCalls.TailLoop | pkg/noun/nock.c:2237-2269 | so a chain of tail calls of any length makes the last on the stack that the first was made on |
| TailCalls.HandoffValue | pkg/noun/nock.c:1207-1456 | the value of the formula is the value of that call |
| TailCalls.Remembered | pkg/noun/nock.c:2571-2616 | off the home road the value of a memoised formula is in the memo cache once it has been computed, unless the cache forgets |
| TailCalls.MemoRun | pkg/noun/nock.c:2571-2616 | and a memoised formula whose value is there takes one step |
| Agreement.EvalStar | doc/spec/nock/4.txt:5-45 | every value of the strict evaluator is the specification's |
| Agreement.StarEval | doc/spec/nock/4.txt:5-45 | where the specification gives a value the strict evaluator gives it too or refuses, and gives it if all formulas reached are tame |
| Agreement.CrashNoValue | doc/spec/nock/4.txt:5-45 | a crash means that the specification has no value |
| Agreement.GivesFormulaic | pkg/noun/nock.c:1137-1197 | a regular formula that has a value passes the formula test |
| Agreement.RegularCompiles | pkg/noun/nock.c:1207-1456 | a formula that passes it and has atomic hint tags and nonzero arm axes compiles, in keep and lose, tail and non-tail form |
| Agreement.RegularIff | pkg/noun/nock.c:1392-1404 | a formula is regular if and only if there is no `[9 0 c]` and no `[11 [[p q] b] c]` in it |
| Theorems.Soundness | pkg/noun/nock.c:2024-2762 | a value the machine returns, from any honest caches, is the Nock 4K value, and the caches it leaves are honest |
| Theorems.Returns | pkg/noun/nock.c:2024-2762 | a run returns a value if and only if the formula has a program and its evaluation yields that value |
| Theorems.Completeness | pkg/noun/nock.c:1006-1456 | if Nock 4K gives a value, every formula entered has atomic hint tags, nonzero arm axes and a program within limits, and every timing hint's clue is a cell, the machine returns it |
| Theorems.Dies | pkg/noun/nock.c:2024-2762 | a run dies exactly when the formula crashes or is refused |
| Theorems.NeverWrong | pkg/noun/nock.c:2024-2762 | no run reads past a program, a table or the stack |
| Theorems.CachesInvisible | pkg/noun/nock.c:1633-1673 | runs from any two sets of honest caches, whatever each forgets, return the same value or both none |
| Theorems.ColdStart | pkg/noun/nock.c:1633-1673 | empty caches are honest |
| Theorems.DeadBranchRefused | pkg/noun/nock.c:1392-1404 | a formula with a zero arm axis in a dead branch has a Nock 4K value and no program |
| Theorems.AtomClueRefused | pkg/noun/nock.c:1960-1992 | a timing hint with an atomic clue has a Nock 4K value and is refused |
| Theorems.CellTagRefused | pkg/noun/nock.c:1137-1197 | a cell as hint tag inside a branch has a Nock 4K value and is refused |
| Snapshot.NextInv | pkg/noun/events.c:1063-1107 | every step of saving, applying and recovering, every late write of the disk, the death of the process at any point, and power failing when nothing is lost, keep the invariant |
| Snapshot.RunInv | pkg/noun/events.c:1063-1107 | so does every run |
| Snapshot.CrashExact | pkg/noun/events.c:522-566 | recovery from power failing at a given moment gives the old or the new images if and only if those on disk are the one or the other, or the whole patch is on disk with them |
| Snapshot.KillSafe | pkg/noun/events.c:1112-1158 | after any run of saves, write-backs, deaths and restarts, starting up again after one more death gives exactly the images of the last completed save or exactly those of the save in progress, on disk and in the cache |
| Snapshot.CrashSafe | pkg/noun/events.c:522-566 | after any run, power failures included, in which the process did not die between writing the control block and having the patch on disk, the same holds for power failing right now and for the process dying right now; it is the images of the last completed save unless the save in progress had written its control block |
| Snapshot.KillExact | pkg/noun/events.c:1145-1158 | in any state so reached, the process dying does no harm in any continuation if and only if it was not in that stretch, or the patch was on disk, or it only changes one page of one image or makes one image shorter |
| Snapshot.Mixture | pkg/noun/events.c:1145-1158 | a run of a save, a death, a restart and a power failure that leaves the new north image beside the old south image |
| Snapshot.FinalAgain | pkg/noun/events.c:763-831 | applying a patch to images it was already applied to changes nothing |
| Snapshot.RestartIdles | pkg/noun/events.c:1112-1158 | recovery always finishes |
| Snapshot.SaveWorks | pkg/noun/events.c:1063-1107 | an uninterrupted save with a dirty page leaves exactly the new images if and only if no memory.bin was left behind, and otherwise aborts and changes no image |
| Snapshot.SaveNothing | pkg/noun/events.c:1072-1074 | a save with no dirty page changes nothing, and leaves the new images if and only if the lengths agree |
| Snapshot.OrphanLeft | pkg/noun/events.c:441-457 | a crash between the two deletions leaves memory.bin behind |
| Snapshot.OrphanCleared | pkg/noun/events.c:522-566 | after a save with a dirty page was aborted by it, the restart clears it away, with the images as they were |
| Snapshot.FreshInv | pkg/noun/events.c:1112-1158 | any pair of images without patch files satisfies the invariant |
| Snapshot.Compose | pkg/noun/events.c:646-729 | there is a patch exactly if a page is dirty, and it takes the old images exactly to the new ones |
| JamCue.RoundTrip | pkg/ur/serial.c:45-99 | cue of jam gives back every noun whose stream is not refused for its length alone, with every back-reference resolved and each atom of at most 62 bits held in a word |
| JamCue.Trip | pkg/ur/serial.c:176-326 | the same at every position inside a stream, with the dictionaries of printer and parser in step |
| JamCue.Overlong | pkg/ur/serial.c:245-261 | an atom printed with any length that holds it is read back as that atom, held as it should be if and only if the length is at most 62 or the atom needs more |
| JamCue.WrapStream | pkg/ur/bitstream.c:377-480 | a stream of three bytes makes a bulk read wrap its count, and the atom it holds is read as another |
| JamCue.JamInjective | pkg/ur/serial.c:45-99 | nouns with the same stream are the same noun |
| JamForm.Shorter | pkg/ur/serial.c:51-72 | a repeated atom takes the shorter of its own form and a back-reference, the back-reference when both are as long |
| JamForm.First | pkg/ur/serial.c:51-93 | what was not printed before is printed in full and remembered where it begins |
| JamForm.MatNumber | pkg/ur/bitstream.c:1143-1162 | the length-prefixed form of a number as a number: zeros for the length of its length, a one, the length without its top bit, the number |
| JamForm.AtomNumber | pkg/ur/bitstream.c:1233-1253 | an atom is the bit 0 and its length-prefixed form |
| JamForm.BackNumber | pkg/ur/serial.c:74-93 | a cell printed before is the bits 1 and 1 and where it was printed, and nothing is remembered |
| JamForm.CellNumber | pkg/ur/serial.c:74-93 | any other cell is the bits 1 and 0, its head and its tail |
| JamForm.KnownAtoms | pkg/ur/tests.c:1747-1760 | the streams of 0, 1 and 2 |
| JamForm.KnownCells | pkg/ur/tests.c:1772-1785 | the streams of [0 0], [1 1] and [2 3] |
| JamForm.KnownShared | pkg/ur/tests.c:1802-1805 | the stream of [[0 0] [[0 0] 1 1] 1 1], two of whose cells are back-references |
| JamForm.RefusedEnd | pkg/ur/serial.c:176-213 | a stream that ends too soon is refused |
| JamForm.RefusedLong | pkg/ur/bitstream.c:658-669 | a length whose own length is 64 or more is refused |
| JamForm.RefusedBack | pkg/ur/serial.c:215-232 | a back-reference is read if and only if something was read where it points |
| JamForm.RefusedFar | pkg/ur/serial.c:215-222 | a back-reference of more than 62 bits is refused |
| JamLoops.JamLoop | pkg/ur/serial.c:45-99 | the walk with a stack of references, a dictionary keyed by reference and a byte buffer writes exactly the bytes of the recursive printer, in any arena; it returns if and only if no more than ten parts of the noun share a hash |
| CueLoops.CueLoop | pkg/ur/serial.c:272-326 | the parser with an explicit stack, a byte reader and a dictionary of references enters exactly the noun that the recursive parser gives, and nothing but what was read, or gives the same error, for every byte string, wrapped counts included; growth can only get stuck on ten equal hashes |
| CueLoops.CueOfJam | pkg/ur/serial.c:45-326 | whenever growth returns, cue of jam of a reference gives the same noun, and the same reference if and only if its atoms are held naturally; so always in a canonical arena, which stays canonical |
| CueLoops.CueOverlong | pkg/ur/serial.c:245-261 | a small atom with a length past 62 bits is entered as bytes, under a second reference |
| Bitstream.Writer.WriteBit | pkg/ur/bitstream.c:755-784 | appends one bit, growing the buffer when the next byte is needed |
| Bitstream.Writer.Write8 | pkg/ur/bitstream.c:786-830 | appends up to eight bits at any offset |
| Bitstream.Writer.WriteWord | pkg/ur/bitstream.c:833-1034 | appends the low bits of a 32- or 64-bit word at any offset, as single bits would |
| Bitstream.Writer.WriteBytes | pkg/ur/bitstream.c:1037-1105 | appends the first bits of a byte string at any offset, whatever byte lies beyond the string |
| Bitstream.Writer.WriteBex | pkg/ur/bitstream.c:1107-1140 | appends zeros and a one by skipping over bits that are zero already |
| Bitstream.Writer.WriteAtom64 | pkg/ur/bitstream.c:1142-1250 | appends an atom tag and a length-prefixed word, room made once |
| Bitstream.Writer.WriteAtomBytes | pkg/ur/bitstream.c:1179-1271 | appends an atom tag and a length-prefixed byte string |
| Bitstream.Writer.WriteBack64 | pkg/ur/bitstream.c:1209-1230 | appends a back-reference |
| Bitstream.Writer.WriteCell | pkg/ur/bitstream.c:1273-1283 | appends a cell tag |
| Bitstream.Writer.Done | pkg/ur/bitstream.c:742-753 | the bytes handed out are the stream padded with zeros to whole bytes |
| BitReader.Reader.Bit | pkg/ur/bitstream.c:39-66 | one bit, or none at the end |
| BitReader.Reader.BitAny | pkg/ur/bitstream.c:68-93 | one bit of the stream continued with zeros |
| BitReader.Reader.Read8 | pkg/ur/bitstream.c:96-135 | up to eight bits of the stream continued with zeros, at any offset |
| BitReader.Reader.Read64 | pkg/ur/bitstream.c:232-375 | up to 64 bits likewise |
| BitReader.Reader.ReadBytes | pkg/ur/bitstream.c:377-480 | any number of bits likewise; when the eight-bit count wraps, only the bits before the last byte and fewer than eight of that, with the count of bits ahead of them |
| BitReader.Reader.ReadTag | pkg/ur/bitstream.c:541-594 | the tag that single-bit reads would find |
| BitReader.Reader.ReadLog | pkg/ur/bitstream.c:607-655 | the count of zeros, byte by byte, is the bit-by-bit count, with the same errors, whatever byte lies beyond the stream |
| BitReader.Reader.ReadLen | pkg/ur/bitstream.c:657-687 | a run length, likewise |
| Hamt.TwoGood | pkg/noun/hashtable.c:171-213 | a subtree made for two entries holds exactly those two, each on the path its hash bits name, through shared prefixes down to a bucket |
| Hamt.BuckGit | pkg/noun/hashtable.c:562-575 | a bucket gives what the plain map gives |
| Hamt.NodeGit | pkg/noun/hashtable.c:578-614 | a node gives what the plain map gives, for any hash |
| Hamt.BuckAdd | pkg/noun/hashtable.c:125-156 | adding to a bucket is updating the map, and counts one exactly for a new key |
| Hamt.NodeAdd | pkg/noun/hashtable.c:86-121 | adding to a node likewise, with every entry on its path |
| Hamt.SlotPut | pkg/noun/hashtable.c:217-244 | putting into a filled slot likewise |
| HamtCache.Table.Put | pkg/noun/hashtable.c:250-271 | an untrimmed table is the map with the key updated and warm; a cache is then trimmed to its limit step by step, keeps survivors with their values and has as many as the limit allows |
| HamtCache.Table.Git | pkg/noun/hashtable.c:620-648 | lookup gives what the map gives; it warms the key if the root slot of its hash is an entry with that key, and else changes nothing |
| HamtCache.SkipNearer | pkg/noun/hashtable.c:420-426 | skipping a prefix brings the arm nearer to every hash without it |
| HamtCache.TrimBuck | pkg/noun/hashtable.c:368-403 | one step in a bucket, exactly: from the arm on warm entries are cooled up to the first cold one, which is evicted and the arm left after it, at the front when one entry remains; with none cold the arm goes on past the hash |
| HamtCache.TrimNode | pkg/noun/hashtable.c:295-347 | one step below a node, exactly, with the node shrunk or replaced by its only entry |
| HamtCache.Turned | pkg/noun/hashtable.c:444-471 | a step that evicts nothing leaves fewer warm entries, or the arm further on |
| HamtCache.Table.TrimRoot | pkg/noun/hashtable.c:444-456 | one step, exactly: past a prefix that no line has; past a line that alone has a prefix, cooling it when warm and evicting it when cold; or in a bucket |
| HamtCache.SecondChance | pkg/noun/hashtable.c:352-364 | a line that a step finds warm is still there after it, with its value |
| HamtCache.TicksWhole | pkg/noun/hashtable.c:295-347 | a step in a part of the trie is the same step for the whole table |
| HamtCache.Table.TrimTo | pkg/noun/hashtable.c:461-471 | from every arm position trimming ends, after steps that were all made above the limit, with the count the smaller of the limit and the old count, and survivors with their values |
| HamtCache.PutAll | pkg/noun/hashtable.c:250-271 | after any sequence of puts an untrimmed table agrees with the plain map on every lookup and on the count |
| FreeLists.BoxSlot | pkg/noun/allocate.c:52-71 | the loop selects the list whose range holds the size: 1 up to 15 words, 2 up to 30, 3 up to 60, and so on doubling, the last for all larger |
| FreeLists.LaterFits | pkg/noun/allocate.c:429-470 | a box on any later list is large enough |
| FreeLists.DetachGood | pkg/noun/allocate.c:134-162 | taking a box out of its list leaves all other boxes, tags and links in order |
| FreeLists.AttachGood | pkg/noun/allocate.c:98-130 | so does putting one in |
| Alloc.MergeGood | pkg/noun/allocate.c:176-205 | joining two free neighbours keeps the tiling, the tags, the lists and every box in use |
| Alloc.NoOverlap | pkg/noun/allocate.c:429-545 | boxes in use never overlap |
| Arenas.Arena.Detach | pkg/noun/allocate.c:134-162 | the corruption checks cannot fail, and no box in use is touched |
| Arenas.Arena.Search | pkg/noun/allocate.c:429-470 | the search finds the first box that is large enough on the first list that has one, or there is none on the list for the size and nothing at all on the later ones |
| Arenas.Arena.Alloc | pkg/noun/allocate.c:429-545 | allocation adds exactly one box, disjoint from all in use and less than a smallest box larger than asked for, and keeps what they hold; from the lists it takes the first fit, what is left is free in its place and the free words go down by the box; at the hat it takes exactly what was asked for; it fails only when no listed box fits and the hat has no room |
| Arenas.DrawnSize | pkg/noun/allocate.c:522-533 | putting a free box to use takes its part off the free words, and wastes less than a smallest box |
| Arenas.FreeListed | pkg/noun/allocate.c:96-129 | every free box, one split off included, is on the list that is for its size |
| Arenas.Arena.Free | pkg/noun/allocate.c:167-250 | freeing takes away one use, or the box with its last one, keeps what all others hold, and leaves no two free neighbours and none at the hat, on north and south roads |
| Arenas.Arena.Empty | pkg/noun/allocate.c:167-250 | once nothing is in use the hat is back at the start and all lists are empty |
| Arenas.Churn | pkg/noun/allocate.c:429-545 | any run of allocations and frees keeps the heap in order, and once every block is freed the hat is back and the lists are empty |
| Pack.Road.Seek | pkg/noun/allocate.c:2245-2279 | the first sweep stores in each box in use where it will go and changes nothing else |
| Pack.Road.RewriteNoun | pkg/noun/allocate.c:2461-2490 | tracing marks every cell that can be reached, once, and rewrites its references to where their targets will be |
| Pack.Road.Slide | pkg/noun/allocate.c:2326-2335 | the ascending copy of overlapping words is a copy |
| Pack.Road.Move | pkg/noun/allocate.c:2307-2353 | the second sweep puts every box in use in its new place with its size and use count restored |
| Pack.Preserved | pkg/noun/allocate.c:1666-1687 | a reference and its rewritten form denote the same noun |
| Pack.Road.Compact | pkg/noun/manage.c:1975-2015 | after compaction every root denotes the same noun, the boxes in use stand in order from the start to the hat with their use counts, and the free lists are empty |
| Take.TakeOk | pkg/noun/allocate.c:1092-1143 | a take gives the same noun without junior references, one copy for each junior object newly moved, and a use count for each new reference; it fails only when a count overflows |
| Take.TakeStamped | pkg/noun/allocate.c:1017-1079 | each copy has the hash that its original had, and what is not copied keeps its own |
| Take.Road.TakeLoop | pkg/noun/allocate.c:1202-1239 | the loop with a stack of cells does what the recursion does |
| Take.Road.TakeNoun | pkg/noun/manage.c:943-972 | the whole promise for a product returned from an inner road, each copy with the hash of what it is a copy of |
| Take.Road.TakeAll | pkg/noun/manage.c:943-972 | the same for the product and then everything the caches hold: the same nouns, one copy for each junior object whichever of them leads to it, with its hash, and a use count for each reference |
| InPlace.Editor.Lose | pkg/noun/allocate.c:1360-1398 | giving up a reference keeps every count exact and what other references denote |
| InPlace.Editor.Copying | pkg/noun/imprison.c:598-645 | editing by copying gives the edited noun in one new cell for each step of the address, with counts exact and other references undisturbed |
| InPlace.Editor.Mutating | pkg/noun/imprison.c:649-696 | editing in place does too, in the same cell, and clears the stored hash of every cell it writes |
| InPlace.Editor.EditAt | pkg/noun/imprison.c:730-742 | the result is the noun with the address replaced, or an exit where there is no such address, or a failure when a use count is full; cells are copied exactly from the first that others may see on, and those before are changed where they are; every other counted reference denotes what it did, whichever it is, and with a result stored hashes are right or zero |
| Mugs.Join | pkg/noun/retrieve.c:1693-1726 | the loop over seeds gives the joined hash, which is 31 bits and not zero |
| Mugs.FoldLaw | pkg/noun/retrieve.c:1715 | the top bit of a raw hash is folded into the lowest: below 2^31 it is kept, and with the top bit set only the lowest bit differs |
| Mugs.MugAtomLaw | pkg/noun/retrieve.c:1731-1756 | the hash of an atom is the first of eight folded hashes that is not zero, under the seeds from 0xcafebabe on, or 0x7fff |
| Mugs.MugCellLaw | pkg/noun/retrieve.c:1693-1726 | that of a cell is the same of the hashes of its head and tail, in this order, under the seeds from 0xdeadbeef on, or 0xfffe |
| Mugs.Mugger.Mug | pkg/noun/retrieve.c:1826-1922 | the loop with zero-marked frames and memo slots gives the recursive hash, and leaves every slot right or zero; the noun's own slot is filled, filled slots stay, and a cell whose slot was filled has both parts' filled |
| Equality.SharedStill | pkg/noun/allocate.c:1494-1585 | making two cells share an equal part changes no noun |
| Equality.Comparer.Refill | pkg/noun/allocate.c:1494-1540 | keeping one of two equal references in a field counts it and gives the other up, with what that frees; every count is exact, and every held reference denotes what it did |
| Equality.Rejoined | pkg/noun/retrieve.c:429-447 | after two cells on top of the stack are made to share, every pair on the stack is still there and hangs on the one below |
| Equality.GoneForGood | pkg/noun/retrieve.c:332-361 | no reference leads to an object that has been freed |
| Equality.Forgotten | pkg/noun/retrieve.c:332-361 | an object whose one reference was replaced is freed, remembered or not |
| Equality.Comparer.Cape | pkg/noun/retrieve.c:365-461 | the loop that remembers equal pairs answers as plain equality would, with counts exact, and leaves the cells in question sharing both sides as below |
| Equality.Comparer.Sing | pkg/noun/retrieve.c:465-571 | the answer is yes if and only if the nouns are equal, before and after the switch to remembered pairs; two cells found equal share both sides afterwards, unless the choice leaves references apart; counts stay exact and no held reference denotes anything else; it fails only when a use count is full |
| Dictionary.Grow | pkg/ur/hashcons.c:138-182 | a grown dictionary stands for the same map, each entry once, in the bucket its hash names, at most ten to a bucket; its size is the first of the sums of the last two sizes under which no bucket would hold more than ten; growing a dictionary always ends |
| Dictionary.Get | pkg/ur/hashcons.c:184-201 | lookup gives what the map gives |
| Dictionary.Put | pkg/ur/hashcons.c:203-230 | put updates the map, and returns if and only if the reference was there or fewer than ten others have its hash |
| Hashcons.SameForm | pkg/ur/hashcons.c:598-755 | in any arena, references are equal if and only if their nouns and how the atoms of these are held are |
| Hashcons.SameRef | pkg/ur/hashcons.c:598-755 | in a canonical arena references are equal if and only if their nouns are |
| Hashcons.CanonicalIff | pkg/ur/hashcons.c:598-755 | every noun has one reference if and only if no atom held as bytes would fit in a reference |
| Hashcons.TwoRefs | pkg/ur/serial.c:245-261 | an atom entered as bytes that would fit directly has two references |
| Hashcons.Root.CoinBytes | pkg/ur/hashcons.c:617-660 | an atom entered as bytes gets the one reference it has or a new one, and all earlier references keep their nouns; it returns if and only if the atom is there or fewer than ten others have its hash |
| Hashcons.Root.Cons | pkg/ur/hashcons.c:715-755 | a cell likewise; heads and tails always have smaller indices |
| Hashcons.MugIs | pkg/ur/hashcons.c:435-445 | stored hashes are the hashes of the nouns |
| Rooms.HasRoom | pkg/ur/hashcons.c:34-78 | no more than ten atoms and no more than ten cells of an arena share a hash |
| Meld.Melder.FromLoom | pkg/noun/urth.c:116-207 | the walk over loom cells with a stack, taking the reference stashed in an object where there is one, enters exactly the noun and nothing but its parts; it returns if and only if the arena with all of these has room |
| Meld.Melder.MeldAll | pkg/noun/urth.c:235-251 | several roots entered one after another: each reference stands for its noun, and references are equal exactly where nouns are, in any arena |
| Meld.Rebuilder.ToLoom | pkg/noun/urth.c:253-341 | one pass in index order builds every cell on a new loom, each from parts already built; each reference denotes what it did, and from a canonical arena no noun is built twice |
| Meld.Uniq | pkg/noun/urth.c:116-365 | every root comes back as the noun it was, equal roots as the same object, and from a canonical arena no two objects are the same noun |

## Left out

- Nock 12 (scrying), jet drivers, jet registration and the jet dashboard: a kick always runs the arm.
- Side effects of hints (printing, tracing to a file, profiling, timing): only what they do to the stack and the trace stack is modelled.
- Program copies from senior roads (`_n_prog_old`) and the merging of caches when an inner road returns.
- MurmurHash3 is any function; hashes are 31 bits and not zero.
- Snapshot: directory operations are durable at once, page writes are atomic, an unfinished memory.bin does not pass the checksums of its patch, and every page that is not dirty is in the last image. The backup copies, guard pages, signals and page protection are left out.
- CueLoops.CueLoop: positions of 2^62 bits and more, which need an atom longer than any memory, are numbers like others; memory does not run out.
- JamLoops.JamLoop: streams of 2^62 bits or more are left out. Dictionaries are new for each call; `ur_jam_with` and `ur_cue_with` wipe and reuse one.
- `ur_bsr32_any`, `ur_bsr_skip_any`, `ur_cue_test` and the 32-bit dictionary: they repeat what is modelled. `ur_bsw32` is `WriteWord` on 32 bits.
- `ur_coin_bytes` on atoms of at most 62 bits: it shifts a byte promoted to a 32-bit integer by up to 56 places, which C leaves undefined; meld never takes that path.
- Dictionary.Grow: `fuel` bounds how often growth starts over, because the code does so without bound; with 2^31 of it nothing more is gained by more. Sizes are unbounded, and memory does not run out.
- Meld.Melder.FromLoom: the stash is a map beside the loom; in memory it overwrites words of box headers that nothing reads as headers any more. Reference counts of the new loom are reconstructed afterwards by tracing, which is left out, and the dictionary for direct atoms of more than 31 bits is a map.
- HamtCache.Table.Put: use counts of keys and values are left out, as are uniting, freeing, walking and taking of tables.
- Arenas.Arena.Alloc: word-aligned allocation only; the cell allocator, aligned and byte allocation, trimming, and the retries when memory runs out are left out. The header of the first part of a split box is written before the links of the second, not after; they are different words.
- Pack.Road.Compact: boxes hold atoms and cells, and references outside the heap are a list; tables, programs and call sites that hold references of their own, and south roads, are left out.
- Take.Road.TakeAll: the nouns the caches hold are taken one after another; the tables around them are left out. Regions are part of an address rather than address ranges; allocation always finds room; the south copy of the code is the same and not repeated.
- InPlace.Editor.Mutating: a cell's field is emptied while its old content is edited; in memory it keeps a stale copy that nothing reads. Arguments of a cons are evaluated left to right.
- InPlace.Editor.Lose: an object is removed before its parts are given up, not between them.
- Equality.Comparer.Sing: which of two equal references is kept, or neither as on the home road, is any choice that the roads allow; that both sides are shared is stated for choices that never leave two references apart; the field is written before the reference it held is given up, not after. The word-by-word comparison of large atoms is left out.
- Equality.Comparer.Refill: references to roads above are not counted, where the code counts the one it keeps and leaks the other.
- `pkg/vere` drivers, `pkg/urcrypt`, `pkg/ent`, arithmetic on large atoms, pretty-printing, logging and profiling.
