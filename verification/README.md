# Verified models of the accelerator host software

This project models four parts of a software stack that drives a many-core
accelerator card, and proves what each is for.

- **Speculative decoding** (`Generation`, `Counters`, `Greedy`, `Model`,
  `PromptCuts`, `Replay`): token generation that drafts, verifies in one batch
  and rolls back, against plain greedy generation.
- **Drafting indexes** (`Probing`, `IndexTable`, `LookupTable`, `Lookup`,
  `Followers`, `NgramCache`, `CacheFile`, `StaticCache`, `CacheDraft`): the
  n-gram lookup and the context, dynamic and static caches, against the naive
  searches they speed up. The hash is an arbitrary function.
- **The rewriter** (`Card`, `Emitter`, `Unaligned`, `Operands`, `AddSubQ`,
  `ShiftQ`, `CompareQ`, `Moves`, `Ternlog`, `FloatCompare`, `Results`,
  `Encoding`, `ScratchArea`, `Layout`): AVX-512 instructions turned into
  sequences for the card, against the instructions' own meaning. `Card` is an interpreter of what the emitter emits: 32 vector
  registers of 16 dword lanes, 8 masks, 16 general registers, flags, the
  scratch area and memory. A rewriting takes a ghost entry state and returns
  the sequence, so its contract holds for every entry state.
- **Small cores** (`Mvex`, `Macros`, `Shadow`, `Doorbell`): the instruction
  encoder, the assembler's macros and the decoder (section 3.3 of Intel's ISA
  reference 327364-001), the register file kept beside the machine's own, and
  the request protocol over shared memory.

`Common`, `Words`, `Lanes`, `Shifts` and `Masks` hold the types and the
arithmetic these share. `dafny verify dfyconfig.toml` checks the whole project.

## Where the code and its promise part

Each is stated as the exact condition under which the promise holds.

- Drafting may give one token more than plain generation where the context's
  end is what stops it (`Greedy.OverrunsExactly`, `Generation.Overrun`,
  `Generation.FillsFor`).
- A narrow load takes eax for its mask before it forms the address, so an
  address that uses rax is not the program's (`Operands.FetchedIsSource`, and
  per instruction `Results`); the moves use ecx too (`Moves.SeenAddress`).
- A move between the scratch area and r8 to r15 sets the prefix bit that
  extends a base, not the one that extends the register, so it moves the
  register eight below (`Encoding.KeptExactly`).
- A narrow masked move of qwords keeps the span and the program's mask in one
  register (`Moves.LoadsLanes`, `Moves.StoresLanesOnly`).
- Arms 0xb and 0xd of the two-input tables are exchanged
  (`Ternlog.ArmImmExact`).
- A float compare above predicate 7 goes wrong in five ways
  (`FloatCompare.RightExactly`): a narrow memory operand is staged through the
  mask register that holds the write mask; TRUE of qwords at full width leaves
  the upper eight bits set; a second compare runs under a mask the first has
  overwritten when the destination is the write mask; a register form with
  suppressed exceptions is taken for the length its length field spells; and a
  narrow form makes its mask through eax before the address, broadcasts
  included, is formed.
- The decoder ignores the prefix bits that extend a shift's ModRM.reg
  (`Mvex.EncodeDecode`, `Mvex.ShiftPrefixLost`).
- The decoder writes lines that no macro takes (`Macros.TakesExactly`,
  `Macros.LineWithoutMacro`).
- A VEX write that reproduces the remembered low half goes unseen, and an SSE
  write is taken for one that clears the upper half (`Shadow.WriteAgrees`,
  `Shadow.UnseenWrites`).
- The host must read a reply's number before its fields
  (`Doorbell.OwnExactly`). The source reads the line as one volatile structure;
  the number is its first word.

## Model

| member | source | states |
|---|---|---|
| Generation.Generate | host/crates/phi-pld/src/decode.rs:138-315 | For every deterministic model, drafter, cache and parameter setting it succeeds; the output is the model's own greedy stream ending where drafting-off generation ends, or one token later where the context's end is what stops it, never the latter under the caller's length condition; `eog` is set exactly for an end-of-generation last token; every batch is within its bound; the counters are the sums over the drafts the model was shown, each taken from where the settings allow and counted with as many tokens as the model agreed to, the limit of a draft following from those before; the dynamic cache gains exactly this request's counts, and only when it learns; where the first exact match fills the context and the model goes on for ever, the output has the extra token |
| Generation.Loop | host/crates/phi-pld/src/decode.rs:177-309 | At every loop head the context's cells and the carried tokens are the prompt and output, a recurrent state equals the cells, carried tokens mean the checkpoint holds the state at the cells; the loop ends and no rollback failure exit is reached |
| Generation.Verify | host/crates/phi-pld/src/decode.rs:225-248 | The batch continues the context, the choice returned after each row is the model's own, and the accepted count is the longest agreed prefix |
| Generation.Choices | host/crates/phi-pld/src/decode.rs:228-244 | The batch decoded behind the carried tokens gives the model's choice after `cur` and after each drafted token |
| Generation.TakeBack | host/crates/phi-pld/src/decode.rs:268-281 | Both ways of taking back (restore and carry, or truncate) succeed and leave the decided tokens settled: in the context, or carried with the checkpoint at the cells |
| Generation.Fold | host/crates/phi-pld/src/decode.rs:218-228 | Carried tokens are decoded on their own exactly when the batch would pass the fold bound; the decided tokens stay settled and the batch stays bounded |
| Generation.Speculate | host/crates/phi-pld/src/decode.rs:236-308 | A drafted step extends the output by model choices only, up to an end-of-generation token; its draft, with its source and how many tokens were accepted, joins the drafts the counters are the sums of, and the next limit doubles, or is one more than what was accepted, within its bounds |
| Generation.Weigh | host/crates/phi-pld/src/decode.rs:225-264 | A draft is verified and enters every counter once: the step, its tokens, those accepted, a restore, and its n-gram's length or its tiers |
| Generation.Take | host/crates/phi-pld/src/decode.rs:218-308 | The tokens carried and the batches flushed are counted as the log of decoded batches shows them; a step without a draft leaves the drafts as they were |
| Generation.Step | host/crates/phi-pld/src/decode.rs:193-308 | Where n-grams do not share keys, the draft that joins is the plain searches' as the settings rank them, and none joins where they give none |
| Generation.PickedRanks | host/crates/phi-pld/src/decode.rs:196-217 | Junk if asked for; else the exact match, but the caches' draft where they are the drafter, or both are and there is no match |
| Generation.JunkDiffers | host/crates/phi-pld/src/decode.rs:199-201 | A junk token is small and never the last one |
| Generation.NextKAdapts | host/crates/phi-pld/src/decode.rs:300-308 | The next limit: unchanged without adaptation or after the caches, doubled after a whole draft, else one more than was accepted, within its bounds |
| Generation.Turn | host/crates/phi-pld/src/decode.rs:177-309 | One turn either ends generation where the greedy stream may end, or keeps the loop's invariant with a longer output |
| Generation.PickDraft | host/crates/phi-pld/src/decode.rs:196-217 | The draft is junk, the exact match or the caches' plain draft as the settings rank them, cut to the room; where n-grams share a key, still a copy of an earlier passage or the caches' plain draft |
| Generation.Accept | host/crates/phi-pld/src/decode.rs:284-294 | The accepted tokens up to the first end-of-generation token join the output and the drafters' records |
| Counters.Count | host/crates/phi-pld/src/decode.rs:249-264 | A draft adds to its n-gram length's slot alone, or to each tier as many tokens as it gave; the slots still sum to the totals |
| Counters.LoggedTry | host/crates/phi-pld/src/decode.rs:249-282 | A verified draft keeps the counters the sums over all verified drafts, per n-gram length and per tier, and those drafts the ones shown in the batches decoded |
| Generation.Prefill | host/crates/phi-pld/src/decode.rs:351-366 | The prompt is in the context, every batch is within the batch size, and the model's choice after the last token is returned |
| Generation.See | host/crates/phi-pld/src/decode.rs:164-169 | A token shown one at a time leaves the context cache at the exact counts of the whole history |
| Generation.Learn | host/crates/phi-pld/src/decode.rs:311-313 | The dynamic cache's counts grow by exactly the request's occurrence counts |
| Greedy.Job.LiveIsCorrect | host/crates/phi-pld/src/decode.rs:182-191 | An output that met no end before its last token is the plain generation's, or the one-token overrun at the context's end |
| Greedy.Job.DraftsCanEnd | host/crates/phi-pld/src/decode.rs:186-191 | Over all drafts generation can end at a length exactly when it is plain generation's, or one more where plain generation ends at the context's end; every output of Generate has such a length, and Overrun reaches the longer one |
| Greedy.OverrunsExactly | host/crates/phi-pld/src/decode.rs:186-191 | The extra token is ruled out for every model exactly when the token limit comes no later than the context's end, or the prompt leaves room for one token at most |
| Greedy.OverrunHappens | host/crates/phi-pld/src/decode.rs:186-191 | For all other lengths, a model that never ends by itself can be drafted one token further than plain generation |
| Generation.Overrun | host/crates/phi-pld/src/decode.rs:177-309 | The loop's own steps, given a draft that fills the context, return one token more than plain generation, for all those lengths and every such model |
| Generation.FillsFor | host/crates/phi-pld/src/decode.rs:177-309 | For any token, and any lengths with room for the extra token that the prompt is long enough to fill, there is a request that Generate itself answers with one token more: a prompt of that token, a model that repeats it, an exact match by single tokens |
| Generation.LearnedSum | host/crates/phi-pld/src/decode.rs:311-313 | After any sequence of learned requests the dynamic cache holds the sum of their occurrence counts |
| Greedy.Job.GreedyExtend | host/crates/phi-pld/src/decode.rs:245-248 | A draft prefix the model agrees with extends a greedy output greedily |
| PromptCuts.CutPrompt | host/crates/phi-pld/src/decode.rs:324-347 | The cuts ascend strictly to the prompt's end with gaps of at most a batch; every tail cut is among them, which only a recurrent model has, and no other cut is short |
| Model.Model.Decode | host/crates/phi-pld/src/sim.rs:141-171 | A decode that continues the context succeeds and returns the model's choices after the wanted rows; any other fails and changes nothing the caller relies on |
| Model.Model.Truncate | host/crates/phi-pld/src/sim.rs:173-182 | Cells are cut when the state allows it, and it says whether it did |
| Model.Model.Restore | host/crates/phi-pld/src/sim.rs:191-195 | The checkpoint's bytes give the recurrent state back |
| Model.ReplayChoices | host/crates/phi-pld/src/sim.rs:141-171 | The replayed model's choices are the recorded text's tokens |
| Words.TokensRoundTrip | host/crates/phi-pld/src/sim.rs:184-195 | A checkpoint's bytes decode to the tokens they encode |
| Words.ToLeSpells | host/crates/phi-pld/src/ngram_cache.rs:216-222 | Byte i of a word carries its bits 8i to 8i + 7 |
| Words.FromLeSpells | host/crates/phi-pld/src/ngram_cache.rs:237-243 | Four bytes read as a word exactly if byte i carries its bits 8i to 8i + 7 |
| Words.BytesSpell | host/crates/phi-pld/src/ngram_cache.rs:237-243 | The words read from bytes are the ones their digits spell, and no others |
| Replay.Simulate | host/crates/phi-pld/src/sim.rs:200-208 | Replaying a recorded output succeeds exactly when that output is a whole one, and then gives it back token for token |
| Replay.ReplayLength | host/crates/phi-pld/src/sim.rs:200-208 | Plain generation on the replayed text ends exactly at the text's end, for a whole output |
| LookupTable.Walk | host/crates/phi-pld/src/lookup.rs:46-60 | The probe ends, at the key's slot or at the first free one on its path |
| LookupTable.Table.Find | host/crates/phi-pld/src/lookup.rs:46-60 | A lookup is the finite map's: the key's occurrence record, or none |
| LookupTable.Table.Note | host/crates/phi-pld/src/lookup.rs:61-81 | Noting a position updates the finite map at that key only; load stays at or below half |
| LookupTable.Table.Grow | host/crates/phi-pld/src/lookup.rs:82-95 | Growth keeps the finite map and halves the load |
| Probing.NextWraps | host/crates/phi-pld/src/lookup.rs:46-60 | Masking by the table's size less one is wrapping to its front |
| Probing.Absent | host/crates/phi-pld/src/lookup.rs:46-60 | A free slot on a key's probe path proves the key absent |
| Probing.Place | host/crates/phi-pld/src/lookup.rs:61-81 | A key placed in the first free slot of its path keeps every key findable and unique |
| Probing.SomeFree | host/crates/phi-pld/src/lookup.rs:46-60 | A table at most half full has a free slot, so probing ends |
| Lookup.Index.Push | host/crates/phi-pld/src/lookup.rs:133-144 | Every n-gram of the context but the one at its very end is indexed, first and latest occurrence |
| Lookup.Index.Extend | host/crates/phi-pld/src/lookup.rs:145-149 | The same for many tokens |
| Lookup.Index.Recall | host/crates/phi-pld/src/lookup.rs:154-181 | For any hash a hit is a real earlier occurrence of the tail; with keys distinct on the tail's n-grams it is the naive scan's |
| Lookup.Index.Draft | host/crates/phi-pld/src/lookup.rs:154-181 | For any hash the draft copies what followed an earlier occurrence of the context's tail, never the tail itself; with distinct keys it is the naive scan, longest n first |
| Lookup.DraftIsLongest | host/crates/phi-pld/src/lookup.rs:154-181 | The naive scan's draft follows the first or latest earlier occurrence of its n tokens, no longer n-gram in range occurred earlier, and there is no draft only where none did |
| Lookup.HitIsScan | host/crates/phi-pld/src/lookup.rs:154-181 | An index hit whose tokens match is the first or latest occurrence a scan finds |
| Lookup.MissIsScan | host/crates/phi-pld/src/lookup.rs:154-181 | An index miss means a scan finds nothing |
| Followers.LowerBound | host/crates/phi-pld/src/ngram_cache.rs:58-71 | The branch-free search returns the first position not below the token |
| Followers.CountIn | host/crates/phi-pld/src/ngram_cache.rs:73-77 | The count of a token in a sorted list, as a scan gives it |
| Followers.Add | host/crates/phi-pld/src/ngram_cache.rs:88-97 | Exactly that token's count grows, the list stays sorted, and the sum and maximum stay exact |
| Followers.SamePart | host/crates/phi-pld/src/ngram_cache.rs:58-97 | Two exact parts with the same counts are equal, order, sum and maximum included |
| NgramCache.KeyOfInjective | host/crates/phi-pld/src/ngram_cache.rs:38-44 | Different n-grams have different padded keys, tokens being other than the padding |
| NgramCache.KeyOfPads | host/crates/phi-pld/src/ngram_cache.rs:38-44 | A key is the n-gram and the padding token behind it |
| NgramCache.Cache.Find | host/crates/phi-pld/src/ngram_cache.rs:122-136 | A lookup is the entry a scan finds, for any hash |
| NgramCache.Cache.PartOf | host/crates/phi-pld/src/ngram_cache.rs:137-155 | The key's entry, created if missing; all other counts unchanged; keys stay unique and load at most half |
| NgramCache.Cache.Grow | host/crates/phi-pld/src/ngram_cache.rs:156-167 | Growth keeps every entry findable |
| NgramCache.Cache.Update | host/crates/phi-pld/src/ngram_cache.rs:171-178 | Every n-gram's follower counts grow by exactly its occurrences that end in the new tokens |
| NgramCache.Cache.Merge | host/crates/phi-pld/src/ngram_cache.rs:181-188 | Pointwise addition of counts |
| NgramCache.HistoryPush | host/crates/phi-pld/src/ngram_cache.rs:171-178 | One-token updates add up to the whole history's occurrence counts |
| NgramCache.OccurrencesArePlaces | host/crates/phi-pld/src/ngram_cache.rs:171-178 | What an update adds for an n-gram is the number of new positions where its tokens stand before the follower, no token being the padding |
| NgramCache.HistoryCountsPlaces | host/crates/phi-pld/src/ngram_cache.rs:171-178 | A whole history's count of an n-gram and a follower is the number of positions where the one stands before the other |
| CacheFile.ParseEncode | host/crates/phi-pld/src/ngram_cache.rs:211-231 | Reading what was written gives the records back |
| CacheFile.EncodeParse | host/crates/phi-pld/src/ngram_cache.rs:234-262 | A file that is read at all is the encoding of what was read |
| CacheFile.ReadRecords | host/crates/phi-pld/src/ngram_cache.rs:234-262 | It succeeds exactly on well-formed files and gives their records, followers sorted |
| CacheFile.ParseIsLaid | host/crates/phi-pld/src/ngram_cache.rs:211-262 | A file reads as given records exactly if word for word it holds each one's key, number of followers, and their tokens and counts, and every number fits its field |
| CacheFile.ReadFile | host/crates/phi-pld/src/ngram_cache.rs:234-262 | The records laid out in the words its bytes spell, followers sorted, or the reader's fault; a file that ends inside a word reads as the whole words before it |
| Words.TornTail | host/crates/phi-pld/src/ngram_cache.rs:237-243 | What is left of a last word is no word |
| CacheFile.Save | host/crates/phi-pld/src/ngram_cache.rs:211-231 | The words written encode the entries in order |
| CacheFile.Load | host/crates/phi-pld/src/ngram_cache.rs:192-208 | It succeeds exactly on well-formed files; every count is the sum over the file's records |
| CacheFile.SaveThenLoad | host/crates/phi-pld/src/ngram_cache.rs:192-231 | Loading what was saved rebuilds the same entries: counts, order, sums and maxima |
| StaticCache.Key2Injective | host/crates/phi-pld/src/ngram_cache.rs:289-292 | Different token pairs have different 64-bit keys |
| StaticCache.PackPlace | host/crates/phi-pld/src/ngram_cache.rs:309-383 | A 40-bit offset and a 24-bit length packed in one word come apart again |
| StaticCache.Load | host/crates/phi-pld/src/ngram_cache.rs:309-362 | It succeeds exactly on files of distinct 2-grams that pack, and then answers for exactly those records |
| StaticCache.Find | host/crates/phi-pld/src/ngram_cache.rs:364-383 | A 2-gram is found exactly when the file has it, with exactly its followers, sum and best |
| CacheDraft.ChooseIsBest | host/crates/phi-pld/src/ngram_cache.rs:413-452 | The chosen follower has the greatest weighted count, the first of the greatest |
| CacheDraft.Precheck | host/crates/phi-pld/src/ngram_cache.rs:413-452 | Skipping a part whose maximum cannot pass the thresholds changes no answer |
| CacheDraft.TryPrimary | host/crates/phi-pld/src/ngram_cache.rs:413-452 | The longest trusted n-gram, as the unoptimised search finds it |
| CacheDraft.PrimaryIsLongest | host/crates/phi-pld/src/ngram_cache.rs:413-452 | The token is the leading follower of the longest n-gram that passes its thresholds, and there is none exactly where no n-gram passes |
| CacheDraft.NextIsRanked | host/crates/phi-pld/src/ngram_cache.rs:455-480 | The request's cache goes first, then the learned one at the stricter thresholds, then the corpus; each only where no n-gram passes in those before |
| CacheDraft.DraftsOn | host/crates/phi-pld/src/ngram_cache.rs:464-480 | Each drafted token is the choice after the history and the draft before it, and the draft stops short only where there is none |
| CacheDraft.WindowAnswers | host/crates/phi-pld/src/ngram_cache.rs:455-480 | The last tokens of the history answer as the whole history does |
| CacheDraft.Draft | host/crates/phi-pld/src/ngram_cache.rs:455-480 | Token for token and tier for tier the draft of the unoptimised search over the whole history |
| Card.ExecFrame | host/crates/avx512-xlate/src/rewrite.rs:522-619 | An emitted instruction changes nothing but what it is declared to write |
| Emitter.KeepsCall | host/crates/avx512-xlate/src/rewrite.rs:432-487 | Every legal emitter call keeps each register, mask and flag where it was or in the scratch area |
| Emitter.RestoresTransparent | host/crates/avx512-xlate/src/rewrite.rs:628-646 | The restores give back every vector, mask and general register and, unless the sequence defines them, all flags, OF included; they leave the results |
| Emitter.EndingLeaves | host/crates/avx512-xlate/src/rewrite.rs:628-665 | The whole ending, loads of produced general registers and of a produced flags byte included: each has the value its cell held, and all else is as at entry |
| Emitter.ThunkTransparent | host/crates/avx512-xlate/src/rewrite.rs:432-665 | A thunk made by any sequence of legal emitter calls changes nothing but its declared vector, mask, general-register and flag results and memory, and leaves those as the sequence made them |
| Emitter.FlagsBack | host/crates/avx512-xlate/src/rewrite.rs:633-636 | `add al, 127; sahf` recovers every flag, OF included, from what `lahf; seto al` left |
| Emitter.FillsRestore | host/crates/avx512-xlate/src/rewrite.rs:628-632 | The temporaries' restores give each its saved value |
| Masks.LanesFill | host/crates/avx512-xlate/src/rewrite.rs:2794-2803 | The lanes of each vector length, of dwords or of qwords, are its 128, 256 or 512 bits |
| Card.AhByte | host/crates/avx512-xlate/src/rewrite.rs:455-463 | `lahf` leaves the flags register's low byte: carry, one, parity, adjust, zero and sign at bits 0, 1, 2, 4, 6 and 7 |
| Emitter.Em.constructor | host/crates/avx512-xlate/src/rewrite.rs:277-308 | The scratch mask register is one the instruction does not use |
| Emitter.Em.K | host/crates/avx512-xlate/src/rewrite.rs:445-453 | The scratch mask register saved once, through rax |
| Emitter.Em.Flags | host/crates/avx512-xlate/src/rewrite.rs:455-462 | The flags saved once, through rax |
| Emitter.Em.MaskImm | host/crates/avx512-xlate/src/rewrite.rs:463-474 | The scratch mask register holds the mask; eax is used |
| Emitter.Em.Temp | host/crates/avx512-xlate/src/rewrite.rs:477-487 | A free register other than the instruction's, its value saved; refused exactly when the six slots are used |
| Emitter.Em.FinishWith | host/crates/avx512-xlate/src/rewrite.rs:628-665 | The finished sequence, with results in general registers and flags, leaves exactly the results from every entry state |
| Emitter.Em.Finish | host/crates/avx512-xlate/src/rewrite.rs:628-646 | Without such results it is transparent and keeps the vector and mask results |
| Operands.Commit | host/crates/avx512-xlate/src/rewrite.rs:670-695 | Every lane: zero above the vector length, the result where the write mask selects, else zero or what was there |
| Operands.Src2 | host/crates/avx512-xlate/src/rewrite.rs:700-720 | The register's lanes, or memory's staged or broadcast, below the vector length |
| Operands.FetchedIsSource | host/crates/avx512-xlate/src/rewrite.rs:700-720 | The staged operand is the program's in every machine state exactly when a narrow load's address does not use rax |
| Unaligned.LoadUnaligned | host/crates/avx512-xlate/src/rewrite.rs:566-570 | The load pair gives the enabled lanes consecutive dwords, across the line boundary |
| Unaligned.StoreUnaligned | host/crates/avx512-xlate/src/rewrite.rs:574-578 | The store pair puts the enabled lanes in consecutive dwords and changes no other memory |
| Unaligned.LoadPrefix | host/crates/avx512-xlate/src/rewrite.rs:566-570 | Under a mask of the lowest lanes it is lane by lane |
| Unaligned.StorePrefix | host/crates/avx512-xlate/src/rewrite.rs:574-578 | Under a mask of the lowest lanes each lane of a store goes to its own dword |
| AddSubQ.Rewrite | host/crates/avx512-xlate/src/rewrite.rs:1681-1705 | Every qword of the destination is the 64-bit sum or difference under mask, zeroing and vector length; all else transparent |
| AddSubQ.AddSubLanes | host/crates/avx512-xlate/src/rewrite.rs:1688-1702 | The dword sums with carried masks are the 64-bit operation per qword |
| ShiftQ.Rewrite | host/crates/avx512-xlate/src/rewrite.rs:2090-2158 | Every qword is the 64-bit shift by any immediate 0 to 255, left, logical or arithmetic, under mask, zeroing and vector length; all else transparent |
| ShiftQ.ShiftLanes | host/crates/avx512-xlate/src/rewrite.rs:2099-2154 | Each case of the count composes to the 64-bit shift per qword |
| CompareQ.QwordLtEq | host/crates/avx512-xlate/src/rewrite.rs:1751-1772 | The even bits are each qword's signed or unsigned less-than, and its equality |
| CompareQ.PredHolds | host/crates/avx512-xlate/src/rewrite.rs:1805-1852 | Predicates 1, 2, 4 and 7 hold of a smaller number, 0, 2, 5 and 7 of an equal one, 4 to 7 of a greater one, signed or unsigned |
| CompareQ.MinMaxIs | host/crates/avx512-xlate/src/rewrite.rs:1859-1880 | The minimum or maximum is one of the two, and none is smaller or greater |
| CompareQ.RewriteCmp | host/crates/avx512-xlate/src/rewrite.rs:1805-1852 | The mask has exactly the bits of the qwords in the vector length that the write mask selects and the predicate holds of, for all eight predicates; all else transparent |
| CompareQ.RewriteMinMax | host/crates/avx512-xlate/src/rewrite.rs:1859-1880 | Every qword is the signed or unsigned minimum or maximum under mask, zeroing and vector length; all else transparent |
| CompareQ.Pack | host/crates/avx512-xlate/src/rewrite.rs:1775-1785 | The even bits packed to the low half, the rest zero |
| CompareQ.SpreadUp | host/crates/avx512-xlate/src/rewrite.rs:1788-1791 | A pair of bits takes the lower one's value |
| Moves.QmaskToDmask | host/crates/avx512-xlate/src/rewrite.rs:597-619 | Dword lane l of the scratch mask register has the bit of qword l / 2, within the limit |
| Moves.RewriteLoad | host/crates/avx512-xlate/src/rewrite.rs:1074-1138 | Each lane merges, zeroes or takes the dword the pairs bring it; refused exactly for a byte or word mask; all else transparent |
| Moves.RewriteStore | host/crates/avx512-xlate/src/rewrite.rs:1074-1148 | The selected lanes reach memory through the pairs' mask and no other memory changes; all else transparent |
| Moves.RewriteRegister | host/crates/avx512-xlate/src/rewrite.rs:1082-1099 | A narrow or zeroing move between registers merges, zeroes or copies each lane; the others are left to the card's own move |
| Moves.SeenAddress | host/crates/avx512-xlate/src/rewrite.rs:1110-1116 | The address is the program's in every machine state exactly when it does not use the registers the masks go through |
| Moves.LoadsLanes | host/crates/avx512-xlate/src/rewrite.rs:1110-1138 | A load takes each selected lane from its own dword in every machine state exactly for full width, no mask or dword elements, and an address without the registers the masks go through |
| Moves.StoresLanesOnly | host/crates/avx512-xlate/src/rewrite.rs:1139-1148 | A store changes exactly the selected lanes' dwords in every machine state exactly for the same instructions and addresses |
| Ternlog.Bool2 | host/crates/avx512-xlate/src/rewrite.rs:969-1025 | Each two-input table, except that arms 0xb and 0xd compute each other's |
| Ternlog.Rewrite | host/crates/avx512-xlate/src/rewrite.rs:1027-1072 | Every lane is the truth table the arms compute under mask, zeroing and vector length; all else transparent |
| Shifts.BitwiseBit | host/crates/avx512-xlate/src/rewrite.rs:969-1025 | Bit i of a bitwise operation is the operation on bits i |
| Ternlog.TernLaneBit | host/crates/avx512-xlate/src/rewrite.rs:1027-1072 | Bit i of the immediate's table on three inputs is the immediate's bit 4a + 2b + c, for the inputs' bits i |
| Ternlog.ArmImmExact | host/crates/avx512-xlate/src/rewrite.rs:1010-1021 | That table is the immediate's on every input exactly when neither half of it is 0xb or 0xd |
| Results.AgreesExactly | host/crates/avx512-xlate/src/rewrite.rs:700-722 | A result computed qword by qword is EVEX's from every machine state exactly when the operand's address does not use rax or the operation ignores the operand |
| Results.AddSubExactly | host/crates/avx512-xlate/src/rewrite.rs:1681-1710 | A qword sum or difference is EVEX's from every machine state exactly when the operand's address does not use rax |
| Results.ShiftExactly | host/crates/avx512-xlate/src/rewrite.rs:2090-2158 | A qword shift is, exactly then or when it is a logical shift by 64 or more |
| Results.MinMaxExactly | host/crates/avx512-xlate/src/rewrite.rs:1859-1884 | A qword minimum or maximum is, exactly then |
| Results.CmpExactly | host/crates/avx512-xlate/src/rewrite.rs:1805-1852 | A qword compare's mask is, exactly then or for FALSE and TRUE |
| Results.TernExactly | host/crates/avx512-xlate/src/rewrite.rs:1027-1070 | A three-input table is, exactly when the arms agree with the immediate on the inputs that can meet and the operand's address does not use rax or the table ignores it |
| FloatCompare.HoldsOf | host/crates/avx512-xlate/src/rewrite.rs:2221-2289 | Which of the sixteen predicates hold of less, equal, greater and unordered values |
| FloatCompare.StepsHold | host/crates/avx512-xlate/src/rewrite.rs:2256-2289 | One or two card predicates, operands swapped or not, give each of the AVX-512 predicates |
| FloatCompare.Rewrite | host/crates/avx512-xlate/src/rewrite.rs:2221-2307 | What the sequence leaves in the destination mask, for every predicate above 7 and every length field a form can carry; all else transparent, the borrowed mask register included |
| FloatCompare.RewriteConstant | host/crates/avx512-xlate/src/rewrite.rs:2236-2246 | vpcmpd's FALSE and TRUE: the mask is empty, or the selected lanes of the vector length |
| FloatCompare.ExactIsRight | host/crates/avx512-xlate/src/rewrite.rs:2221-2307 | Under a condition on the instruction alone the mask is AVX-512's from every machine state |
| FloatCompare.OnlyExact | host/crates/avx512-xlate/src/rewrite.rs:2221-2307 | Without it there is a machine state from which every mask the sequence can leave is wrong |
| FloatCompare.RightExactly | host/crates/avx512-xlate/src/rewrite.rs:2221-2307 | So the mask is AVX-512's from every machine state exactly under that condition |
| Layout.Assembler.Instruction | host/crates/avx512-xlate/src/rewrite.rs:317-385 | The bytes of the instruction, and for a relative operand a fixup window inside it, apart from every other window |
| Layout.Assembler.Raw | host/crates/avx512-xlate/src/rewrite.rs:418-431 | Bytes with nothing to patch leave every window where it was |
| Layout.Assembler.MemModrm | host/crates/avx512-xlate/src/rewrite.rs:2449-2474 | The same for a scalar instruction's operand |
| Layout.Assembler.Constant | host/crates/avx512-xlate/src/rewrite.rs:489-495 | A constant's index; no constant is held twice by it |
| Layout.ThunkBytes | host/crates/avx512-xlate/src/rewrite.rs:2481-2510 | Every displacement points at its constant or address, no other code byte changes, both jumps land, every constant is on a 64-byte boundary, apart and intact, and the site is padded to its length |
| Layout.PointsExactly | host/crates/avx512-xlate/src/rewrite.rs:2498-2503 | A displacement reaches its target exactly when the distance fits 32 signed bits |
| Layout.ConstantRead | host/crates/avx512-xlate/src/rewrite.rs:2485-2503 | In a thunk below 2 GiB an instruction with a constant operand reads that constant |
| Encoding.OneBack | host/crates/avx512-xlate/src/rewrite.rs:317-430 | The bytes of every emitted instruction, whatever follows them, are read back as that instruction, its length and the references it takes |
| Encoding.DecodeCodes | host/crates/avx512-xlate/src/rewrite.rs:317-430 | A sequence's bytes and references are read back as the sequence, so different sequences have different bytes or references |
| Encoding.BytesMean | host/crates/avx512-xlate/src/rewrite.rs:317-430 | What is read back does what the sequence does from every machine state, where no register above the eighth meets the scratch area |
| Encoding.KeptExactly | host/crates/avx512-xlate/src/rewrite.rs:419-430 | A move between a general register and the scratch area keeps its meaning in its bytes exactly for the low eight registers |
| Encoding.Assemble | host/crates/avx512-xlate/src/rewrite.rs:317-430 | The thunk assembled from a sequence is sound, holds its bytes, and has one zeroed window for each reference, resolved to that constant or address |
| ScratchArea.PlacesApart | host/crates/avx512-xlate/src/rewrite.rs:65-75 | The six vector slots and the cells lie within the 512 bytes, aligned to their size, and no two share a byte |
| ScratchArea.AtOffset | host/crates/avx512-xlate/src/rewrite.rs:419-431 | An instruction with an operand in the scratch area ends in the displacement of the byte it starts at |
| ScratchArea.StepRefines | host/crates/avx512-xlate/src/rewrite.rs:419-486 | A store or load of bytes at that offset does what the instruction does on slots and cells, and so changes no other |
| ScratchArea.RunRefines | host/crates/avx512-xlate/src/rewrite.rs:419-486 | Every sequence run on the area's bytes gives the registers, flags, memory and area that it gives on slots and cells |
| ScratchArea.AreaFor | host/crates/avx512-xlate/src/rewrite.rs:65-75 | Every content of the slots and cells is that of some area |
| ScratchArea.BytesRun | host/crates/avx512-xlate/src/rewrite.rs:317-430 | A thunk's bytes and references, read back and run on the area's bytes, do what its sequence does |
| Mvex.RowsUnique | tools/mvex-decode.c:21-50 | No two rows of the table match the same opcode fields |
| Mvex.Decode | tools/mvex-decode.c:74-168 | The row-by-row search decodes as the independent opcode index says, and the mask family as its own table |
| Mvex.DecodeEncodeMask | tools/mvex-decode.c:76-94 | A mask instruction decodes to itself exactly when it names a first source only where its operation has one |
| Mvex.EncodeDecodeMask | tools/mvex-decode.c:76-94 | A decoded mask instruction encodes to its bytes |
| Mvex.DecodeEncode | host/crates/knc-mvex/src/lib.rs:211-235 | Decoding an encoded instruction gives the same row, operands, mask and immediate exactly when the row allows the operands, for all registers and displacements |
| Mvex.EncodeDecode | tools/mvex-decode.c:95-168 | Encoding what was decoded gives the bytes back exactly unless it is a shift whose prefix extends ModRM.reg |
| Mvex.ShiftPrefixLost | tools/mvex-decode.c:150-154 | Seven bytes of a shift that decode to an instruction of other bytes |
| Macros.NamesAgree | card/vpu/mvex.inc:169-377 | Every macro's map, prefix, W, opcode and extension are those of the decoder's row of that name |
| Macros.WrittenExpand | tools/mvex-decode.c:95-168 | Every macro line's bytes decode to that line: name, operands, immediate, conversion, mask and hint, for all registers and displacements |
| Macros.ExpandWritten | tools/mvex-decode.c:95-168 | The line written for bytes assembles to those bytes exactly when its macro takes all it says and a shift's prefix does not extend ModRM.reg |
| Macros.TakesExactly | card/vpu/mvex.inc:104-377 | Which decoded instructions no macro takes: a base of rsp or r12, a register where the macro wants memory, a conversion or a hint it has none for |
| Macros.LineWithoutMacro | tools/mvex-decode.c:125-129 | Six bytes that decode to an unpacking load from a register, which no macro gives |
| Macros.EmittedByName | host/crates/avx512-xlate/src/rewrite.rs:317-385 | Each of the rewriter's vector instructions that has a macro is emitted as that macro's bytes, and decodes by that name |
| Macros.MasksByName | host/crates/avx512-xlate/src/rewrite.rs:387-417 | The rewriter's mask instructions are the mask macros' bytes |
| Macros.MaskLineDecodes | card/vpu/mvex.inc:380-415 | Every mask macro's bytes decode to that line |
| Macros.KnownThree | host/crates/knc-mvex/src/lib.rs:751-791 | The bytes of three-operand instructions that ran on the card |
| Macros.KnownExtended | host/crates/knc-mvex/src/lib.rs:678-695 | The bytes of instructions under a mask and with extended registers |
| Macros.KnownShifts | host/crates/knc-mvex/src/lib.rs:793-820 | The bytes of shifts that ran on the card |
| Macros.KnownImmediates | host/crates/knc-mvex/src/lib.rs:698-702 | The bytes of a compare and a rounding |
| Macros.KnownLoads | host/crates/knc-mvex/src/lib.rs:822-849 | The bytes of loads from memory |
| Macros.KnownStores | host/crates/knc-mvex/src/lib.rs:846-905 | The bytes of stores, with a negative displacement and with the hint |
| Macros.KnownMasks | host/crates/knc-mvex/src/lib.rs:670-675 | The bytes of the mask moves |
| Macros.KnownLines | host/crates/avx512-xlate/src/rewrite.rs:2586-2666 | The clearing of the upper lanes and the compare, byte for byte |
| Macros.KnownCompare | host/crates/avx512-xlate/src/rewrite.rs:2676-2690 | The float compare of each predicate, byte for byte |
| Macros.KnownEnding | host/crates/avx512-xlate/src/rewrite.rs:2674-2682 | rax back from offset 384 and the flags byte from 385, byte for byte |
| Shadow.VState.SyncIn | host/crates/phi512/src/state.rs:182-192 | The registers in the mask take the live halves, upper halves cleared where a write is inferred; no other register changes |
| Shadow.VState.SyncOut | host/crates/phi512/src/state.rs:195-203 | The live halves and the remembered ones are the storage's, for the mask's registers only |
| Shadow.VState.NoteWrite | host/crates/phi512/src/state.rs:87-91 | Every low half is remembered |
| Shadow.WriteAgrees | host/crates/phi512/src/state.rs:93-118 | A VEX or SSE write keeps storage and real hardware in agreement exactly when it can be inferred from the low half, or no upper half is lost |
| Shadow.EmulateAgrees | host/crates/phi512/src/state.rs:182-203 | An instruction whose operands are in the mask sees the real registers and keeps the agreement |
| Shadow.RunAgrees | host/crates/phi512/src/state.rs:84-204 | Over every interleaving of emulated instructions and inferable writes, the storage after taking in is the 512-bit register file real hardware would hold |
| Shadow.UnseenWrites | host/crates/phi512/src/state.rs:93-118 | After one emulated instruction from the initial state, a VEX clear that goes unseen and an SSE write that is misread |
| Doorbell.HostKeeps | host/crates/phi-vpu/src/window.rs:117-135 | Every host access keeps the protocol's invariant, the reply's number being read before its fields |
| Doorbell.CardKeeps | card/vpu/vpu_proto.h:60-87 | Every card access keeps it |
| Doorbell.EveryRun | host/crates/phi-vpu/src/window.rs:111-135 | Then over every interleaving of word accesses, with requests given up on, a reply returned was computed from that call's own fields |
| Doorbell.EarlyFieldStale | host/crates/phi-vpu/src/window.rs:126-130 | For every order that reads some field before the number there is a run from rest that returns another reply's field |
| Doorbell.OwnExactly | host/crates/phi-vpu/src/window.rs:111-135 | Replies returned are the call's own, for every worker and every run, exactly when no field is read before the number |

## Left out

- Followers.Add: counts are unbounded integers; the 32-bit counters' overflow is not modelled.
- NgramCache.Cache.PartOf: entry positions are unbounded; the source keeps them in 32 bits.
- Unaligned.LoadUnaligned: the pairs' dword form without conversion only; the sequences modelled use no other.
- Unaligned.StoreUnaligned: the same.
- Moves.RewriteLoad: memory is seen by dword, so addresses are multiples of four, which the card's pairs demand.
- Moves.RewriteStore: the same; that the read-modify-write is not atomic is not modelled.
- Moves.RewriteRegister: the bytes of a move rewritten in place are not modelled.
- FloatCompare.Rewrite: elements are compared by any order that exchanging operands reverses; rounding and exceptions are not modelled.
- Emitter.Em.FinishWith: the sequences that use its general-register and flag results (moves to general registers, comis) are not modelled.
- Card.ExecFrame: the flags an integer instruction leaves are any function of its result; shifts by register, multiplies and permutes are not modelled.
- Layout.Assembler.Instruction: a displacement is cut to 32 bits as the source casts it; the bytes of scalar instructions are taken as given.
- Encoding.BytesMean: a displacement, and 64 above it for a pair's high part, is taken to fit 32 bits (the source cuts it) and no index is rsp, which no x86 operand has; the windows are read as references, before `Layout.ThunkBytes` patches them.
- ScratchArea.RunRefines: the program's own memory is taken not to overlap the scratch area.
- Mvex.Decode: an instruction's line is modelled by its name and operands (`Macros.Written`), not by its spelling.
- Macros.ExpandWritten: what the assembler makes of a line its macro does not take is not modelled.
- Doorbell.EveryRun: sequence numbers do not wrap at 2^64; one host process uses the window at a time; the readiness word is not modelled.
- Shadow.RunAgrees: mask registers are storage only and are not modelled.
- Generation.Generate: times and the cost table are not modelled; the model is a deterministic function of its context.
- CacheFile.Save: opening, renaming and I/O errors are not modelled.
- Floating-point synthesis, conversions, x87 and float16 sequences in the rewriter, which are approximate by design.
- The other integer rewritings (multiplies, permutes, inserts, extracts, tests, mask instructions), which would add members of the same kind; `permute` commits with dword lanes.
- The translation table of avx512-xlate, the decoding of x86 instructions, the patcher, the planner and the offload modules.
- The signal handler, alternate stacks and XSAVE areas; the HTTP server, command lines and calls into llama.cpp.
- The card's kernels and worker other than its doorbell contract.
