# Verified models of the vendored C library headers

The repository boots a Raspberry Pi image under QEMU. Its root filesystem carries five pieces of code whose text
is complete enough to be modelled; this project models them in Dafny and proves what they promise.

- **Object stacks** (`obstack.h`). `Alignment` spells out the alignment macros bit by bit. `ObstackMacros` has every
  macro as a function on obstack values, in both families: statement expressions for GNU C, and comma expressions
  that work through the `temp` field. `ObstackHeap` carries the same macros out in place, on chunk objects linked
  by `prev` with their bytes in arrays. `ObstackModel` says what an obstack is for, a stack of finished byte strings
  under one growing one, and gives the simulation relation that every macro keeps, including the exact place of
  every object. `ObstackRuns` and `ObstackTheorems` speak about whole runs of calls, for every answer an allocator
  may give; `ObstackMeaning` says what each call does to objects, memory and flag without naming a macro;
  `ObstackFamilies` compares the two families; `ObstackClient` carries whole runs out in place, with the
  client's pointers and its stores through them.
- **The debugger hook of libstdc++** (`libstdc++.so.6.0.29-gdb.py`). `Paths` models the `os.path` functions it calls,
  character by character; `Relocation` models the script and proves exactly when a moved tree finds its modules.
- **Cancellation cleanup handlers** (`pthread.h`). `Cleanup` gives the meaning of well-nested push and pop on a thread
  with a handler stack, following section 2.9.5.3 of IEEE Std 1003.1-2008, System Interfaces. `CleanupForms` runs the
  three implementations (C++ destructor, cleanup attribute, setjmp with registered buffers) in place.
- **Argument vectors** (`argz.h`): `argz_next` and the two documented loops, in `Argz`.
- **Feature-test macros** (`features.h`, lines 125 to 408): the define and undef steps, and what they amount to, in
  `Features`.

The bodies behind `_obstack_begin`, `_obstack_newchunk` and `__obstack_free` are declared but not defined in
`obstack.h`; the model gives them the behaviour the header's comments describe. The same holds for the register,
unregister and unwind functions behind the setjmp form of the cleanup macros. An allocator's answer is a parameter of
each call: any chunk that overlaps no other and is large enough.

Three things the code or its documentation says turn out not to hold everywhere, and the model keeps the code's
behaviour:

- The hook repairs a common prefix such as `/us` to `//`, one character too long, so that `/use/py` is looked for as
  `/se/py` next to a library in `/usr/lib`. `Relocation.MovedIff` says exactly when it goes right, for any one place
  in any one tree; a library configured for `/` itself is the other exception for moved trees.
- Of the two iteration styles in `argz.h`, the `for` loop visits a phantom entry when the vector is empty but its
  pointer is not null (`Argz.BothWalks`).
- Feature-test macros are said to accumulate. Adding `__STRICT_ANSI__`, an ISO C macro, `_POSIX_SOURCE`,
  `_POSIX_C_SOURCE` or `_XOPEN_SOURCE` can take features away: `Features.AccumulatesIff` says exactly when, for any
  set of macros added or raised at once, and the `AddedIff` lemmas for each of these alone. All other macros only add
  (`Features.OthersOnlyAdd`).

## Model

| member | source | states |
|---|---|---|
| Alignment.BptrAlignIsLeast | rpi3b-tools/rootfs/usr/include/obstack.h:119-123 | for a mask one less than a power of two, the bit operations give the least address at or above P whose offset from B is a multiple of mask + 1, at most mask further on |
| Alignment.StrategiesAgree | rpi3b-tools/rootfs/usr/include/obstack.h:125-134 | aligning relative to B and relative to 0 agree if and only if B is itself a multiple |
| ObstackMacros.Begin | rpi3b-tools/rootfs/usr/include/obstack.h:184-186 | a new obstack has the one chunk, grows an empty object at its aligned start, and has the flag clear |
| ObstackMacros.NewChunk | rpi3b-tools/rootfs/usr/include/obstack.h:78-81 | a chunk change keeps the bytes of the growing object, leaves room for the request, clears the flag and does not touch temp |
| ObstackMacros.MakeRoom | rpi3b-tools/rootfs/usr/include/obstack.h:280-286 | afterwards the request fits, and the growing bytes are the same; an object that fits is not moved, and the flag stays set only then |
| ObstackMacros.Grow | rpi3b-tools/rootfs/usr/include/obstack.h:296-304 | the growing object gets exactly the given bytes at its end |
| ObstackMacros.Grow0 | rpi3b-tools/rootfs/usr/include/obstack.h:306-315 | the growing object gets the given bytes and a zero |
| ObstackMacros.OneGrowFast | rpi3b-tools/rootfs/usr/include/obstack.h:254 | given room, one byte more |
| ObstackMacros.OneGrow | rpi3b-tools/rootfs/usr/include/obstack.h:317-323 | one byte more, whether or not a new chunk is needed |
| ObstackMacros.BlankFast | rpi3b-tools/rootfs/usr/include/obstack.h:256 | n bytes more or -n fewer, the others unchanged |
| ObstackMacros.Blank | rpi3b-tools/rootfs/usr/include/obstack.h:359-366 | the same, with a new chunk if needed |
| ObstackMacros.Finish | rpi3b-tools/rootfs/usr/include/obstack.h:388-401 | the value is the object's address; only object_base, next_free and the flag change, the flag being set if and only if it was or the object is empty; the next object begins empty, not before the end of this one |
| ObstackMacros.NextBaseIsLeast | rpi3b-tools/rootfs/usr/include/obstack.h:394-400 | the next object begins at the first aligned address from this one's end on, or at the chunk's limit if that comes first |
| ObstackMacros.FinishHolds | rpi3b-tools/rootfs/usr/include/obstack.h:388-401 | the bytes that were growing are in the chunk at the value returned |
| ObstackMacros.Alloc | rpi3b-tools/rootfs/usr/include/obstack.h:368-372 | the next object begins at least n bytes past the growing bytes at the value returned, which are kept; the flag is set iff the old chunk's was and it is still in use, or the object is empty |
| ObstackMacros.Copy | rpi3b-tools/rootfs/usr/include/obstack.h:374-378 | the growing bytes and the given ones are in the chunk at the value returned; the flag as for Alloc |
| ObstackMacros.Copy0 | rpi3b-tools/rootfs/usr/include/obstack.h:380-384 | the same with a zero byte at the end |
| ObstackMacros.Walk | rpi3b-tools/rootfs/usr/include/obstack.h:192-197 | the walk keeps exactly the chunks up to the newest one that holds the address |
| ObstackMacros.CommaReserve | rpi3b-tools/rootfs/usr/include/obstack.h:431-434 | the shared start of the comma macros: same effect as make_room, with the length in temp, although the length is read back from temp after a chunk change |
| ObstackMacros.CommaGrow | rpi3b-tools/rootfs/usr/include/obstack.h:436-441 | same effect as the GNU form but for temp |
| ObstackMacros.CommaGrow0 | rpi3b-tools/rootfs/usr/include/obstack.h:443-449 | same effect as the GNU form but for temp |
| ObstackMacros.CommaOneGrow | rpi3b-tools/rootfs/usr/include/obstack.h:451-454 | same effect as the GNU form |
| ObstackMacros.CommaBlank | rpi3b-tools/rootfs/usr/include/obstack.h:472-476 | same effect as the GNU form, temp left holding the length |
| ObstackMacros.CommaFinish | rpi3b-tools/rootfs/usr/include/obstack.h:487-499 | same value and effect as the GNU form, temp left holding the object's address |
| ObstackMacros.CommaAlloc | rpi3b-tools/rootfs/usr/include/obstack.h:478-479 | same value and effect as the GNU form but for temp |
| ObstackMacros.CommaCopy | rpi3b-tools/rootfs/usr/include/obstack.h:481-482 | same value and effect as the GNU form but for temp |
| ObstackMacros.CommaCopy0 | rpi3b-tools/rootfs/usr/include/obstack.h:484-485 | same value and effect as the GNU form but for temp |
| ObstackMacros.CommaFree | rpi3b-tools/rootfs/usr/include/obstack.h:501-507 | measuring from the chunk and adding it back takes the same branch to the same state, release or abort as the GNU form |
| ObstackModel.Ordered | rpi3b-tools/rootfs/usr/include/obstack.h:71-76 | in every state related to a model, objects of one chunk lie in order without overlap and younger objects are never in older chunks |
| ObstackModel.FlagSound | rpi3b-tools/rootfs/usr/include/obstack.h:173-176 | flag clear and growing object at the chunk's start: no finished object, not even an empty one, is in the current chunk |
| ObstackModel.ReplacedIff | rpi3b-tools/rootfs/usr/include/obstack.h:173-176 | with the flag clear, the current chunk is given up if and only if no live finished object is in it |
| ObstackModel.ChunkGivenUpIff | rpi3b-tools/rootfs/usr/include/obstack.h:173-176 | a chunk change links the allocator's chunk after the others with the flag clear, and drops the chunk that was current if and only if the flag was clear and no live finished object is in it |
| ObstackModel.SimNewChunk | rpi3b-tools/rootfs/usr/include/obstack.h:78-81 | a chunk change keeps every object's chunk, address and bytes, and moves the growing bytes intact |
| ObstackModel.SimAppend | rpi3b-tools/rootfs/usr/include/obstack.h:302-303 | storing at next_free extends the growing object and disturbs no other |
| ObstackModel.SimFinish | rpi3b-tools/rootfs/usr/include/obstack.h:388-401 | the growing object becomes a finished one where it lies; the flag still tells the truth |
| ObstackModel.FastFreeIsWalk | rpi3b-tools/rootfs/usr/include/obstack.h:403-409 | the fast branch of obstack_free reaches the state the chunk walk would reach |
| ObstackModel.WalkFinds | rpi3b-tools/rootfs/usr/include/obstack.h:403-409 | on disjoint chunks the walk stops at the one chunk that holds the address |
| ObstackModel.SimFree | rpi3b-tools/rootfs/usr/include/obstack.h:403-409 | freeing object i never aborts; it leaves exactly the objects before i, with their addresses and bytes, and an empty growing object; the flag still tells the truth |
| ObstackRuns.SimStore | rpi3b-tools/rootfs/usr/include/obstack.h:365-372 | a client's store into one object (such as one from obstack_alloc) changes that object's byte and nothing else |
| ObstackRuns.Step | rpi3b-tools/rootfs/usr/include/obstack.h:280-409 | every legal call keeps obstack and model in step |
| ObstackTheorems.Run | rpi3b-tools/rootfs/usr/include/obstack.h:87-98 | every run of legal calls, for every allocator, keeps obstack and model in step |
| ObstackTheorems.EveryReachable | rpi3b-tools/rootfs/usr/include/obstack.h:71-98 | from _obstack_begin on, after any run of legal calls: obstack and model are in step, object_base and next_free lie between the chunk's aligned start and its limit, and every object is inside a live chunk, apart from all others and aligned unless empty at the limit |
| ObstackTheorems.NeverMoves | rpi3b-tools/rootfs/usr/include/obstack.h:27-32 | over every run that does not free or write it, a finished object keeps its chunk, address and bytes |
| ObstackTheorems.Unwinds | rpi3b-tools/rootfs/usr/include/obstack.h:96-98 | after any work above a stack of objects, freeing the first object of that work restores exactly that stack |
| ObstackTheorems.ObjectsDisjoint | rpi3b-tools/rootfs/usr/include/obstack.h:88-94 | no two live objects, the growing one included, share a byte |
| ObstackTheorems.ObjectsAligned | rpi3b-tools/rootfs/usr/include/obstack.h:394-400 | every object is aligned or sits empty at its chunk's limit; every non-empty one is aligned |
| ObstackTheorems.WasteBounded | rpi3b-tools/rootfs/usr/include/obstack.h:394-400 | an object lies no further into its chunk than the lengths plus one mask for each object before it there |
| ObstackTheorems.EmptyTest | rpi3b-tools/rootfs/usr/include/obstack.h:288-294 | obstack_empty_p holds if and only if one chunk is left, nothing grows and every live object is empty |
| ObstackMeaning.StepMeans | rpi3b-tools/rootfs/usr/include/obstack.h:280-409 | for every call: which bytes grow, which become an object (an allocated one has the growing bytes and n more), which objects go, which byte is overwritten |
| ObstackMeaning.ObjectHeld | rpi3b-tools/rootfs/usr/include/obstack.h:71-76 | a finished object's bytes are in its chunk's memory at its address, below object_base if the chunk is the current one |
| ObstackMeaning.StepFlag | rpi3b-tools/rootfs/usr/include/obstack.h:388-409 | the flag is set after a call if and only if it was and the chunk did not change, or an empty object was finished, or a free dropped a chunk |
| ObstackMeaning.FlagStaysClear | rpi3b-tools/rootfs/usr/include/obstack.h:173-176 | over a run that finishes no empty object and frees no chunk a clear flag stays clear |
| ObstackMeaning.NoneKeptInVain | rpi3b-tools/rootfs/usr/include/obstack.h:173-176 | after such a run on a new obstack, a chunk change keeps the old chunk if and only if a live finished object is in it |
| ObstackMeaning.StepStays | rpi3b-tools/rootfs/usr/include/obstack.h:280-401 | a call that fits the current chunk moves nothing, and what it finishes lies where it grew |
| ObstackTheorems.FreeLandsIn | rpi3b-tools/rootfs/usr/include/obstack.h:403-409 | for any address in a chunk: that chunk and its elders stay, the object there grows anew, the flag is set iff it was or a chunk went, all else is as before |
| ObstackTheorems.FreeSurvives | rpi3b-tools/rootfs/usr/include/obstack.h:403-409 | for any address at all: unwound iff some chunk covers it, all released iff null, otherwise abort |
| ObstackTheorems.MakeRoomThenFast | rpi3b-tools/rootfs/usr/include/obstack.h:254-286 | make_room and then n fast growths reach the very state of one grow of n bytes |
| ObstackTheorems.GrowthAddsUp | rpi3b-tools/rootfs/usr/include/obstack.h:296-323 | a run of appending calls adds exactly the concatenation of its bytes, wherever chunk changes fall |
| ObstackTheorems.PiecesDoNotMatter | rpi3b-tools/rootfs/usr/include/obstack.h:296-323 | two ways to cut one byte string, under any allocators, give the same object over the same stack |
| ObstackFamilies.StepIgnoresTemp | rpi3b-tools/rootfs/usr/include/obstack.h:265-268 | no GNU macro reads the temp slot |
| ObstackFamilies.FamiliesAgree | rpi3b-tools/rootfs/usr/include/obstack.h:411-507 | over every run both families return the same addresses and reach the same state in every field but temp |
| ObstackHeap.Obstack.Begin | rpi3b-tools/rootfs/usr/include/obstack.h:184-186 | in place: what Begin says |
| ObstackHeap.Obstack.NewChunk | rpi3b-tools/rootfs/usr/include/obstack.h:184 | in place: a new chunk object holding the copied bytes is linked after the old one or in its stead, as NewChunk says |
| ObstackHeap.Obstack.MakeRoom | rpi3b-tools/rootfs/usr/include/obstack.h:280-286 | in place, arrays and links included: the whole new state is the one ObstackMacros.MakeRoom gives, no foreign array is taken in |
| ObstackHeap.Obstack.Grow | rpi3b-tools/rootfs/usr/include/obstack.h:296-304 | in place, arrays and links included: the whole new state is the one ObstackMacros.Grow gives, no foreign array is taken in |
| ObstackHeap.Obstack.Grow0 | rpi3b-tools/rootfs/usr/include/obstack.h:306-315 | in place, arrays and links included: the whole new state is the one ObstackMacros.Grow0 gives, no foreign array is taken in |
| ObstackHeap.Obstack.OneGrowFast | rpi3b-tools/rootfs/usr/include/obstack.h:254 | in place, arrays and links included: the whole new state is the one ObstackMacros.OneGrowFast gives, no foreign array is taken in |
| ObstackHeap.Obstack.OneGrow | rpi3b-tools/rootfs/usr/include/obstack.h:317-323 | in place, arrays and links included: the whole new state is the one ObstackMacros.OneGrow gives, no foreign array is taken in |
| ObstackHeap.Obstack.BlankFast | rpi3b-tools/rootfs/usr/include/obstack.h:256 | in place, arrays and links included: the whole new state is the one ObstackMacros.BlankFast gives, no foreign array is taken in |
| ObstackHeap.Obstack.Blank | rpi3b-tools/rootfs/usr/include/obstack.h:359-366 | in place, arrays and links included: the whole new state is the one ObstackMacros.Blank gives, no foreign array is taken in |
| ObstackHeap.Obstack.Finish | rpi3b-tools/rootfs/usr/include/obstack.h:388-401 | in place, arrays and links included: the whole new state is the one ObstackMacros.Finish gives, no foreign array is taken in |
| ObstackHeap.Obstack.Alloc | rpi3b-tools/rootfs/usr/include/obstack.h:368-372 | in place, arrays and links included: the whole new state is the one ObstackMacros.Alloc gives, no foreign array is taken in |
| ObstackHeap.Obstack.Copy | rpi3b-tools/rootfs/usr/include/obstack.h:374-378 | in place, arrays and links included: the whole new state is the one ObstackMacros.Copy gives, no foreign array is taken in |
| ObstackHeap.Obstack.Copy0 | rpi3b-tools/rootfs/usr/include/obstack.h:380-384 | in place, arrays and links included: the whole new state is the one ObstackMacros.Copy0 gives, no foreign array is taken in |
| ObstackHeap.Obstack.EmptyP | rpi3b-tools/rootfs/usr/include/obstack.h:288-294 | reads the links: true iff ObstackMacros.EmptyP holds of the state |
| ObstackHeap.Obstack.WalkBack | rpi3b-tools/rootfs/usr/include/obstack.h:192-197 | the loop over prev pointers ends at the chunk ObstackMacros.Walk names and sets the flag iff a chunk was passed |
| ObstackHeap.Obstack.FreeChunks | rpi3b-tools/rootfs/usr/include/obstack.h:192-197 | the chain is cut there, or every chunk is released, or abort |
| ObstackHeap.Obstack.Free | rpi3b-tools/rootfs/usr/include/obstack.h:403-409 | in place: the outcome and state of ObstackMacros.Free, in either branch |
| ObstackHeap.Obstack.CommaMakeRoom | rpi3b-tools/rootfs/usr/include/obstack.h:431-434 | in place, through the temp field: the state (and value) of ObstackMacros.CommaMakeRoom |
| ObstackHeap.Obstack.CommaGrow | rpi3b-tools/rootfs/usr/include/obstack.h:436-441 | in place, through the temp field: the state (and value) of ObstackMacros.CommaGrow |
| ObstackHeap.Obstack.CommaGrow0 | rpi3b-tools/rootfs/usr/include/obstack.h:443-449 | in place, through the temp field: the state (and value) of ObstackMacros.CommaGrow0 |
| ObstackHeap.Obstack.CommaOneGrow | rpi3b-tools/rootfs/usr/include/obstack.h:451-454 | in place, through the temp field: the state (and value) of ObstackMacros.CommaOneGrow |
| ObstackHeap.Obstack.CommaBlank | rpi3b-tools/rootfs/usr/include/obstack.h:472-476 | in place, through the temp field: the state (and value) of ObstackMacros.CommaBlank |
| ObstackHeap.Obstack.CommaFinish | rpi3b-tools/rootfs/usr/include/obstack.h:487-499 | in place, through the temp field: the state (and value) of ObstackMacros.CommaFinish |
| ObstackHeap.Obstack.CommaAlloc | rpi3b-tools/rootfs/usr/include/obstack.h:478-479 | in place, through the temp field: the state (and value) of ObstackMacros.CommaAlloc |
| ObstackHeap.Obstack.CommaCopy | rpi3b-tools/rootfs/usr/include/obstack.h:481-482 | in place, through the temp field: the state (and value) of ObstackMacros.CommaCopy |
| ObstackHeap.Obstack.CommaCopy0 | rpi3b-tools/rootfs/usr/include/obstack.h:484-485 | in place, through the temp field: the state (and value) of ObstackMacros.CommaCopy0 |
| ObstackHeap.Obstack.CommaFree | rpi3b-tools/rootfs/usr/include/obstack.h:501-507 | in place, through the temp field: the state (and value) of ObstackMacros.CommaFree |
| ObstackClient.Store | rpi3b-tools/rootfs/usr/include/obstack.h:365-372 | a byte stored through a pointer into a chunk's memory, in place, is Poke of the state |
| ObstackClient.Carve | rpi3b-tools/rootfs/usr/include/obstack.h:368-401 | a call with a value, in place: the state and value of the macro, which by Carved's contract are those of the Step and the address of its newest object |
| ObstackClient.Perform | rpi3b-tools/rootfs/usr/include/obstack.h:280-409 | one call on the heap obstack, a store included, is one Step; the pointers the client holds, the returned one added or the freed ones dropped, are the addresses of the model's objects |
| ObstackClient.PerformAll | rpi3b-tools/rootfs/usr/include/obstack.h:280-409 | a whole run of calls carried out in place ends in the state of Run, with the client's pointers at the model's objects |
| ObstackClient.Session | rpi3b-tools/rootfs/usr/include/obstack.h:184-409 | from _obstack_begin on, such a run ends in a reachable state |
| Paths.SplitJoin | rpi3b-tools/rootfs/lib/libstdc++.so.6.0.29-gdb.py:50 | splitting at slashes undoes joining components without slashes |
| Paths.FoldPops | rpi3b-tools/rootfs/lib/libstdc++.so.6.0.29-gdb.py:50 | as many '..' as there are components on top take exactly those away |
| Paths.LeadingSlashesAre | rpi3b-tools/rootfs/lib/libstdc++.so.6.0.29-gdb.py:36-37 | normalisation keeps two leading slashes and makes one of any other number |
| Paths.PathJoinAssociative | rpi3b-tools/rootfs/lib/libstdc++.so.6.0.29-gdb.py:53 | joining three parts is joining two and one either way; an empty first part adds nothing, an absolute part starts anew |
| Relocation.UpdateModulePath | rpi3b-tools/rootfs/lib/libstdc++.so.6.0.29-gdb.py:29-56 | the script, step by step, computes SearchPath: without an objfile sys.path is left alone, the IndexError of an empty prefix comes iff the normalised directories differ in their first character, and otherwise at most one entry is put in front; afterwards sys.path has the modules of the library's tree if and only if the test of MovedIff passes or they were there before |
| Relocation.FoundIff | rpi3b-tools/rootfs/lib/libstdc++.so.6.0.29-gdb.py:29-56 | after the hook some entry of sys.path names the modules of the tree if and only if the prefix is usable and a library configured for '/' has not moved, or some entry did before |
| Relocation.HookOnce | rpi3b-tools/rootfs/lib/libstdc++.so.6.0.29-gdb.py:55-56 | the hook adds its one directory in front, keeps the rest, and adds nothing when run again |
| Relocation.NormPathTwice | rpi3b-tools/rootfs/lib/libstdc++.so.6.0.29-gdb.py:35-37 | normalisation is idempotent on all paths |
| Relocation.NormPathLeads | rpi3b-tools/rootfs/lib/libstdc++.so.6.0.29-gdb.py:35-37 | a normalised relative path leads where the path does, from any directory |
| Relocation.ComponentStep | rpi3b-tools/rootfs/lib/libstdc++.so.6.0.29-gdb.py:35-37 | one component more: '.' stays, '..' goes up unless at the top, any other goes down |
| Relocation.SlashesIgnored | rpi3b-tools/rootfs/lib/libstdc++.so.6.0.29-gdb.py:35-37 | duplicate separators change nothing, and the root has no components |
| Relocation.DotIgnored | rpi3b-tools/rootfs/lib/libstdc++.so.6.0.29-gdb.py:35-37 | './' in front of a relative path changes nothing |
| Relocation.DirnameOfEntry | rpi3b-tools/rootfs/lib/libstdc++.so.6.0.29-gdb.py:53 | the directory of a file in a normalised directory, the root included, is that directory |
| Relocation.DirnameAndName | rpi3b-tools/rootfs/lib/libstdc++.so.6.0.29-gdb.py:53 | the directory of a file, with the file's name put after it, names the file again, however many slashes are between |
| Relocation.CutShared | rpi3b-tools/rootfs/lib/libstdc++.so.6.0.29-gdb.py:39-43 | cutting the character-level prefix at its last slash leaves exactly the shared leading components |
| Relocation.PrefixRepaired | rpi3b-tools/rootfs/lib/libstdc++.so.6.0.29-gdb.py:40-43 | with a usable prefix the repair yields that cut, whether or not the match ended inside a name |
| Relocation.UpAndOn | rpi3b-tools/rootfs/lib/libstdc++.so.6.0.29-gdb.py:50-53 | the dotdots climb exactly out of the stripped library directory, and the rest is followed from there |
| Relocation.RelocatesWhenUsable | rpi3b-tools/rootfs/lib/libstdc++.so.6.0.29-gdb.py:30-53 | for every file and every root R: from R followed by the stripped libdir, the hook names R followed by the stripped pythondir |
| Relocation.MovedIff | rpi3b-tools/rootfs/lib/libstdc++.so.6.0.29-gdb.py:30-53 | for each file and each root R: that holds if and only if the prefix is '/' or has a second slash, and libdir is not '/' unless R is |
| Relocation.RelocatesIff | rpi3b-tools/rootfs/lib/libstdc++.so.6.0.29-gdb.py:30-53 | that holds for all files and roots if and only if the prefix is '/' or has a second slash, and libdir is not '/' |
| Relocation.UnmovedIff | rpi3b-tools/rootfs/lib/libstdc++.so.6.0.29-gdb.py:30-53 | a library that never moved finds the configured pythondir if and only if the prefix is '/' or has a second slash |
| Relocation.UnusableFails | rpi3b-tools/rootfs/lib/libstdc++.so.6.0.29-gdb.py:42-47 | otherwise the prefix becomes '//' and the directory found is a different one, for every such pair of paths and in every root |
| Relocation.RootLibraryFails | rpi3b-tools/rootfs/lib/libstdc++.so.6.0.29-gdb.py:49-50 | a library configured for '/' gets one '..' too many and misses from every root but '/' |
| Relocation.WrongDirectory | rpi3b-tools/rootfs/lib/libstdc++.so.6.0.29-gdb.py:42-53 | a concrete pair of paths for which the unmoved hook names the wrong directory |
| Cleanup.Balanced | rpi3b-tools/rootfs/usr/include/pthread.h:590-591 | at every point of a run the handlers pushed before a program are still pushed; at its end its own are gone |
| Cleanup.Framed | rpi3b-tools/rootfs/usr/include/pthread.h:585-594 | a program runs the same way whatever was pushed before it |
| Cleanup.ExactlyOnce | rpi3b-tools/rootfs/usr/include/pthread.h:585-600 | wherever the thread ends, each pushed handler was called exactly once or popped uncalled, none twice, none unpushed |
| Cleanup.BlockCompletes | rpi3b-tools/rootfs/usr/include/pthread.h:602-617 | a completed block calls its handler iff execute is non-zero, after restoring the cancellation type in force before its push, whatever the body set; a push that is not deferred leaves the type alone |
| Cleanup.CallsNone | rpi3b-tools/rootfs/usr/include/pthread.h:585-594 | nothing runs, nothing is called |
| Cleanup.CallsAfterSet | rpi3b-tools/rootfs/usr/include/pthread.h:580-582 | a program that first sets the type calls what its rest does from that type on |
| Cleanup.CallsInBlock | rpi3b-tools/rootfs/usr/include/pthread.h:585-609 | ending in a block: the calls of the body, from the type the push leaves, then the block's handler with the type in force at the end |
| Cleanup.CallsPastBlock | rpi3b-tools/rootfs/usr/include/pthread.h:596-617 | past a block: the calls of the body, that of the handler iff execute is non-zero, then those of the rest, with the type restored iff the block is a deferred one |
| Cleanup.TypeKept | rpi3b-tools/rootfs/usr/include/pthread.h:592-609 | without deferred blocks and settings of the type, the starting type is in force throughout and in every handler call |
| Cleanup.Unwinding | rpi3b-tools/rootfs/usr/include/pthread.h:585-586 | at termination exactly the handlers still pushed are called, innermost first |
| CleanupForms.CleanupClass.Destroy | rpi3b-tools/rootfs/usr/include/pthread.h:578 | the destructor calls the handler iff do_it is set |
| CleanupForms.CleanupClass.Defer | rpi3b-tools/rootfs/usr/include/pthread.h:580-581 | the type in force is noted and deferred set |
| CleanupForms.CleanupClass.Restore | rpi3b-tools/rootfs/usr/include/pthread.h:582 | the noted type is put back |
| CleanupForms.CleanupRoutine | rpi3b-tools/rootfs/usr/include/pthread.h:624-629 | the cleanup routine calls the handler iff do_it is set |
| CleanupForms.RunClass | rpi3b-tools/rootfs/usr/include/pthread.h:568-617 | running a program with frame objects reaches the machine's state, having called its handlers if the thread ended in it |
| CleanupForms.RunAttribute | rpi3b-tools/rootfs/usr/include/pthread.h:624-671 | the same for frames with a cleanup attribute |
| CleanupForms.RegisterCancel | rpi3b-tools/rootfs/usr/include/pthread.h:695-698 | a buffer goes on the list; the _defer variant notes and changes the type |
| CleanupForms.UnregisterCancel | rpi3b-tools/rootfs/usr/include/pthread.h:705-709 | the newest buffer comes off; the _restore variant puts the type back |
| CleanupForms.Unwind | rpi3b-tools/rootfs/usr/include/pthread.h:688-693 | jumping from landing pad to landing pad calls all registered handlers, newest first |
| CleanupForms.RunSetjmp | rpi3b-tools/rootfs/usr/include/pthread.h:681-744 | the registered list is the machine's handler stack at every point a thread can end |
| CleanupForms.ClassCalls | rpi3b-tools/rootfs/usr/include/pthread.h:568-600 | the C++ form makes exactly the calls of the meaning, for every program and every point of termination |
| CleanupForms.AttributeCalls | rpi3b-tools/rootfs/usr/include/pthread.h:624-649 | so does the attribute form |
| CleanupForms.SetjmpCalls | rpi3b-tools/rootfs/usr/include/pthread.h:681-708 | so does the setjmp form |
| CleanupForms.FormsAgree | rpi3b-tools/rootfs/usr/include/pthread.h:568-708 | the three forms call the same handlers in the same order with the same types in force, namely those of the meaning |
| CleanupForms.ClassEndsInPop | rpi3b-tools/rootfs/usr/include/pthread.h:597-617 | a thread ending inside a pop of the C++ form: its handler is called unless do_it has been set to zero |
| CleanupForms.AttributeEndsInPop | rpi3b-tools/rootfs/usr/include/pthread.h:646-671 | the same for the attribute form |
| CleanupForms.SetjmpEndsInPop | rpi3b-tools/rootfs/usr/include/pthread.h:705-746 | a thread ending inside a pop of the setjmp form: its handler is called iff the buffer is still registered |
| CleanupForms.InsidePop | rpi3b-tools/rootfs/usr/include/pthread.h:597-746 | the inner points at which the forms differ: after execute was looked at if it is non-zero, and between __restore and __setdoit if the type changes |
| Argz.StrChr | rpi3b-tools/rootfs/usr/include/argz.h:139 | the first NUL from a position on |
| Argz.DecodeEncode | rpi3b-tools/rootfs/usr/include/argz.h:35-37 | the vector of any NUL-free strings decodes to them |
| Argz.EncodeDecode | rpi3b-tools/rootfs/usr/include/argz.h:35-37 | entries and their NULs tile any vector, and entries are NUL-free |
| Argz.StartsTile | rpi3b-tools/rootfs/usr/include/argz.h:131-145 | entry starts: the first at the beginning, each one past the NUL before it, the last NUL at the vector's end |
| Argz.NextFromInside | rpi3b-tools/rootfs/usr/include/argz.h:136-142 | from any pointer into an entry argz_next yields the start of the following entry, or null after the last |
| Argz.NextFromOutside | rpi3b-tools/rootfs/usr/include/argz.h:136-144 | from null argz_next yields the first entry, or null if there is none; from the end or beyond, null |
| Argz.WalkWhile | rpi3b-tools/rootfs/usr/include/argz.h:116-118 | the while loop terminates and visits every entry start once, in order |
| Argz.WalkFor | rpi3b-tools/rootfs/usr/include/argz.h:122-124 | the for loop does too, but visits offset 0 of an empty vector with a non-null pointer |
| Argz.BothWalks | rpi3b-tools/rootfs/usr/include/argz.h:112-124 | what the two loops visit, run side by side, is the same if and only if an empty vector has a null pointer; otherwise the for loop visits offset 0 and the while loop nothing |
| Argz.ReadBack | rpi3b-tools/rootfs/usr/include/argz.h:112-145 | in the vector of any list of NUL-free strings the walk stops once for each string, and at each stop, up to the NUL, is that string |
| Argz.ReadAll | rpi3b-tools/rootfs/usr/include/argz.h:112-118 | a loop that reads the string at each place visited obtains the decoded list of any vector |
| Features.Resolve | rpi3b-tools/rootfs/usr/include/features.h:125-408 | the ordered steps turn on exactly the features of the closed form and leave the stated environment |
| Features.DefaultNamed | rpi3b-tools/rootfs/usr/include/features.h:188-237 | the default set is on if and only if one of its four names is given or none of the macros that ask for something is |
| Features.IsoBegins | rpi3b-tools/rootfs/usr/include/features.h:239-278 | from macro values, where each edition of ISO C and C++ begins |
| Features.LevelsBegin | rpi3b-tools/rootfs/usr/include/features.h:280-320 | from macro values, which POSIX and X/Open levels are in force |
| Features.PosixBegins | rpi3b-tools/rootfs/usr/include/features.h:39-44 | where each edition of POSIX begins |
| Features.XopenBegins | rpi3b-tools/rootfs/usr/include/features.h:45-49 | where each X/Open level begins |
| Features.OthersBegin | rpi3b-tools/rootfs/usr/include/features.h:50-55 | the features with a macro of their own |
| Features.LeavesDefined | rpi3b-tools/rootfs/usr/include/features.h:113-115 | implied macros are defined afterwards, so that they tell which features are on; all others stay as given |
| Features.GnuIsTop | rpi3b-tools/rootfs/usr/include/features.h:199-225 | _GNU_SOURCE turns on every feature any other choice of macros does |
| Features.HigherLevelsAddFeatures | rpi3b-tools/rootfs/usr/include/features.h:293-378 | raising defined _POSIX_C_SOURCE and _XOPEN_SOURCE values removes no feature |
| Features.ThreadsOnlyAdd | rpi3b-tools/rootfs/usr/include/features.h:309-320 | _REENTRANT and _THREAD_SAFE remove no feature, never lower the POSIX level, and reach 199506 |
| Features.StandardsClosed | rpi3b-tools/rootfs/usr/include/features.h:322-378 | 2008 implies 2001 implies C99 and C95; POSIX 199506 implies 199309 implies POSIX.2 implies POSIX |
| Features.XopenClosed | rpi3b-tools/rootfs/usr/include/features.h:354-382 | the X/Open levels contain one another and large-file support |
| Features.DefaultIsPosix2008 | rpi3b-tools/rootfs/usr/include/features.h:280-291 | the default set contains POSIX.1-2008 |
| Features.ResolvedOnce | rpi3b-tools/rootfs/usr/include/features.h:125-408 | reading the header again in the environment it leaves changes neither features nor environment |
| Features.AccumulatesIff | rpi3b-tools/rootfs/usr/include/features.h:65-72 | however many macros are added or raised at once, every feature is kept if and only if the default set is asked for by name or still in force by silence, or was not in force before and the features of a made-up POSIX level are still reached |
| Features.OthersOnlyAdd | rpi3b-tools/rootfs/usr/include/features.h:65-72 | of all macros but seven, any number can be added or raised without losing a feature |
| Features.IsoAddedIff | rpi3b-tools/rootfs/usr/include/features.h:227-237 | adding ISO C macros keeps every feature if and only if the default set was not in force merely by silence |
| Features.StrictAnsiAddedIff | rpi3b-tools/rootfs/usr/include/features.h:293-307 | adding __STRICT_ANSI__ does if and only if the default set is asked for or there is a POSIX or X/Open macro beside it |
| Features.XopenAddedIff | rpi3b-tools/rootfs/usr/include/features.h:293-307 | adding _XOPEN_SOURCE does if and only if the default set is asked for, or silence is over and the value is 700 or more wherever a POSIX level was made up |
| Features.PosixCAddedIff | rpi3b-tools/rootfs/usr/include/features.h:293-307 | adding _POSIX_C_SOURCE does if and only if the default set is asked for, or silence is over and the value does not undercut a made-up level |
| Features.PosixSourceAddedIff | rpi3b-tools/rootfs/usr/include/features.h:293-307 | adding _POSIX_SOURCE does under the same test as a _POSIX_C_SOURCE of no level |
| Features.DoesNotAccumulate | rpi3b-tools/rootfs/usr/include/features.h:65-72 | a concrete environment in which adding _POSIX_C_SOURCE takes a feature away |

## Left out

- obstack_ptr_grow, obstack_int_grow and their fast forms: they are `grow` of the bytes of a pointer or an int.
- obstack_object_size, obstack_room, obstack_base, obstack_memory_used and the other one-field queries.
- C integer and pointer overflow: lengths and addresses are unbounded; so is the truncation of lengths to int.
- Allocation failure and the failure handler; `chunk_size`, which only decides how large a chunk is asked for.
- A memcpy source that overlaps the growing object: sources are values.
- Extra-argument allocation functions and `use_extra_arg`: which function allocates makes no difference to the model.
- ObstackClient.PerformAll: each request brings a block of its own, so memory that is released and handed out again within the run is covered on values only, by `ObstackTheorems.Run`; it uses the GNU family, whose agreement with the other is `ObstackFamilies.FamiliesAgree`.
- The state of an obstack after obstack_free has released every chunk or aborted: the header gives it no use.
- ObstackModel.ReplacedIff: says nothing for a set flag, because the flag is conservative and may keep a chunk without need.
- gdb's objects and the import that follows the hook; `sys.path` is a list of strings.
- Symbolic links and paths that begin with exactly two slashes: normalisation is lexical.
- Relative configured directories: `Relocation.UpdateModulePath` says when they end in the IndexError of an empty prefix and `Relocation.NormPathLeads` what normalising them does; where the hook then points is not stated.
- Signal delivery, scheduling, the unwinder and the machine state of setjmp: termination is a choice of how many instructions run, and a handler call is one event.
- A thread that ends inside a handler, and one that ends inside a pop as part of a whole program: `CleanupForms.InsidePop` says what the forms do there, one pop at a time.
- Jumps out of a block by `return`, `break` or `goto`, which the standard leaves undefined.
- The declared-only functions of argz.h (create, append, insert, delete, replace, stringify, count, extract).
- In features.h: fortify levels, the gets and scanf switches, __USE_POSIX_IMPLICITLY, 64-bit time, warnings, and lines 409 on; macros defined without a value.
- The other headers of the root filesystem, which are prototypes or constant tables, and the repository's own hello-world program.
