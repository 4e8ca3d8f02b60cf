# FlatBuffers: builders, reader, annotator

This project models parts of FlatBuffers in Dafny and proves properties of the model.
`dafny verify dfyconfig.toml` checks all of it.

## The builders

The Go builder (`go/builder.go`) fills a buffer from its end. The model has three layers.

* `Layout` is the format as a function of what has been written: every operation puts bytes in
  front of `data`, and an offset is a distance from its end. Nothing in it knows the capacity.
  `Prepends` shows that ending an object, which stores a placeholder, searches earlier vtables and
  overwrites the placeholder, amounts to one such prepend.
* `Runs` pairs a state with a log of what the caller asked for: every word by the offset it was
  written at, every ended table with its slots, every vector and string. A step is the builder's
  own operation, restricted to well-bracketed calls. `Invariants` says how log and bytes belong
  together, `Preservation`, `PreserveObjects`, `PreserveVectors` and `Reachable` that every step
  keeps this, `Stability` and `Reachable` that nothing behind a returned offset ever changes.
  `Sharing` says what it means that two objects share a vtable.
* `GoBuilder` is the class itself: a byte array with `len` and `head`, growth by doubling and
  moving, and the loops of the source. Each method is proved against the operation of `Layout`
  with its name. `GoRun` executes whole runs on it, on a new builder or after `Reset`.

`GoTable` is the reader (`go/table.go`, `go/lib.go`), with positions that wrap at 32 bits and
getters for signed and unsigned types. `RoundTrip`, `WholeRuns` and `ObjectGraph` prove what a
caller relies on: whatever was written is what is read, slot by slot and along whole object graphs,
negative numbers included, and every word is aligned. `Theorems` has the main results, each about
one whole run and a call in it. `Floats` says what number a bit pattern of a float stands for, so that
a slot's value and its default are compared as numbers in all that is proved of slots.

The PHP builder (`php/FlatbufferBuilder.php`, `php/ByteBuffer.php`) writes the same format another
way: it writes the vtable first, compares bytes in the buffer, and rolls back on a match. It also
compares object sizes, which Go does not, and checks what it writes. `PhpLayout`, `PhpBuffer` and
`PhpBuilder` model it; `PhpObjects` and `PhpRuns` prove exactly when the two agree. The intended
equality of the two outputs is false in general:

* two objects with the same field offsets and different sizes share a vtable in Go and not in PHP.
  This is an ordinary case: two tables of one int field each, built one after the other, differ
  (`PhpRuns.ObjectsCollide`), because the second is padded by two bytes behind the first one's vtable;
* PHP has no integers from 2^63 on, only doubles, and compares an integer with a double as doubles
  (`PhpNumbers`). So it throws for an unsigned 64-bit value that is a double above 2^63
  (`PhpRuns.BigNumberIsRefused`), and leaves a slot out whose value is within 512 of a default of
  2^63 or, for a signed field, of -2^63 (`PhpRuns.NearDefaultIsSkipped`);
* PHP throws for a string that is not UTF-8 (`PhpRuns.RawBytesAreRefused`), for an object declared
  with no field, for one of 32768 bytes or more, and for a vector announced with 2^32 elements or more.

`PhpRuns.BuildersAgree` shows that on the runs of the model there are no other cases.
`PhpExecution` runs both classes side by side. `PhpForced` has the runs after `forceDefaults(true)`,
where each slot call is in Go a prepend and a Slot. `Utf8` says which byte strings the check for UTF-8
accepts: the encodings of sequences of code points, none of them a surrogate.

Several well-bracketed conditions are those of the callers in the source: alignments and sizes are
powers of two, a scalar is a value of its type, an object has fewer than 65536 bytes and fewer than
32766 fields because of 16-bit casts, the root of Finish is an ended table, and calls are bracketed.

## The binary annotator

`Annotator` is the walk of `src/binary_annotator.cpp` over an arbitrary byte string under a schema:
mutually recursive methods over the maps of sections and vtables. Its `decreases` clauses are the
termination argument, and its contracts the bounds; they also say that every region is truthful,
that is, as wide as its type and pointing where its bytes lead. Each method is proved equal to the
function of `Walks` with its name, on which the results below are proved. `TableRegions` says which
regions a table gets, and has after both passes. `Gaps` holds these passes, which fill gaps, with what
they promise on any input and on well-formed input; `Annotated` the data; `Sorting` the library's stable sort.

That the walk follows everything, and nothing else, is stated by schema and words alone. The walk keeps
a ghost list of the places it comes to, each with the sections there were before. `Links` defines what a
field of a table or an element of a vector leads to, a table, string, vector, or the value of the enum
that a union's type byte names, and the law of one place: unless an earlier section contains it, the
finished annotation shows it in a section of its own, and every place that it leads to inside the binary
comes later in the list. `Closure` proves the law of every place, first of all of the root table, and
that every section is that of a place or of its vtable; `Sources` proves that every place but the root
is a link of an earlier one.

Two things that the source takes for granted are false.

* That the entry for the types of a vector of unions has a schema field. A vtable is cached with
  the fields that are within reach of the first table that uses it; for another field the loop over
  unknown entries may add an entry without one, and a second table of the type, from which that field
  is within reach, is then annotated with that entry. `src/binary_annotator.cpp:1329` dereferences its
  null field. `NullWitness.NullFieldIsRead` has such a binary, of 68 bytes. The walk of `Walks` goes
  on there, so that the vectors of unions it comes to do not depend on whether it happens;
  `Annotate` gives no sections exactly when one of them is dangerous, which is a condition on the
  schema, the words of the two tables and the vector's own. Which tables share a vtable, and which of
  them it is made for, is up to the order of the walk; `NullFields.SteadyNeverFails` has a condition
  that needs no walk.
* That sections are contiguous, as the source's own comment announces: the second pass leaves gaps of
  one byte, because its cursor is one past the end of a section and compared strictly
  (`Gaps.SingleByteGapStays`).

## Generators

`NameSpaces` and `EnumTables` model two generators of `src/idl_gen_cpp.cpp` together with the
meaning of the code they write. `ProtoIds` models the renumbering of fields in
`src/idl_gen_fbs.cpp`; the library's sort is not stable, so the results are proved for any sort.

## Model

| member | source | states |
|---|---|---|
| Theorems.EverySlotReadsBack | go/builder.go:119-205 | For every run and every object ended in it, each slot reads at the end of the run as the last non-default value written to it, or as absent, whether the vtable is new, trimmed or shared; read with the getter of the type it was written as, a value is itself, negative ones included |
| Theorems.EveryScalarReadsBack | go/builder.go:442-563 | For every run and the last scalar call for a slot in an object: the slot is present and reads as the value, bit for bit, if the value and the default do not stand for the same number, which NaN never does; else the slot is what it was before the call, and absent if nothing had been written |
| Theorems.RootReadsBack | go/builder.go:635-657 | The same from the first byte of the finished buffer, through GetRootAs or GetSizePrefixedRootAs |
| Theorems.GraphReadsBack | go/table.go:23-72 | For every run ending in Finish, decoding the root along any shape of tables, vectors, strings and signed or unsigned numbers gives the graph that was built |
| Theorems.EveryListReadsBack | go/table.go:58-72 | For every run and every CreateVectorOfTables in it, VectorLen, Vector and Indirect give exactly its tables in order |
| Theorems.EveryStringReadsBack | go/builder.go:358-402 | For every run, ByteVector gives exactly the bytes of every string and byte vector created in it |
| Theorems.EveryStringIsTerminated | go/builder.go:362-369 | For every run, every string stands in the buffer with a zero byte behind it |
| Theorems.EverySharedStringReadsBack | go/builder.go:345-355 | For every run and every CreateSharedString in it, new string or not: any offset word that leads to the offset it returned reads as the string through ByteVector, and the string stands there with a zero byte behind it |
| Theorems.EqualStringsAreOne | go/builder.go:347-350 | Two calls of CreateSharedString with equal strings in one run return equal offsets, and the second leaves the builder unchanged |
| Theorems.EverySharedStringStays | go/builder.go:345-355 | For every run, an interned string keeps its offset, and the offset keeps decoding to it |
| Theorems.EveryWordIsAligned | go/builder.go:641-657 | For every finished run, every scalar, offset, length and vtable word is at an index divisible by its width |
| Theorems.EveryByteStays | go/builder.go:244-253 | For every run, what was written before any call are the last bytes of the buffer at the end, and recorded tables stay |
| Theorems.TraceOfRun | go/builder.go:80-402 | Every well-bracketed run has the states that these results speak of |
| WholeRuns.TableRoundTrip | go/table.go:14-20 | An object that ends in a reachable state reads back slot by slot, each by the getter of its type, however the run goes on |
| WholeRuns.OpenFieldsAreLastWrites | go/builder.go:442-590 | What the run records for the open object is the last write of each slot since StartObject whose value is not the default, with floats compared by the numbers that their patterns stand for |
| WholeRuns.ListRoundTrip | go/builder.go:325-332 | VectorLen, Vector and Indirect give back exactly the offsets passed to CreateVectorOfTables, in order, at any later point of the run |
| WholeRuns.BytesRoundTrip | go/table.go:35-55 | ByteVector through any later offset gives back exactly the bytes of a created string or byte vector |
| WholeRuns.StringsAreTerminated | go/builder.go:358-371 | A created string stands in the buffer with a zero byte behind it, whatever is built later |
| WholeRuns.SharedStringsAreStable | go/builder.go:345-355 | An interned string keeps its offset for the rest of the run, and that offset keeps decoding to the string |
| WholeRuns.SharedRoundTrip | go/builder.go:345-355 | From any good state on, what CreateSharedString returns, for a new or an earlier string, keeps decoding to the string with a zero byte behind it |
| WholeRuns.SharedAgain | go/builder.go:347-350 | A string that has been interned gets the same offset again, and no byte is written |
| WholeRuns.FinishLayout | go/builder.go:594-657 | All four Finish variants put size prefix, root offset and file identifier without padding in front of data padded to the alignment; the length is a multiple of the alignment |
| WholeRuns.FinishedReads | go/lib.go:10-41 | GetRootAs, GetSizePrefixedRootAs, GetSizePrefix and both identifier readers give root position, length less four, and identifier |
| WholeRuns.FinishedIsAligned | go/builder.go:260-277 | In a finished buffer every scalar, offset, length and vtable word of the run is at an index divisible by its width |
| WholeRuns.SharingPreservesMeaning | go/builder.go:138-154 | In every reachable state the comparison accepts a vtable exactly when its entries are those of the open object, stored entries are below the object's offset, and registered vtables with equal entries are one |
| ObjectGraph.RootRoundTrip | go/builder.go:635-657 | Decoding the root of a finished buffer along any shape of tables, vectors, strings and signed or unsigned numbers gives the graph that was built |
| ObjectGraph.DecodeIsDenote | go/table.go:23-72 | To any depth, what the reader decodes at a word is what the run recorded for it, numbers by their type |
| Reachable.HandlesAreStable | go/builder.go:182-201 | From any reachable state on, the bytes, tables, vectors and strings behind every returned offset stay what they were |
| Reachable.ReachableIsGood | go/builder.go:119-402 | Every state of every well-bracketed run has the invariant: recorded words are in place and aligned, registered vtables well-formed and pairwise different |
| Reachable.StepKeepsGood | go/builder.go:80-402 | Each single operation keeps that invariant |
| Reachable.StepIsLater | go/builder.go:182-201 | No operation changes what an earlier offset stands for |
| Stability.ApplyExtends | go/builder.go:260-402 | Every operation only puts bytes in front of what is there, and alignment only grows |
| GoRun.Execute | go/builder.go:217-277 | From any initial size and over any stale contents the class writes exactly the bytes of the run, never panics for misuse in a well-bracketed run, and for growth only near one gigabyte |
| GoRun.ResetAndExecute | go/builder.go:46-69 | After Reset a run writes what it writes on a new builder |
| GoRun.ApplyMoved | go/builder.go:46-69 | The field that Reset leaves behind influences no operation outside an object |
| GoRun.BracketedIsCallable | go/builder.go:249-322 | In a reachable state every well-bracketed call has the free space it relies on, whatever the capacity |
| PhpExecution.ExecuteBoth | php/FlatbufferBuilder.php:813-878 | On a safe run the Go class and the PHP class end with identical bytes, or one of them fails for growth, with its data and one call's need past one gigabyte |
| PhpExecution.PhpExecute | php/FlatbufferBuilder.php:139-180 | On a safe run the PHP class writes Go's bytes from any initial size and throws only for growth, with its data and one call's need past one gigabyte |
| PhpRuns.BuildersAgree | php/FlatbufferBuilder.php:813-878 | The two builders are in the same state after every call exactly when every unsigned 64-bit number is below 2^63 (in a slot: or is the default), no value of a slot is another number that PHP takes for the default, every string is UTF-8, every ended object has a field, is below 32768 bytes with a vtable below 32768 bytes, and has the size of every earlier object with its field offsets, and every vector has fewer than 2^32 elements |
| PhpRuns.StepAgrees | php/FlatbufferBuilder.php:408-926 | For each call, agreement before gives agreement after exactly when the call is safe |
| PhpRuns.SafeScalarMeans | php/FlatbufferBuilder.php:499-518 | For scalars the condition in plain numbers: only those of eight bytes can be unsafe, from 2^63 on or within 512 of 2^63 or -2^63 beside such a default |
| PhpRuns.FinishedBytesAgree | php/FlatbufferBuilder.php:964-974 | A run whose calls are all safe gives identical bytes in Go and PHP |
| PhpRuns.ObjectsCollide | php/FlatbufferBuilder.php:838-853 | Two tables of one int field each, built one after the other, on which the builders differ: the second has two bytes of padding in its size |
| PhpRuns.BigNumberIsRefused | php/FlatbufferBuilder.php:257-264 | A concrete run with the value 2^64 - 2048 in a ulong field, which Go writes and PHP refuses |
| PhpRuns.NearDefaultIsSkipped | php/FlatbufferBuilder.php:512-518 | A concrete run with the value 2^63 - 1 in a ulong field whose default is 2^63, which Go writes and PHP leaves out |
| PhpLayout.AcceptedMeans | php/ByteBuffer.php:216-288 | Of the values of their types, the range checks refuse exactly the unsigned ones above 2^63 + 1024, the first that round to a double above 2^63; those from 2^63 to there pass them as doubles |
| PhpLayout.IsDefaultMeans | php/FlatbufferBuilder.php:408-545 | PHP takes an integer for a default that is another number exactly if both round to 2^63, or both round to -2^63, which as a literal is a double |
| PhpRuns.RawBytesAreRefused | php/FlatbufferBuilder.php:717-720 | A concrete run with the byte 0xff as a string, which Go writes and PHP refuses |
| PhpRuns.StringsAgree | php/FlatbufferBuilder.php:715-729 | Terminator before padding in PHP and padding before terminator in Go give the same bytes |
| Utf8.IsUtf8Means | php/FlatbufferBuilder.php:601-720 | The check accepts a byte string exactly if it is the encoding, by section 3 of RFC 3629, of some sequence of code points without surrogates |
| PhpForced.ForcedScalarIsWritten | php/FlatbufferBuilder.php:408-545 | With forced defaults, an accepted value is written in front of the data and the slot set to it, whatever its default |
| PhpForced.ForcedOffsetIsWritten | php/FlatbufferBuilder.php:553-559 | The same for an offset |
| PhpForced.ForcedRunIs | php/FlatbufferBuilder.php:934-937 | A run with forced defaults is the run in which each slot call has a default that its value does not equal |
| PhpForced.DistinctWrites | go/builder.go:442-572 | Such a call prepends the value and sets its slot, in Go |
| PhpForced.ForcedSafeMeans | php/FlatbufferBuilder.php:512-518 | With forced defaults the only scalars that are not safe are unsigned numbers of eight bytes from 2^63 on |
| PhpForced.ForcedBytesAgree | php/FlatbufferBuilder.php:964-974 | A safe run with forced defaults writes the bytes that Go writes when it prepends each value and sets its slot |
| PhpForced.ForcedSlotReadsBack | php/FlatbufferBuilder.php:475-542 | In a safe run with forced defaults each slot that a scalar was put into is present in the finished table and reads as the scalar, also if that is the default |
| PhpForced.ForcedOffsetReadsBack | php/FlatbufferBuilder.php:553-559 | The same for an offset |
| PhpObjects.EndingsAgree | go/builder.go:119-205 | PHP's write-compare-rollback and Go's compare-then-write end an object alike exactly when its sizes are signed 16-bit and no registered vtable has its entries with another object size |
| PhpObjects.SameMeans | php/FlatbufferBuilder.php:842-852 | The short-by-short comparison is equality of the whole vtables, object size included |
| PhpObjects.PhpEnds | php/FlatbufferBuilder.php:819-873 | endObject throws for words beyond 16 bits, else rolls back to the identical earlier vtable or keeps and registers the new one |
| PhpObjects.GoEnds | go/builder.go:156-201 | EndObject as a single prepend of vtable, offset and padding |
| PhpObjects.SearchMeans | php/FlatbufferBuilder.php:838-853 | The forward search returns a registered vtable with the same bytes, or there is none |
| Bits.AlignSizeAligns | go/builder.go:265-268 | The masked complement is less than the size and exactly what reaches the next multiple |
| Prepends.PrepAligns | go/builder.go:260-277 | Prep makes offset plus reserved bytes a multiple of the size with fewer than size zero bytes |
| Prepends.EndObjectPrepends | go/builder.go:119-205 | Placeholder, vtable and patch amount to one prepend; a shared vtable leaves no trace of the search |
| Sharing.VtableEqualMeans | go/builder.go:660-679 | Given stored entries below the object's offset, the comparison is equality of entry lists |
| Sharing.SharedVtableMeans | go/builder.go:138-154 | The search finds the one registered vtable with the object's entries, or there is none |
| Sharing.FindMeans | go/builder.go:138-154 | The backward search returns a vtable that the comparison accepts, or none is accepted |
| Sharing.TrimIsPrefix | go/builder.go:127-131 | Trimming removes a tail of absent slots and nothing else |
| PreserveObjects.EndObjectKeepsGood | go/builder.go:208-213 | Ending an object keeps the invariant and adds the table with its slots to it |
| PreserveObjects.EndObjectVtables | go/builder.go:156-190 | Registered entry lists stay pairwise different |
| PreserveVectors.UOffsetsWords | go/builder.go:325-332 | The loop of CreateVectorOfTables writes one aligned offset per element without padding |
| PreserveVectors.StringShape | go/builder.go:358-387 | Length, bytes, terminator and padding of a string, aligned |
| Growth.TopBits | go/builder.go:217-220 | The growth test fires exactly from one gigabyte on |
| Growth.WriteVtableRegisters | go/builder.go:119-205 | Every registered vtable lies whole within the data, so the search never leaves it |
| Codec.LoadAfterStore | go/encode.go:148-213 | A stored word reads back modulo its width |
| Codec.LoadAfterStoreSigned | go/encode.go:182-213 | A signed value that fits reads back unchanged |
| Codec.UnrolledLoads | go/encode.go:38-53 | The unrolled loads are the little-endian value |
| Codec.WriteWord | go/encode.go:148-238 | The store changes exactly the bytes of the word |
| Floats.SameIsEqual | go/builder.go:547-563 | Comparing the patterns of two floats, with all NaN different and the two zeros alike, is comparing the numbers they stand for by sign, exponent and fraction |
| Floats.SameSlot | go/builder.go:442-563 | A call for a scalar slot leaves the builder as it was exactly if value and default stand for the same number |
| Floats.MagnitudeIsOneToOne | go/encode.go:215-223 | Different exponents and fractions stand for different magnitudes |
| RoundTrip.OffsetReads | go/table.go:14-20 | Table.Offset finds for every slot number the distance to the field that was put there, zero if none was |
| RoundTrip.SlotsRead | go/table.go:160-310 | Get*Slot, signed and unsigned, gives the recorded value of any slot, or the default |
| RoundTrip.RefLoads | go/table.go:23-25 | Following an offset word leads to its target |
| RoundTrip.BlobReads | go/table.go:35-55 | ByteVector gives the recorded bytes |
| RoundTrip.VectorReads | go/table.go:58-72 | VectorLen and Vector give the recorded length and the start of the elements |
| GoBuilder.Builder.NewBuilder | go/builder.go:31-42 | Nothing written, whatever the initial size |
| GoBuilder.Builder.Reset | go/builder.go:46-69 | Nothing written, whatever bytes the slice still holds |
| GoBuilder.Builder.FinishedBytes | go/builder.go:74-77 | Exactly what has been written, if finished |
| GoBuilder.Builder.Reslice | go/builder.go:226-231 | The old bytes stay in front, for any capacity that append picks |
| GoBuilder.Builder.GrowByteBuffer | go/builder.go:217-235 | Fails exactly from one gigabyte on; else doubles the slice with the old bytes at its far end |
| GoBuilder.Builder.GrowOnce | go/builder.go:270-274 | One turn of the growth loop leaves what was written and lengthens the slice, or fails from one gigabyte on |
| GoBuilder.Builder.Reallocate | go/builder.go:270-275 | The growth loop ends, leaves what was written and frees more than asked |
| GoBuilder.Builder.Prep | go/builder.go:260-277 | Refines the aligned prepend and leaves more than size plus reserved bytes free |
| GoBuilder.Builder.Pad | go/builder.go:249-253 | Prepends zeros and nothing else |
| GoBuilder.Builder.PlaceScalar | go/builder.go:773-860 | Prepends the little-endian word |
| GoBuilder.Builder.PlaceBytes | go/builder.go:367-369 | Prepends the bytes |
| GoBuilder.Builder.PrependScalar | go/builder.go:683-770 | Refines the aligned prepend of a word |
| GoBuilder.Builder.PrependUOffset | go/builder.go:290-297 | Refines the aligned prepend of a relative offset; panics exactly for offsets beyond the data |
| GoBuilder.Builder.StartObject | go/builder.go:80-97 | Opens an object with absent slots; panics exactly when nested |
| GoBuilder.Builder.Slot | go/builder.go:588-590 | Sets one slot to the current offset; panics exactly out of range |
| GoBuilder.Builder.PrependScalarSlot | go/builder.go:442-563 | Writes and records a value that is not the default; writes nothing exactly if the two stand for the same number |
| GoBuilder.Builder.PrependUOffsetSlot | go/builder.go:567-572 | The same for an offset |
| GoBuilder.Builder.PrependStructSlot | go/builder.go:577-585 | Records a struct that has just been written; panics exactly otherwise |
| GoBuilder.Builder.VtableEqual | go/builder.go:660-679 | The loop decides the specified comparison |
| GoBuilder.Builder.FieldsOf | go/builder.go:139-147 | The slice of a registered vtable that holds its entries, in range |
| GoBuilder.Builder.FindVtable | go/builder.go:138-154 | The backward search finds the specified vtable |
| GoBuilder.Builder.TrimVtable | go/builder.go:127-131 | The loop trims as specified and changes nothing else |
| GoBuilder.Builder.PrependEntries | go/builder.go:161-170 | The loop writes the entries in order |
| GoBuilder.Builder.BeginVtable | go/builder.go:120-123 | Pads and writes the placeholder |
| GoBuilder.Builder.AppendVtable | go/builder.go:161-179 | Entries, object size and vtable size in front of the object |
| GoBuilder.Builder.PatchObject | go/builder.go:181-186 | Overwrites the placeholder and no other byte |
| GoBuilder.Builder.FinishWithNewVtable | go/builder.go:156-190 | Writes, links and registers a new vtable |
| GoBuilder.Builder.FinishWithSharedVtable | go/builder.go:191-201 | Links the earlier vtable and registers nothing |
| GoBuilder.Builder.WriteVtable | go/builder.go:119-205 | Refines the specified end of an object and returns its offset |
| GoBuilder.Builder.EndObject | go/builder.go:208-213 | Closes the object; panics exactly when none is open |
| GoBuilder.Builder.StartVector | go/builder.go:305-311 | Aligns and reserves elements and length word, so that EndVector needs no check |
| GoBuilder.Builder.EndVector | go/builder.go:314-322 | Writes the length in the reserved space; panics exactly when not nested |
| GoBuilder.Builder.CreateVectorOfTables | go/builder.go:325-332 | Refines the whole vector; the reserved space suffices for the offsets |
| GoBuilder.Builder.CreateString | go/builder.go:358-387 | Refines the whole string |
| GoBuilder.Builder.CreateByteVector | go/builder.go:390-402 | Refines the whole vector |
| GoBuilder.Builder.CreateSharedString | go/builder.go:345-355 | The offset of the earlier equal string, or that of a new one, which is remembered; what it leads to is said by Theorems.EverySharedStringReadsBack |
| GoBuilder.Builder.FinishPlain | go/builder.go:641-657 | Refines Finish and FinishSizePrefixed without running out of space for the prefix |
| GoBuilder.Builder.FinishWithFileIdentifier | go/builder.go:594-632 | Refines both variants with an identifier; panics exactly for a wrong length |
| PhpBuffer.ByteOfWord | php/ByteBuffer.php:120-131 | The byte shifted out is the byte of the encoding |
| PhpBuffer.WriteLittleEndian | php/ByteBuffer.php:120-131 | The loop stores the encoding and changes no other byte |
| PhpBuffer.ReadLittleEndian | php/ByteBuffer.php:140-156 | The loop gives the unsigned value; throws exactly out of range |
| PhpBuffer.GetShort | php/ByteBuffer.php:371-380 | The top bit of the last byte gives the signed value |
| PhpBuffer.GetInt | php/ByteBuffer.php:395-409 | The same for four bytes, on a 64-bit platform |
| PhpBuffer.PutShort | php/ByteBuffer.php:216-222 | Stores a signed 16-bit value; throws exactly for any other value or out of range, and then stores nothing |
| PhpBuffer.PutInt | php/ByteBuffer.php:240-248 | The same for 32 bits |
| PhpBuffer.PutUint | php/ByteBuffer.php:254-262 | The same for unsigned 32 bits |
| PhpBuilder.FlatbufferBuilder.constructor | php/FlatbufferBuilder.php:89-96 | Nothing written, whatever the initial size |
| PhpBuilder.FlatbufferBuilder.SizedByteArray | php/FlatbufferBuilder.php:964-974 | The loop copies exactly what has been written |
| PhpBuilder.FlatbufferBuilder.GrowByteBuffer | php/FlatbufferBuilder.php:160-180 | Fails exactly from one gigabyte on; else twice the length with the old bytes at the far end |
| PhpBuilder.FlatbufferBuilder.Reserve | php/FlatbufferBuilder.php:145-150 | The growth loop ends and leaves what was written |
| PhpBuilder.FlatbufferBuilder.Prep | php/FlatbufferBuilder.php:139-153 | Refines the aligned prepend and leaves size plus reserved bytes free |
| PhpBuilder.FlatbufferBuilder.Pad | php/FlatbufferBuilder.php:125-130 | Prepends zeros and nothing else |
| PhpBuilder.FlatbufferBuilder.AddScalar | php/FlatbufferBuilder.php:296-400 | Refines the aligned prepend of a word; throws exactly for a number that its put method refuses: one outside its type, or an unsigned 64-bit one that is a double above 2^63 |
| PhpBuilder.FlatbufferBuilder.AddShort | php/FlatbufferBuilder.php:326-330 | Refuses exactly what is not signed 16-bit, after the alignment |
| PhpBuilder.FlatbufferBuilder.PutShort | php/FlatbufferBuilder.php:209-212 | Stores the value in the two bytes in front of the data, or throws exactly for what is not signed 16-bit |
| PhpBuilder.FlatbufferBuilder.AddOffset | php/FlatbufferBuilder.php:568-575 | Refines the relative offset; throws exactly beyond the data or 32 bits |
| PhpBuilder.FlatbufferBuilder.StartObject | php/FlatbufferBuilder.php:757-771 | Opens an object with absent slots; throws exactly when nested |
| PhpBuilder.FlatbufferBuilder.Slot | php/FlatbufferBuilder.php:804-807 | Sets a slot in use; one past them only makes the array non-empty |
| PhpBuilder.FlatbufferBuilder.AddScalarX | php/FlatbufferBuilder.php:408-545 | Writes and records a value that PHP does not take for the default, or any value if defaults are forced; throws exactly where the add does. What forcing comes to is said by PhpForced.ForcedSlotReadsBack |
| PhpBuilder.FlatbufferBuilder.ForceDefaults | php/FlatbufferBuilder.php:934-937 | From then on defaults are written as well |
| PhpBuilder.FlatbufferBuilder.AddOffsetX | php/FlatbufferBuilder.php:553-559 | The same for an offset |
| PhpBuilder.FlatbufferBuilder.AddStructX | php/FlatbufferBuilder.php:779-785 | Records a struct that has just been written |
| PhpBuilder.FlatbufferBuilder.TrimmedSize | php/FlatbufferBuilder.php:822-825 | The loop trims as specified |
| PhpBuilder.FlatbufferBuilder.AddEntries | php/FlatbufferBuilder.php:826-829 | The loop adds the entries in order, or throws for one beyond 16 bits |
| PhpBuilder.FlatbufferBuilder.AddVtable | php/FlatbufferBuilder.php:826-833 | Entries, object size and vtable size |
| PhpBuilder.FlatbufferBuilder.EqualVtables | php/FlatbufferBuilder.php:842-852 | The inner loop decides byte equality through signed shorts |
| PhpBuilder.FlatbufferBuilder.FindExisting | php/FlatbufferBuilder.php:838-853 | The outer loop finds the first equal vtable |
| PhpBuilder.FlatbufferBuilder.RollBack | php/FlatbufferBuilder.php:855-859 | Drops the new vtable and links the earlier one |
| PhpBuilder.FlatbufferBuilder.RegisterVtable | php/FlatbufferBuilder.php:863-871 | Appends to the registered vtables through the doubling array |
| PhpBuilder.FlatbufferBuilder.Keep | php/FlatbufferBuilder.php:860-873 | Registers and links the new vtable |
| PhpBuilder.FlatbufferBuilder.EndObject | php/FlatbufferBuilder.php:813-878 | Refines the specified end of an object and returns its offset |
| PhpBuilder.FlatbufferBuilder.StartVector | php/FlatbufferBuilder.php:584-590 | Aligns and reserves elements and length word |
| PhpBuilder.FlatbufferBuilder.EndVector | php/FlatbufferBuilder.php:595-599 | Writes the announced length |
| PhpBuilder.FlatbufferBuilder.CreateString | php/FlatbufferBuilder.php:715-729 | Refines the whole string; throws exactly for bytes that are not UTF-8, or when nested |
| PhpBuilder.FlatbufferBuilder.Finish | php/FlatbufferBuilder.php:906-926 | Refines both forms; throws exactly for an identifier of a wrong length |
| PhpBuilder.FlatbufferBuilder.AddBytes | php/FlatbufferBuilder.php:920-923 | The identifier's bytes in order |
| Annotator.BinaryAnnotator.Annotate | src/binary_annotator.cpp:126-161 | For every binary and schema the walk ends. It gives no sections exactly when one of the vectors of unions it comes to is dangerous, that is, the source reads a null field there; else every byte of every region is in the binary, every region is as wide as its type says, every offset region points where its bytes lead, every section begins where it is filed, the header is the one the words give, header, strings, structs of unions and sections that were missing have no gaps or overlaps, and no two neighbouring bytes are uncovered |
| Walks.WalkAll | src/binary_annotator.cpp:126-161 | The walk, no step of which depends on whether a null field is read: every vtable it remembers is the one at its place, as it is made for the first table that uses it, and every vector of unions it comes to is one of the schema, at a table that leads to the same whole vtable as that first table |
| Walks.VisitTells | src/binary_annotator.cpp:1249-1347 | At a vector of unions the source reads a null field exactly if the visit is dangerous by the schema, the words of the two tables that share the vtable, and the vector's own |
| Walks.DangerMeans | src/binary_annotator.cpp:1265-1331 | A vector of unions is dangerous exactly when the source reads the type of the first element and the entry for the types has no field |
| Walks.ReadsNullMeans | src/binary_annotator.cpp:1276-1331 | Among the elements of such a vector the field is read exactly when the first one leads into the binary and some type is inside it |
| Walks.NullMeans | src/binary_annotator.cpp:363-482 | An entry has no field exactly when the field is out of reach of the table the vtable was made for, and the entry is among those added from the number of processed fields on |
| Walks.EntryMeans | src/binary_annotator.cpp:363-482 | Which entries a vtable gets, and with which field and offset, for every id at once |
| Walks.HeaderMeans | src/binary_annotator.cpp:163-239 | A size prefix is the first eight bytes if, as a number, they are not more than the binary, else the first four on the same condition; behind it are the offset to the root, and the identifier if the four bytes are printable |
| Annotated.ScalarRegionType | src/binary_annotator.h:206-237 | The region of a scalar is of its own kind: float, signed or unsigned, but for byte and int, which are shown unsigned |
| NullFields.SteadyNeverFails | src/binary_annotator.cpp:405-417 | No vector of unions that the walk comes to is dangerous if of any two places that lead to one vtable, whenever the types of the one are inside the binary, those of the other are within reach |
| NullFields.NoVectorsOfUnions | src/binary_annotator.cpp:1251-1347 | Nor is one under a schema without vectors of unions |
| NullWitness.NullFieldIsRead | src/binary_annotator.cpp:1326-1331 | A concrete binary of 68 bytes, with a schema of a union of one table type, on which the walk comes to a dangerous vector of unions |
| Closure.EveryLinkIsFollowed | src/binary_annotator.cpp:506-1444 | The walk comes first to the root table. Each place it comes to is inside a section that was there before, or has a section of its own in the finished annotation that shows it (a table with the fields of the schema's type, a string, a vector with all its scalars, a struct in a union); then every field or element of it that leads inside the binary, to a table, string, vector, or value of the enum that the type byte names, is followed later |
| Closure.EverySectionIsFiledFor | src/binary_annotator.cpp:850-867 | Every section of the walk but the header is that of a place it came to and that no section contained, or of such a table's vtable |
| Sources.EveryArrivalIsLinked | src/binary_annotator.cpp:506-1444 | Every place but the root is what the fields or elements of an earlier place lead to |
| Closure.RootWent | src/binary_annotator.cpp:139-150 | The walk from the header on comes first to the root table, files only for places it comes to, and obeys the law of each |
| Closure.TableWent | src/binary_annotator.cpp:506-868 | The same of one table with all that its fields lead to |
| Closure.VectorWent | src/binary_annotator.cpp:1053-1406 | The same of one vector with all that its elements lead to |
| Closure.UnionWent | src/binary_annotator.cpp:1408-1444 | The same of one union: the table or struct that the enum's value number realizedType names is come to |
| Closure.StringWent | src/binary_annotator.cpp:988-1051 | The same of one string: length, characters and terminator have their regions |
| Closure.BuildStructFirst | src/binary_annotator.cpp:870-986 | A struct begins with a region of the width and type of its first scalar, through structs and arrays within it |
| Closure.ScalarsAreShown | src/binary_annotator.cpp:1349-1399 | A vector of n scalars inside the binary has a region of the element's type at each start + i * size |
| Annotator.BinaryAnnotator.BuildHeader | src/binary_annotator.cpp:163-239 | Prefix, root offset and identifier tile the front; the root location is the one the words give |
| Annotator.BinaryAnnotator.GetOrBuildVTable | src/binary_annotator.cpp:241-504 | The specified vtable and walk; the vtable has the sizes and offsets that stand in the binary, is for the table type asked for, is remembered with its section, and one that was made before changes no section |
| Annotator.BinaryAnnotator.BuildVTable | src/binary_annotator.cpp:259-330 | A vtable that is not whole gives none and a section of its own; a whole one is remembered and, the first at its place, filed |
| Annotator.BinaryAnnotator.BuildKnownEntries | src/binary_annotator.cpp:363-444 | The loop gives the specified regions, in bounds, and the specified entries |
| Annotator.BinaryAnnotator.BuildUnknownEntries | src/binary_annotator.cpp:448-482 | The loop gives the specified regions, in bounds, and the specified entries; those of known fields are not replaced |
| Annotator.BinaryAnnotator.BuildTable | src/binary_annotator.cpp:506-868 | The specified walk; terminates, since whatever is built next lies behind it; keeps all earlier sections and the bounds; a new table with a vtable has a section afterwards |
| TableRegions.TableIsShown | src/binary_annotator.cpp:506-868 | A new table with a vtable has a section afterwards; unless a later table's vtable was filed at its place meanwhile, it is of the type asked for, begins with the offset to the vtable, and has a region at every field that is present, inside the binary and of a type that is annotated |
| TableRegions.FieldsAreShown | src/binary_annotator.cpp:593-847 | The same of the loop over the entries, from any entry on |
| TableRegions.TableStaysShown | src/binary_annotator.cpp:1446-1527 | Both passes lose nothing of a table's section: its type, its first word and a region at every field that is shown are there afterwards |
| TableRegions.RootIsShown | src/binary_annotator.cpp:126-161 | In the finished annotation the root table, if it is new and has a vtable, is shown with all its fields |
| Annotator.BinaryAnnotator.FileTable | src/binary_annotator.cpp:850-867 | The section that is filed for a table, if there is none at its place |
| Annotator.BinaryAnnotator.UnknownField | src/binary_annotator.cpp:613-661 | The specified region, in bounds even when the length wraps around |
| Annotator.BinaryAnnotator.OffsetField | src/binary_annotator.cpp:708-847 | The specified walk; calls go to strictly larger offsets; in-bounds regions |
| Annotator.BinaryAnnotator.UnionField | src/binary_annotator.cpp:800-843 | The specified walk; in-bounds regions, also when the type's position is outside the binary |
| Annotator.BinaryAnnotator.PadTable | src/binary_annotator.cpp:850-864 | Padding reaches exactly to the end of the table, and only behind the last region |
| Annotator.BinaryAnnotator.EntriesByOffset | src/binary_annotator.cpp:580-591 | All entries and no others, sorted by offset, those with the same offset in the order of their ids |
| Annotator.BinaryAnnotator.BuildStruct | src/binary_annotator.cpp:870-986 | The regions tile from the start to the returned offset, inside the binary, and the walk advances |
| Annotator.BinaryAnnotator.BuildArray | src/binary_annotator.cpp:917-970 | The same for an array |
| Annotator.BinaryAnnotator.BuildString | src/binary_annotator.cpp:988-1051 | A string's section tiles from its offset; afterwards the offset is covered |
| Annotator.BinaryAnnotator.BuildVector | src/binary_annotator.cpp:1053-1406 | The specified walk; terminates; keeps earlier sections and the bounds; afterwards the offset is covered |
| Annotator.BinaryAnnotator.VectorLength | src/binary_annotator.cpp:1062-1118 | Length word and last element as specified, checked modulo 2^64 |
| Annotator.BinaryAnnotator.VectorOfTables | src/binary_annotator.cpp:1148-1204 | The specified walk: each element that leads inside is built as a table, as Closure.EveryLinkIsFollowed says; the regions tile; tables lie behind the vector, so the parent-cycle branch cannot be taken |
| Annotator.BinaryAnnotator.VectorOfStructs | src/binary_annotator.cpp:1137-1147 | The regions tile |
| Annotator.BinaryAnnotator.VectorOfStrings | src/binary_annotator.cpp:1206-1248 | The regions tile |
| Annotator.BinaryAnnotator.VectorOfScalars | src/binary_annotator.cpp:1349-1399 | The regions tile |
| Annotator.BinaryAnnotator.UnionElements | src/binary_annotator.cpp:1289-1347 | The specified walk, which stops at the first element whose type is read through an entry without a field; in-bounds regions; unions lie behind the vector |
| Annotator.BinaryAnnotator.VectorOfUnions | src/binary_annotator.cpp:1251-1347 | Comes to the vector as a visit of the walk, and stops exactly if that visit is dangerous |
| Annotator.BinaryAnnotator.BuildUnion | src/binary_annotator.cpp:1408-1444 | The specified walk, which Closure.UnionWent ties to the enum's value of the realized type; terminates although a table keeps the offset; keeps earlier sections and the bounds |
| Annotator.BinaryAnnotator.ReadScalar | src/binary_annotator.h:366-383 | A read succeeds exactly when it ends inside the binary |
| Annotator.BinaryAnnotator.AddSection | src/binary_annotator.h:388-390 | Does not replace a section that is there |
| Annotator.BinaryAnnotator.FixMissingRegions | src/binary_annotator.cpp:1446-1493 | The specified pass over every section, which stays within the binary |
| Annotator.BinaryAnnotator.FixMissingSections | src/binary_annotator.cpp:1495-1527 | The loop inserts the specified sections |
| Annotator.BinaryAnnotator.FixMissing | src/binary_annotator.cpp:152-158 | Both passes: sections without gaps stay as they are, and no two neighbouring bytes are uncovered |
| Gaps.FillRegions | src/binary_annotator.cpp:1455-1491 | The loop inserts the specified gaps |
| Gaps.FilledTiles | src/binary_annotator.cpp:1446-1493 | On sorted, non-overlapping regions the result tiles from first start to last end, keeps every region in order, and adds only gaps of positive length typed by whether they are zero |
| Gaps.FilledOk | src/binary_annotator.cpp:1446-1493 | On any region list the result stays within the binary, and sections that have no gaps on any binary still have none |
| Gaps.PassesKeep | src/binary_annotator.cpp:1446-1527 | Through both passes a section keeps its place, its type and every region; one without gaps is unchanged, and one whose regions stand apart has no gaps afterwards |
| Gaps.IsNonZeroRegion | src/binary_annotator.cpp:61-69 | Whether some byte is not zero |
| Gaps.GenerateMissingSection | src/binary_annotator.cpp:81-122 | One region over the gap, typed by whether its bytes are zero |
| Gaps.PassFillsGaps | src/binary_annotator.cpp:1495-1527 | The pass keeps every section and adds exactly one for each gap of two or more bytes |
| Gaps.NoWideGaps | src/binary_annotator.cpp:1495-1527 | Afterwards no two neighbouring bytes are uncovered, on any sections |
| Gaps.StaysDisjoint | src/binary_annotator.cpp:1495-1527 | Disjoint sections stay disjoint |
| Gaps.SingleByteGapStays | src/binary_annotator.cpp:1506-1513 | A concrete map with a gap of one byte, which stays uncovered |
| Gaps.ContainsMeans | src/binary_annotator.cpp:1529-1548 | A found section covers the offset; on disjoint sections one is found exactly when some section covers it |
| NameSpaces.CppGenerator.SetNameSpace | src/idl_gen_cpp.cpp:4461-4499 | The code stays well-bracketed, ends in the new namespace, and grows by the specified change |
| NameSpaces.ChangeReplays | src/idl_gen_cpp.cpp:4482-4493 | Replaying a change leads from the old to the new components, with old plus new less twice the common braces |
| NameSpaces.FewestBraces | src/idl_gen_cpp.cpp:4456-4457 | No code between the two namespaces has fewer braces |
| NameSpaces.RunReplays | src/idl_gen_cpp.cpp:4459-4460 | After any sequence of calls every close matches, and exactly the last namespace is open |
| NameSpaces.SetNameSpaces | src/idl_gen_cpp.cpp:4461-4499 | A sequence of calls writes the code of that sequence |
| EnumTables.GenEnumStringTable | src/idl_gen_cpp.cpp:1596-1650 | Table or switch by sparseness; the table has its declared size, and for every value either returns what the switch returns |
| EnumTables.FillTable | src/idl_gen_cpp.cpp:1606-1613 | The nested loop gives one name for every value from the least to the greatest |
| EnumTables.TableIsSwitch | src/idl_gen_cpp.cpp:1621-1636 | The range-checked, unsigned index finds the switch's name for every value, declared or not |
| EnumTables.DistanceMeans | src/idl_parser.cpp:314-323 | Unsigned subtraction modulo 2^64 is the distance of two values of one 64-bit type |
| ProtoIds.ExtractProtobufIds | src/idl_gen_fbs.cpp:101-117 | The ids that convert, in order |
| ProtoIds.HasTwiceUsedId | src/idl_gen_fbs.cpp:119-130 | Exactly when an id is used twice |
| ProtoIds.HasGapInProtoId | src/idl_gen_fbs.cpp:132-143 | Exactly when the ids are not a run of consecutive numbers |
| ProtoIds.ProtobufIdSanityCheck | src/idl_gen_fbs.cpp:145-190 | Exactly when ids convert, are distinct, not reserved and, if asked, without a gap |
| ProtoIds.SaneMeans | src/idl_gen_fbs.cpp:145-190 | By the numbers that are written: the ids pass exactly if each is a number of sixteen bits, not reserved, no two fields have the same one, and, if asked, there is no gap |
| ProtoIds.MapProtoIdsToFieldsId | src/idl_gen_fbs.cpp:201-258 | When it succeeds, and that the numbers then follow the order of the ids and, with a second one for each bare union, fill 0 up to their count, each used once |
| ProtoIds.Renumber | src/idl_gen_fbs.cpp:249-255 | The loop gives each pair its place plus the unions up to it |
| ProtoIds.NumbersFill | src/idl_gen_fbs.cpp:249-255 | Every number is taken by exactly one pair, or is the one below a union's |
| ProtoIds.NumberingOrders | src/idl_gen_fbs.cpp:242-255 | Numbers follow the order of the ids, for any sort |
| ProtoIds.SmallerIdFirst | src/idl_gen_fbs.cpp:242-255 | Of two fields with numbers as ids, the one with the smaller id gets the smaller number |

## Left out

- WholeRuns.SharingPreservesMeaning: says nothing about the object-size word of a shared vtable, because Go compares the field entries only and may share a vtable with another size.
- GoRun.Execute: the limit in its failure clause is a bound on data and one call's need, not the exact capacity at which growth stops, which depends on the initial size.
- PhpExecution.PhpExecute: asks that padding outside an alignment takes less than all of the room that the last alignment left, because PHP leaves one byte less than Go.
- TableRegions.TableIsShown: does not say more of a table at whose place the vtable of a later table has been filed by the time its own fields are followed, because the source then drops the section of the table.
- Closure.EveryLinkIsFollowed: promises nothing of a table whose vtable is not whole or lies inside another section, and of a vector of unions only follows elements in front of which all lead inside the binary and whose types are present, because the source gives up there or loses count.
- Sources.EveryArrivalIsLinked: counts as a link also a union whose type field is not present, because the source reads the type where the entry for it leads all the same, and, where the types of a vector of unions are not all inside the binary, any element with any type of the enum.
- The typed families PrependInt8 .. PrependFloat64, PlaceInt8 .. PlaceFloat64, Prepend*Slot, Get*Slot and PHP's add* are one member each with the width and the kind of the type as parameters; a float is the bit pattern it is stored as, and a slot compares it with its default as IEEE 754 does.
- The capacity that Go's append picks is arbitrary but below two gigabytes, and so is the capacity that Reset exposes.
- An or of disjoint bytes in the loads is a sum, and a shift by whole bytes a division.
- Mutate*Slot and Mutate* of go/table.go, Table.String (a cast of ByteVector), and the remaining accessors that call Get*.
- CreateVectorOfSortedTables, whose order comes from a callback.
- PhpRuns.BuildersAgree: leaves out calls that would write an unsigned number from 2^63 to 2^63 + 1024, because as doubles they pass the range checks and are then shifted, and PHP does not say what a double beyond its integers becomes.
- PHP: a value is passed as an integer if there is one, and a default is a literal of the generated code. A value or default of a float field of four bytes is the double of the float itself; a literal such as 3.14 is not, and PHP can then write a value that Go takes for the default.
- PHP: big-endian hosts, 32-bit platforms, hosts without mbstring (the fallback of is_utf8), and NaN patterns that pack may change.
- PHP vectors of tables and byte vectors, which its generated code writes with startVector, and Go's size prefix, which PHP does not have, are outside the comparison of the two builders.
- The annotator's names, comments and error messages, and verification of the schema's own buffer.
- 64-bit offset fields in the annotator: following one can lead backwards, so the termination argument does not hold for them.
- The schema is assumed well-formed: ids are positions, indices are in range, structs are neither circular nor empty, arrays have a length, and the field before a union has the same enum. A binary is assumed shorter than 2^62 bytes.
- The vtable's second word is always readable once its length has been validated, so the source's branch for a missing one is not part of the model.
- std::map is a map visited in the order of its keys; lower_bound is the greatest key not above a position.
- HasTwiceUsedId and HasGapInProtoId on an empty list, which the source steps over the end of; its only caller has found an id before.
- Names of struct fields are assumed distinct in the renumbering, and fields and unions together fewer than 65536.
- The rest of the code generators, the compiler's command line, file access and the JSON, Lua, Nim and C# back ends.
