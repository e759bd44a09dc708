# A verified model of elog

This project models the hard parts of the elog logging library in Dafny 4.11 and proves what
they are for. `dafny verify dfyconfig.toml` checks all of it.

* **Printing doubles** (`Powers` ... `FormatDouble`, with `TrailingZero`, `ShortDouble`, `ShortForm`,
  `Closest` and `IdleZero` for what the text could do without). The 64-bit arithmetic, boundaries, cached
  powers, digit generator and layouts of Grisu2 are methods over 64-bit words and character
  arrays. They are judged by exact real arithmetic (section 3.4 of IEEE 754-2008 for the format,
  section 4.3.1 for reading back with round to nearest, ties to even) and by a reader of decimal
  numerals written independently of the printer.
* **Formatting without copying** (`Format`, `FormatMeaning`, `Render`, `RenderReader`, `Emit`,
  `EmitSamples`). The format
  compiler, the recursive in-place renderers and both assemblers of `emit_f` work on shared
  buffers. They are judged by a substitution into the format string, by a pure printer and a
  reader of what it prints, and where the scratch buffer runs out by a pure account of what is cut.
* **Fan-out to tied loggers** (`TieGraph`, `Logger`). The recursion over an arbitrary tie graph
  is judged by the simple paths of that graph.
* **File sinks** (`FileSystem`, `BufferedSink`, `RotatingSink`). A write loop over an adversarial
  kernel, a user-space buffer and a chain of renames are judged by a plain append-only log.
* **Rate limits, deduplication and the queue** (`Burst`, `EveryTime`, `Dedup`, `DedupRegistry`,
  `Summaries`, `AsyncSink`). These are step systems, and the statements are about every run and
  every interleaving; the methods of the classes are shown to be steps or runs of them.

`PowerCertificates.dfy` and the entries in `CachedPowers.dfy` are tables: literal numbers, each
checked by exact integer arithmetic, from which the statements about all doubles follow.

## What the proofs found

* `src/grisu2.cpp:72` halves the lower part of the rounding interval only for the least normal
  double, where it is not needed, and for no other power of two, where it is. Of the 2045 exact
  powers of two with biased exponent 2 or more, 254 are printed so that they read back as the next
  smaller double; 2^64 is one. `FormatDoubles.ReadsBackIff` gives the exact condition: a double
  reads back if and only if it is not one of the listed powers. `include/elog/grisu2.hpp:8`
  promises a round trip for all doubles, and the fallback to snprintf that
  `src/grisu2.cpp:1-3` mentions has no code behind it.
* `include/elog/grisu2.hpp:8` promises the shortest text. The second phase of the digit generator
  compares with `<` where the first has `<=` (`src/grisu2.cpp:212`, `src/grisu2.cpp:197`), so it
  passes over a decimal that is the lower end of the safe interval, and one digit later the rounding
  may come back to it: 0x1.0bc033c186e32p-918 is printed as 4.720138864843750e-277
  (`IdleZeros.IdleZeroPrinted`). `TrailingZeros.ZeroIff` gives the exact condition on the interval,
  and `ShortDoubles.ZeroEndIff` makes it one on the double. Nothing else in the text is ever idle
  (`FormatDoubles.FormatDouble`).
* Format tables have 16-bit fields. A literal that begins at byte 65535 is taken for a hole, and
  later or longer ones wrap. `FormatMeaning.ExactIff` gives the exact limits. The number of arguments
  is not compared with the number of holes anywhere, so `emit_f` demands it of its caller.
* `include/elog/logger.hpp:42-44` promises one emit per logger when loggers are tied in a cycle.
  The visited set is undone on return, so the entry arrives once per simple tie path. Two loggers
  tied to each other keep the promise (`Loggers.PairOnce`). Three loggers all tied to each other do
  not: the other two get two entries (`TriangleTwice`), and so does the far end of a diamond
  (`DiamondTwice`). A logger gets one entry if and only if there is one simple path to it
  (`OnceIff`), and all do if and only if no logger is tied from two loggers that can both be
  reached without passing it (`OnePerLoggerIff`).
* `include/elog/rotating_sink.hpp:15-16` says that a write which would pass the limit rotates
  first. The code (`src/rotating_sink.cpp:136-145`) writes first, so the entry goes into the file
  that is rotated away. With exact byte counts and at least two files, a write leaves a file above
  the limit if and only if the old count and the entry together pass it
  (`RotatingSinks.RotatingFileSink.Write`; `WrittenBeforeRotation` is such a write).
* `include/elog/aggregate.hpp:72` says that `Logger` flushes bring out the waiting summaries. A
  flush of any logger leaves every site as it is (`Summaries.FlushKeepsWaiting`). A summary comes
  out with a call of another site or with `flush_all_dedup`, which also runs at exit, and with
  nothing else (`Dedups.StaysWaiting`).
* `src/aggregate.cpp:170-172` takes it that whoever loses the race for a site's identity finds it
  stored. It need not be: a summary is thrown away if and only if its logger is disabled or another
  thread is still storing the identity (`Dedups.DiscardedIff`), and that does happen with enabled
  loggers (`DiscardedWhileNaming`).
* Where the scratch buffer ends, a value is cut there and nowhere else (`Renderers.CutOnce`), except
  that a double without 32 free bytes is left out whole and a right-aligned field loses fill rather
  than text (`FillDropped`).

## Model

| member | source | states |
|---|---|---|
| DiyFps.Multiply | src/grisu2.cpp:26-39 | The product of the significands divided by 2^64 is rounded to nearest, halves upwards, and no partial sum leaves 64 bits. |
| DiyFps.Subtract | src/grisu2.cpp:22-24 | The difference of ordered significands is exact. |
| DiyFps.Normalize | src/grisu2.cpp:41-45 | The result has its top bit set and stands for the same number; nothing is shifted out. |
| DiyFps.NormalizeBoundary | src/grisu2.cpp:47-52 | The same for boundaries with one bit more. |
| DiyFps.NormalizedUnique | src/grisu2.cpp:41-52 | There is one normal form only, so the double and its upper boundary get the same exponent. |
| DiyFps.ShiftKeepsValue | src/grisu2.cpp:41-52 | Normalisation preserves the real value. |
| Ieee.DoubleToDiy | src/grisu2.cpp:54-63 | Significands stay below 2^53, positive doubles give positive significands, exponents lie in [-1074, 972]. |
| Ieee.Increasing | src/grisu2.cpp:54-63 | Larger bit patterns stand for larger numbers, by at least one ulp of the smaller. |
| Ieee.Predecessor | src/grisu2.cpp:65-81 | Exactly the powers of two with biased exponent 2 or more have a lower neighbour at half the distance of the upper. |
| Ieee.BetweenMidpoints | src/grisu2.cpp:65-81 | A number strictly between the midpoints to both neighbours rounds to the double. |
| Ieee.RoundsToUnique | src/grisu2.cpp:65-81 | No number rounds to two doubles. |
| Boundaries.NormalizedBoundaries | src/grisu2.cpp:65-81 | The two boundaries are those of the double, aligned to one exponent without losing a bit. |
| Boundaries.BoundedIsAligned | src/grisu2.cpp:65-81 | Both boundaries are half an ulp from the double at its own exponent (below: a quarter for the least normal double), in whole units. |
| CachedPowers.Entry | src/grisu2.cpp:83-126 | Every table entry is normalised and within half a unit in the last place of 10^(8i-348). |
| CachedPowers.EntryIsNear | src/grisu2.cpp:83-126 | The same for all 87 indices, with the exponent range each entry serves. |
| CachedPowers.CachedPower | src/grisu2.cpp:128-137 | However the floating-point estimate rounds, the index is never clamped, the power has relative error below half a unit, and the scaled exponent falls in [-60, -32]. |
| CachedPowers.NoClamp | src/grisu2.cpp:132-134 | For the exponents of all doubles the computed index is inside the table. |
| DigitGeneration.DecCount | src/grisu2.cpp:159-170 | The count is that of the decimal digits: 10^(c-1) <= v < 10^c. |
| DigitGeneration.GrisuRound | src/grisu2.cpp:148-157 | Of all ways to step the last digit down inside the interval the one closest to the double is taken, the character stays a digit and no word wraps. |
| DigitGeneration.RoundingChooses | src/grisu2.cpp:148-157 | Rounding the first prefix that fits yields the closest candidate, and no multiple of a larger power of ten lies above the lower end. |
| DigitGeneration.DigitGen | src/grisu2.cpp:172-221 | Terminates without overflow or index clamp, with at most n+1 digits when mp < 10^n * delta; the digits are the closest choice at the coarsest possible place. |
| DigitGeneration.FractionDigits | src/grisu2.cpp:205-220 | The second phase keeps (digits * one + p2) equal to mp scaled by the power of ten so far, and needs at most 19 turns. |
| Grisu.ScaledWithinOneUlp | src/grisu2.cpp:223-230 | Scaling by a cached power is off by less than one unit in the last place. |
| Grisu.SafeInterval | src/grisu2.cpp:231-233 | The shrunken interval is never empty, contains the scaled double, and is wider than 10^-16 of its upper end. |
| Grisu.Grisu2 | src/grisu2.cpp:223-234 | For every positive finite double: between 1 and 17 digits, chosen from the safe interval, decimal point within [-340, 360]. |
| Grisu.InsideBoundaries | src/grisu2.cpp:223-234 | The printed decimal lies strictly inside the computed boundaries, as real numbers, for every double. |
| Grisu.BoundariesAreMidpoints | src/grisu2.cpp:65-81 | The upper boundary is the exact midpoint to the next double; the lower one is half an ulp below, whatever the lower neighbour's distance, and a quarter for the least normal double. |
| Grisu.ReadsBack | src/grisu2.cpp:223-234 | Every double that is not such a power of two is read back from its digits, with no tie. |
| PowersOfTwo.NotFiner | src/grisu2.cpp:195-203 | If a decimal place has a multiple in the safe interval, the last digit printed is at that place or a coarser one: no shorter number in the interval is missed. |
| PowersOfTwo.NotCoarser | src/grisu2.cpp:205-219 | A place without a multiple of ten units in the closed interval bounds the printed place from above. |
| PowersOfTwo.DigitsPinned | src/grisu2.cpp:172-221 | Where the interval determines place and closest multiple, exactly these digits are printed. |
| PowersOfTwo.Decides | src/grisu2.cpp:72-76 | A certificate for a power of two determines whether its digits round to it or to its lower neighbour. |
| PowerCertificates.AllSettled | src/grisu2.cpp:72-76 | Each of the 2045 powers of two is settled, for whichever cached power is picked. |
| FormatDoubles.DigitsReadAs | src/grisu2.cpp:223-234 | The digits of every double round to it, or for the 254 listed powers to its lower neighbour. |
| FormatDoubles.ReadsBackIff | include/elog/grisu2.hpp:8-10 | A double reads back if and only if it is not one of the listed powers of two. |
| FormatDoubles.TwoTo64Misreads | src/grisu2.cpp:72-76 | 2^64 is one of them. |
| FormatDoubles.NoShorter | include/elog/grisu2.hpp:8-10 | Any decimal two scaled units inside the boundaries has its last digit no coarser than the printed one. |
| FormatDoubles.NoShorterInside | include/elog/grisu2.hpp:8-10 | The same without reference to the run: any decimal within 63/64 of the way from the double to either boundary has its last digit no coarser than the printed one. |
| FormatDoubles.ClosestPrinted | src/grisu2.cpp:148-157 | Of all decimals with the printed last place that lie well inside the interval none is closer to the double by more than a 256th of an ulp. |
| TrailingZeros.ZeroIff | src/grisu2.cpp:205-219 | The digits end in a zero if and only if the lower end of the safe interval is a decimal with j - 1 places that is not whole, the interval is between one and ten units of place j wide, and the target is less than half such a unit above the lower end; the zero then stands at place j. |
| ShortDoubles.ZeroEndIff | src/grisu2.cpp:223-234 | Whether the digits end in a zero depends on the bits of the double alone. |
| IdleZeros.IdleZeroPrinted | src/grisu2.cpp:205-219 | One such double, its digits and its text. |
| CachedPowers.PickUnique | src/grisu2.cpp:128-137 | However the estimate rounds, only one cached power can be picked for an exponent. |
| ShortForms.LayoutForms | src/grisu2.cpp:236-296 | In every layout: no leading zero, one digit in front of the point where there is an exponent, an exponent with a sign and no leading zero, and a zero at the end of a fraction only if the digits end in one. |
| ShortForms.ExponentIff | src/grisu2.cpp:236-268 | The layout with an exponent is chosen exactly for numbers below 10^-6 and from 10^21 on. |
| ShortForms.LayoutSamples | src/grisu2.cpp:236-250 | 1, 12000 and 1.5, character by character. |
| ShortForms.MoreSamples | src/grisu2.cpp:251-296 | 0.0015, 1e-7 and 1.5e+21, character by character. |
| FormatDoubles.FormatDouble | src/grisu2.cpp:300-325 | At most 25 characters. Reading them gives the sign, zero, infinity, not-a-number, or a number that rounds to the double (or to the neighbour, for the listed powers). The text itself has no leading zero, an exponent exactly below 10^-6 and from 10^21 on and without leading zeros, a fraction that ends in a zero exactly for the doubles of LeavesZero, and a last digit that no decimal well inside the interval could do without; and of the decimals with that last place none there is closer to the double by more than a 256th of an ulp. |
| Prettifier.LayoutDenotes | src/grisu2.cpp:236-296 | In all five layouts the text denotes exactly digits * 10^K. |
| Prettifier.LayoutLength | include/elog/grisu2.hpp:8-10 | 17 digits never need more than 24 characters, and the first is a digit. |
| Prettifier.Prettify | src/grisu2.cpp:236-296 | The characters written behind the sign are the layout, in place, within 24. |
| Formats.CountPieces | include/elog/format.hpp:25-47 | The count is that of maximal literals and holes of the format. |
| Formats.CountLitChars | include/elog/format.hpp:49-60 | The count is that of the unescaped literal characters. |
| Formats.MakeSpec | include/elog/format.hpp:69-133 | Fills exactly the counted pieces and bytes: piece k has, in 16 bits, the offset and length of literal k or the number of hole k. |
| Formats.PartsNormal | include/elog/format.hpp:82-130 | No literal is empty and no two are adjacent. |
| FormatMeaning.ExactIff | include/elog/format.hpp:8-23 | No field wraps and no literal is taken for a hole if and only if every literal begins before byte 65535 with at most 65535 bytes and there are at most 65535 holes. |
| FormatMeaning.FewLiteralsFit | include/elog/format.hpp:8-13 | Fewer than 65535 literal characters and 65536 holes are enough for that. |
| FormatMeaning.LateLiteralLost | include/elog/format.hpp:21-23 | 65535 literal characters, a hole and one more character: the last literal's entry reads as a hole. |
| FormatMeaning.FieldsWrap | include/elog/format.hpp:69-133 | Beyond the limits offsets, lengths and hole numbers are taken modulo 65536. |
| FormatMeaning.LiteralSlice | include/elog/format.hpp:69-133 | The literal pieces tile the literal bytes in order. |
| FormatMeaning.RoundTrip | include/elog/format.hpp:69-133 | Compiling the escaped print of a list of parts returns it if and only if the list is normalised. |
| FormatMeaning.CompilePreserves | include/elog/format.hpp:69-133 | Substituting arguments into the compiled parts is substituting them into the format string. |
| FormatMeaning.SubstituteNext | include/elog/format.hpp:82-130 | Behind an escaped literal, the next hole takes the next argument. |
| FormatMeaning.LoneBracesStay | include/elog/format.hpp:106-130 | A string in which every brace stands alone is one literal, braces included. |
| FormatMeaning.BraceExample | include/elog/format.hpp:82-130 | Doubled braces, holes and lone braces in one format. |
| Renderers.AppendStr | include/elog/render_extra.hpp:138-147 | Appends the text, cut where the buffer ends, and nothing else. |
| Renderers.ShiftUp | include/elog/render_extra.hpp:201-216 | The backward in-place move leaves fill characters followed by the old text, even where the ranges overlap. |
| Renderers.RenderPadded | include/elog/render_extra.hpp:181-236 | A borrowed text and one that is in scratch already are both padded to the width; near the end of scratch the first is cut, the second keeps its text and loses fill. |
| Renderers.RenderAll | include/elog/render_extra.hpp:240-273 | Elements and separators follow each other once each, whether an element was already in place or had to be copied, each cut for the room that is left. |
| Renderers.RenderBracketed | include/elog/render_extra.hpp:258-359 | Vectors, arrays, tuples and sets print as the brackets around their elements. |
| Renderers.RenderPair | include/elog/render_extra.hpp:294-309 | Both halves, each in place once. |
| Renderers.RenderMap | include/elog/render_extra.hpp:360-377 | Keys and values in the map's order; RenderReaders says what text that is. |
| Renderers.Render | include/elog/render_extra.hpp:138-393 | Every nested value, whether it fits or not, is either the slice [old pos, pos) holding what Put says, or borrowed with pos unchanged; earlier bytes are untouched. Only integers and characters, which do not look, have to have room where they are put. |
| Renderers.FitsPut | include/elog/render_extra.hpp:138-393 | What is put for a value that fits is the text of the pure printer. |
| Renderers.CutOnce | include/elog/render_extra.hpp:138-393 | Without doubles and right-aligned fields over numbers, what is put is the first 4096 - pos characters of the whole text, however deep the value is nested. |
| Renderers.FillDropped | include/elog/render_extra.hpp:201-216 | A right-aligned number at the end of scratch keeps its digit and loses its fill. |
| Renderers.EnoughRoom | include/elog/render_extra.hpp:138-147 | A value fits if its whole text and one more leaf do. |
| RenderReaders.TreeRead | include/elog/render_extra.hpp:258-377 | A reader of nested brackets gets from the text of a value its texts, its kind of brackets, its elements in order and key before value, whatever follows. |
| RenderReaders.RenderedReads | include/elog/render_extra.hpp:138-393 | So it does from what the renderers put in scratch for a value that fits. |
| RenderReaders.JoinedReads | include/elog/render_extra.hpp:240-256 | Splitting a joined range at its separator gives the texts of its elements. |
| RenderReaders.FieldIs | include/elog/render_extra.hpp:165-236 | A field is as wide as asked, or as its text, which stands at one end of it with fill at the other. |
| RenderReaders.FieldKeepsText | include/elog/render_extra.hpp:201-216 | Near the end of scratch a right-aligned field over a number keeps the number and has as much fill as there is room for. |
| RenderReaders.DoubleLeftOut | src/render.cpp:52-58 | Without 32 free bytes a double is left out whole. |
| RenderReaders.RenderSamples | include/elog/render_extra.hpp:258-377 | One rendering of each container, as characters in scratch. |
| Emitters.IovScratchAlloc | include/elog/iov_pack.hpp:32-39 | Each range begins where all earlier ones have ended, so no two overlap; without room or outside a log call nothing is taken. |
| Emitters.RenderArgs | include/elog/emit.hpp:72-79 | Later renderers disturb none of the earlier arguments' bytes. |
| Emitters.EmitFast | include/elog/emit.hpp:57-107 | Exactly N + 2 ranges, whose bytes are prologue, format with the arguments substituted as they were put one after the other, newline. |
| Emitters.MakeArgSlot | include/elog/emit.hpp:117-144 | The slot's segments read as those of the argument, one empty segment if the pool has no room for its pack, and those of earlier slots stay as they are. |
| Emitters.AppendSlot | include/elog/emit.hpp:192-205 | A pack contributes its first 32 segments, in order. |
| Emitters.EmitPacks | include/elog/emit.hpp:146-218 | At most 32 N + 2 ranges with the bytes of the reference line over the segments put for each argument, and the thread's pool pointer is restored. |
| Emitters.FitPlaced | include/elog/emit.hpp:57-218 | Arguments for which scratch and pool have room contribute the text of the pure printer, whole. |
| Emitters.OnesPlaced | include/elog/emit.hpp:57-218 | Where there are no packs both paths substitute the same texts. |
| EmitSamples.EmitSample | include/elog/emit.hpp:57-107 | A format with escapes and two arguments, from compilation to the bytes of its seven ranges. |
| EmitSamples.EmitPackSample | include/elog/emit.hpp:146-218 | The same with a view and a pack. |
| EmitSamples.PackEnds | include/elog/emit.hpp:192-205 | Of a pack the first 32 segments are written, all of them if there are no more. |
| Emitters.PieceRead | include/elog/emit.hpp:86-98 | What the assembler reads from the 16-bit table is the part of the format, and hole numbers stay below the number of holes. |
| TieGraphs.EmitsSimplePaths | src/logger.cpp:72-95 | On every finite tie graph emit goes along exactly the simple paths from its logger, each once. |
| TieGraphs.EmitsEvery | src/logger.cpp:72-95 | No simple path is missed because of the visited set. |
| TieGraphs.EmitsOnce | src/logger.cpp:72-95 | No path is taken twice. |
| TieGraphs.OneWayIff | src/logger.cpp:72-95 | Every node that can be reached has one simple path to it if and only if no node can be entered from two others. |
| TieGraphs.ReachesAll | src/logger.cpp:97-111 | Flush and emit reach the end of every path, simple or not. |
| TieGraphs.FlushesReachable | src/logger.cpp:97-111 | Flush visits nothing that cannot be reached. |
| Loggers.Logger.Tie | src/logger.cpp:46-55 | Adds a tie unless it is to itself or there already; ties stay free of duplicates and counted. |
| Loggers.Logger.Untie | src/logger.cpp:57-65 | Removes exactly that tie. |
| Loggers.Logger.Emit | src/logger.cpp:72-95 | Terminates; every sink's log grows by one copy per walked path that ends at its owner, on the fast path too; the visited set is what it was. |
| Loggers.Logger.Flush | src/logger.cpp:97-111 | Terminates; every sink is flushed once per visit of its owner; the visited set is what it was. |
| Loggers.EmitFrom | src/logger.cpp:72-95 | From outside, the walked paths are all simple paths from the logger, each once; a sink's log grows by as many copies of the entry as paths end at its owner, so by exactly one if and only if there is one simple path. |
| Loggers.FlushFrom | src/logger.cpp:97-111 | From outside, a sink is flushed if and only if a path of ties leads to its owner; without ties the logger's own sinks are flushed exactly once and no others; nothing is written. |
| Loggers.OnceIff | include/elog/logger.hpp:42-44 | On every tie graph, a logger's sink gets the entry exactly once if and only if there is exactly one simple path to that logger. |
| Loggers.OnePerLoggerIff | include/elog/logger.hpp:42-44 | No logger gets an entry twice if and only if none can be entered from two sides. |
| Loggers.PairOnce | include/elog/logger.hpp:42-44 | Two loggers tied to each other get one entry each. |
| Loggers.TriangleTwice | include/elog/logger.hpp:42-44 | Of three loggers all tied to each other the two not called get two entries each. |
| Loggers.DiamondTwice | src/logger.cpp:72-95 | The far end of a diamond gets two. |
| FileSystems.WritevAll | src/buffered_file_sink.cpp:15-44 | For every script of interruptions and short writes the loop ends with exactly the ranges appended; after a failure, a prefix of them. |
| FileSystems.Advance | src/buffered_file_sink.cpp:33-42 | What is left of the ranges is what the kernel has not taken. |
| BufferedSinks.BufferedFileSink.Write | src/buffered_file_sink.cpp:56-84 | File plus buffer stay the whole log, cut between two entries; at or above the threshold, and for oversized entries, the file alone is; below it, with room in the buffer, the file stays as it is. |
| BufferedSinks.BufferedFileSink.FlushLocked | src/buffered_file_sink.cpp:92-97 | Afterwards the file is the whole log and no other file has changed. |
| RotatingSinks.LogName | src/rotating_sink.cpp:68-82 | A name that ends in .log gets the index in front of that suffix. |
| RotatingSinks.OtherName | src/rotating_sink.cpp:83-86 | Any other name gets it at the end. |
| RotatingSinks.DecimalIsPlain | src/rotating_sink.cpp:72-73 | The index has no leading zero. |
| RotatingSinks.IndexedPathInjective | src/rotating_sink.cpp:68-89 | Different indices give different names, and no index gives the base name. |
| RotatingSinks.MoveFiles | src/rotating_sink.cpp:163-181 | The renames move every file up by exactly one place, gaps included, and touch no other file. |
| RotatingSinks.RotatingFileSink.RotateLocked | src/rotating_sink.cpp:154-190 | Only the entries of the oldest file are lost, and none is split. |
| RotatingSinks.RotatingFileSink.Write | src/rotating_sink.cpp:124-146 | The entry is appended whole to the active file; then, exactly when the limit is reached, that file with the entry in it is moved up. Without failures, a file above the limit appears if and only if the old count and the entry together pass it and there are two files or more. |
| RotatingSinks.AboveIff | src/rotating_sink.cpp:136-145 | For every layout of the chain, writing and rotating leave a file above the limit exactly then. |
| RotatingSinks.WrittenBeforeRotation | include/elog/rotating_sink.hpp:15-16 | Two entries of six bytes and a limit of ten leave app.log empty and app.1.log with twelve bytes. |
| RotatingSinks.ChainIsSuffix | src/rotating_sink.cpp:124-190 | In every reachable state the files, oldest to newest, are a suffix of the log, and all of it up to max_files - 1 rotations of an empty chain. |
| RotatingSinks.ChainIsKept | src/rotating_sink.cpp:124-190 | Every file consists of whole entries. |
| Bursts.BurstState.Tick | src/aggregate.cpp:76-101 | One call, whatever the clock reading, is one step of the bucket whose runs the next rows bound from both sides. |
| Bursts.WindowBound | src/aggregate.cpp:76-101 | In every run tokens stay in [0, burst], and every window of calls passes at most burst plus the refill between its two last_ns. |
| Bursts.FirstWindowBound | src/aggregate.cpp:82-85 | The same from the very first call on. |
| Bursts.NothingLost | src/aggregate.cpp:86-95 | In every window in which the bucket does not run over, what was there and what was refilled has been passed on or is still there. |
| Bursts.PassesIff | src/aggregate.cpp:82-101 | A call passes if and only if what is left and what has been refilled since make a token, with room for one. |
| Bursts.FullBurstPasses | src/aggregate.cpp:82-101 | At first use, and after a pause long enough to fill the bucket, the next burst calls all pass. |
| Bursts.LastNsIsLatest | src/aggregate.cpp:88-95 | The bucket's time is the latest clock reading so far. |
| Bursts.OneASecond | src/aggregate.cpp:76-101 | Four calls of the class with one token a second: pass, refuse, pass, refuse. |
| TimeGates.EveryRun | src/aggregate.cpp:18-35 | Over all interleavings of the CAS loop, each success has a clock reading at least the period of the one before later. |
| TimeGates.EveryTimeState.Tick | src/aggregate.cpp:18-35 | Whatever steps other threads take and however often the weak swap fails, the loop ends, and its steps are one call of the step system: read, failed swaps, and a successful swap or a refusal, in a run to which the other rows apply. |
| TimeGates.AllSpaced | src/aggregate.cpp:18-35 | So the ticks that succeeded are spaced, and the word says when the next may. |
| TimeGates.AnyTwo | src/aggregate.cpp:18-35 | The j-th success after another is at least j periods later. |
| TimeGates.RefusedWithReason | src/aggregate.cpp:26 | A tick is refused only within one period of the last success at that moment. |
| Dedups.EveryRunConserves | src/aggregate.cpp:158-204 | Over all interleavings of the atomic steps, calls = passed + waiting + in hand + reported + discarded, per site; with idle threads nothing is in hand. |
| Dedups.DiscardedIff | src/aggregate.cpp:158-204 | In every run, a step throws away waiting calls if and only if it has them in hand and the logger is disabled or another thread has won the claim of the site and not stored its identity yet. |
| Dedups.DiscardedWhileNaming | src/aggregate.cpp:162-173 | A run of two threads with enabled loggers in which a summary is thrown away. |
| Dedups.StaysWaiting | src/aggregate.cpp:175-204 | While only the site that fired last is called, what waits there is neither reported nor discarded and never shrinks, in every run. |
| DedupRegistries.DedupRegistry.Tick | src/aggregate.cpp:158-189 | A tick that overlaps no other is a run of one call of the step system: it is counted, the first of consecutive calls passes and the others wait, a change of site brings out the last site's summary, and only the last site can have calls waiting. |
| DedupRegistries.DedupRegistry.FlushAll | src/aggregate.cpp:118-125 | Likewise a run of one call; afterwards nothing waits anywhere, all that waited has been reported, and any site's next call passes. |
| DedupRegistries.TickedIsRun | src/aggregate.cpp:158-204 | The whole effect of a tick is that of the steps of one thread. |
| Summaries.FlushKeepsWaiting | src/logger.cpp:97-111 | Flushing a logger writes to no sink and changes no dedup site. |
| Summaries.FlushThenFlushAll | include/elog/aggregate.hpp:72 | A call that waits before a logger's flush waits after it, and comes out with the registry's flush. |
| AsyncSinks.EveryRun | examples/async_sink_skeleton.cpp:40-94 | Over all interleavings delivered + in flight + queued = accepted in order, the queue stays within its capacity, accepted + dropped = writes. No wake-up is lost: a worker that sleeps on work is owed a notify, and a flush that sleeps on an empty queue is owed one by the worker until the sink is drained. |
| AsyncSinks.FlushLeavesAtMostOne | examples/async_sink_skeleton.cpp:56-60 | When flush returns, at most the one item in the worker's hands is undelivered of all accepted before. |
| AsyncSinks.FlushCanLeaveOne | examples/async_sink_skeleton.cpp:56-85 | That one can be left: flush may return before the item is written. |
| AsyncSinks.DestroyedDelivered | examples/async_sink_skeleton.cpp:30-38 | After destruction everything accepted has been delivered. |
| AsyncSinks.WorkerReturns | examples/async_sink_skeleton.cpp:70-85 | After stop the worker never sleeps for good: a step towards its return can always be taken. |
| AsyncSinks.FlushWakes | examples/async_sink_skeleton.cpp:56-85 | While the sink lives no flush sleeps for good: as long as one sleeps, some step of the worker or an owed notify can be taken, and each lowers a measure. |
| AsyncSinks.AsyncSink.Enqueue | examples/async_sink_skeleton.cpp:45-53 | Drops the item exactly when the queue is full, and otherwise puts it last, accepts it and wakes the worker: one or two steps of the step system. |
| AsyncSinks.AsyncSink.Destroy | examples/async_sink_skeleton.cpp:30-38 | From every reachable state, whatever the worker is doing: stop, join and drain leave the inner sink with all accepted items in order. |

## Left out

- FormatDoubles.NoShorterInside: only the shrunken safe interval is searched, so no claim is made about shorter decimals in the outermost 64th of the rounding interval.
- Renderers.Render: integer and character renderers do not check for room, so their callers have to leave it; hexdump, quoted, escaped and snprintf-based leaves that do not fit are not modelled.
- Emitters.EmitPacks: a pack renderer that finds no pool slots is taken to return an empty pack; the ones in the documentation do not check. A renderer that throws, and a log call inside a renderer, are not modelled.
- Borrowed bytes are taken to lie outside scratch, and to stay alive until the log call ends.
- Emitters.IovScratchAlloc: sizes are unbounded, so a request near 2^64 that would wrap is not modelled; the same holds for byte counts in the sinks.
- RotatingSinks.RotatingFileSink.Write: other processes that touch the same files, and file systems that refuse a rename, are not modelled; opening the new file may fail.
- FileSystems.WritevAll: an endless sequence of interruptions or of writes that take nothing is not modelled; the heap copy of long range lists is taken to succeed; the copies of the loop in src/sink.cpp and src/rotating_sink.cpp are the same loop.
- Bursts.BurstState.Tick: tokens are reals, so rounding of doubles is not modelled.
- Dedups.EveryRunConserves: the number of call sites is fixed during a run, and the identity is stored in one step, so a summary that finds half of it is not modelled.
- Loggers.Logger.Emit: ties and sinks do not change during one emit, and sinks do not log themselves.
- Memory order: atomics are sequentially consistent steps and locks are atomic steps.
- CachedPowers.CachedPower: the floating-point estimate is any real within the rounding error of its two operations.
- The default prologue, clocks and thread ids are opaque bytes and inputs.
- Integer, hexadecimal, binary, quoted and escaped leaf renderers are leaves with a given text; snprintf-based ones likewise.
- The registry, every-n, first-n and sampling states, level names, colours and macros would only add easy members.
