# Faust soundfile loader — a Dafny model

The Faust architecture file `architecture/faust/gui/Soundfile.h` defines the
`Soundfile` record that generated DSP code reads samples from. It also defines the
generic `SoundfileReader`, which builds that record from an ordered list of sound
sources. Every record holds exactly `MAX_PART` (256) parts laid end to end in one
buffer per channel. Each part has its own length, offset and sample rate. The
sentinel path `"__empty_sound__"` and every part past the end of the list become a
silent part of `BUFFER_SIZE` (1024) samples at `SAMPLE_RATE` (44100) Hz.

The model has four modules:

- `Wrappers`: the `Option` returned where the source returns `NULL`.
- `Soundfiles` (`soundfile.dfy`):
  - the constants;
  - the `Soundfile` class, whose metadata arrays are `array<int>` fields of 256 entries and whose channel storage is `fBuffers: array?<array<Sample>>`;
  - the constructor;
  - the index rule from the header comment, together with a corrected variant.
- `Layout` (`layout.dfy`):
  - the decoding backend as a table of files (`Files`);
  - the layout a successful read must produce, as functions of the file table and the path list (`PartLength`, `PartOffset`, `PartRate`, `ChannelSamples`);
  - the lemmas about that layout.
- `Reader` (`reader.dfy`): the `SoundfileReader` class with `empty`, `create`, `getBuffersOffset`, `open`, `readOne`, `read` and `checkFiles` as imperative methods.
  - `empty`, `create`, `getBuffersOffset`, `open`, `readOne` and `checkFiles` state their effect directly on the record, the views or the result.
  - The discovery, fill and padding passes of `read`, and `read` itself, are proved against the `Layout` functions.

The backend calls are abstract in the source: `open`, `readOne` and `checkFile`
are pure virtual or defined elsewhere. Here `open` and `readOne` are methods over a
fixed table `files: map<string, AudioFile>`. So what they do depends only on the path,
and that dependence is an assumed contract. `readOne` is assumed to succeed exactly
when the file opens and decodes. On success it is assumed to:

- write the file's channel `c` into samples `[offset, offset + length)` of record channel `c`;
- set part `part` to the file's length, the current offset and the file's sample rate;
- advance the offset by the file's length.

`checkFile` is a function parameter of `CheckFiles`. An allocation failure in
`create` is a nondeterministic choice (`if *`). A negative size also fails, because
C++ array `new` throws for negative sizes. A ghost out-parameter `allocFailed` of `Create`
and `Read` records that such a failure happened. This lets both contracts say
exactly when the result is `None`.

Points where the code decides and the header comment or the obvious reading differ:

- An empty list gives `fChannels == 0`: `cur_chan` starts at 0 and nothing raises it.
- A sentinel entry counts as one channel during discovery, although nothing is written for it.
- The header comment clamps the in-part position to the inclusive range `[0, fLength[p]]`. That lets an index reach one past the part and, for the last part, one past the buffer (see Findings).

`read` demands two things of its caller, because otherwise the code indexes past an array:

- the list has at most `MAX_PART` entries, because parts are written at index `i` of the 256-entry arrays;
- when every entry opens, the largest channel count is at most `max_chan`, because `getBuffersOffset` and the channel writes index `fBuffers` up to `fChannels`, while only `max_chan` arrays were allocated.

## Model

| member | source | states |
|---|---|---|
| Soundfiles.Soundfile.constructor | architecture/faust/gui/Soundfile.h:70-74 | A fresh record has no channel storage (`fBuffers == null`) and `fChannels == -1`. Its three per-part arrays are fresh, distinct and 256 entries long. |
| Soundfiles.Soundfile.Index | architecture/faust/gui/Soundfile.h:56-59 | The documented index lies in the inclusive range `[fOffset[p], fOffset[p] + fLength[p]]`. It is `fOffset[p]` for every `i <= 0`, `fOffset[p] + i` for every `i` in `[0, fLength[p]]`, and saturates at `fOffset[p] + fLength[p]` for larger `i`. |
| Soundfiles.Soundfile.ClampedIndex | architecture/faust/gui/Soundfile.h:59 | Corrected rule: for a non-empty part the index lies strictly inside the part, and it is `fOffset[p] + i` for `i` in `[0, fLength[p])`. |
| Reader.SoundfileReader.Empty | architecture/faust/gui/Soundfile.h:93-102 | Part `part` becomes 1024 samples at the given offset and 44100 Hz. Every other entry of the three arrays is unchanged. The offset advances by 1024. |
| Reader.SoundfileReader.Create | architecture/faust/gui/Soundfile.h:104-126 | The result is `None` exactly when an allocation fails (`allocFailed`), `max_chan` is negative, or the length is negative while `max_chan > 0`. On success the record is fresh and `fChannels == cur_channels`. There are exactly `max_chan` distinct fresh channel arrays, each of `length` zero samples. |
| Reader.SoundfileReader.GetBuffersOffset | architecture/faust/gui/Soundfile.h:128-133 | `views[c]` points at channel `c` from sample `offset` for exactly `0 <= c < fChannels`. Every other entry is untouched. |
| Reader.SoundfileReader.Open | architecture/faust/gui/Soundfile.h:139 | Assumed backend contract: succeeds exactly for a path the backend knows and reports that file's channel count and length. |
| Reader.SoundfileReader.ReadOne | architecture/faust/gui/Soundfile.h:135 | Assumed backend contract: succeeds exactly when the file opens and decodes. On success it records the part's length, offset and rate and advances the offset by the length. Channels `c` below the file's count get the file's channel `c` spliced in at the offset. All other channels are unchanged. |
| Reader.SoundfileReader.DecodeInto | architecture/faust/gui/Soundfile.h:128-135 | Decoding writes through the views obtained from `getBuffersOffset`, each at its own start position. Each of the file's channels is spliced into its record channel at the offset, and the remaining channels are unchanged. |
| Reader.SoundfileReader.Discover | architecture/faust/gui/Soundfile.h:147-161 | The discovery pass succeeds exactly when every entry is the sentinel or opens. Then `cur_chan` is `MaxChannels` (the sentinel counts 1) and `total_length` is the sum of the entry lengths (the sentinel counts 1024). |
| Reader.SoundfileReader.FillEntry | architecture/faust/gui/Soundfile.h:175-181 | One fill step succeeds exactly when entry `i` decodes. The running offset becomes `PartOffset(i + 1)`. Parts `0..i` hold the layout, and every channel holds parts `0..i` followed by silence. |
| Reader.SoundfileReader.PadEntry | architecture/faust/gui/Soundfile.h:184-186 | One padding step keeps the layout and channel invariants for one more part, and the offset becomes `PartOffset(i + 1)`. |
| Reader.SoundfileReader.FillList | architecture/faust/gui/Soundfile.h:172-181 | The fill pass succeeds exactly when every entry decodes. Then parts `0..n-1` hold the layout and the offset is `PartOffset(n)`. |
| Reader.SoundfileReader.PadTail | architecture/faust/gui/Soundfile.h:183-186 | The padding pass completes all 256 parts of the layout and of every channel. |
| Reader.SoundfileReader.Fill | architecture/faust/gui/Soundfile.h:172-186 | Both passes together succeed exactly when the list is loadable. Then the record holds the whole layout and every channel holds its final contents. The channel table itself is never reassigned. |
| Reader.SoundfileReader.Read | architecture/faust/gui/Soundfile.h:144-193 | All or nothing: the result is `None` exactly when some entry does not open or decode, or an allocation fails (`allocFailed`). No partial record escapes. A returned record and all its arrays are freshly allocated, so two loads share nothing. It has `fChannels == MaxChannels(list)`, `max_chan` distinct channels of `TotalLength(list)` samples, all 256 parts set to `PartLength`/`PartOffset`/`PartRate`, and channel contents `ChannelSamples(list, c)`. |
| Reader.SoundfileReader.CheckFiles | architecture/faust/gui/Soundfile.h:199-208 | Same length and order as the input. Entry `i` is the sentinel when `checkFile` answers `""` and the resolved path otherwise. No entry is empty. |
| Layout.MaxChannelsIsMaximum | architecture/faust/gui/Soundfile.h:147-161 | The discovered channel count bounds every entry's count and is attained by some entry. It is 0 for the empty list. |
| Layout.PartOffsetIsPrefixSum | architecture/faust/gui/Soundfile.h:150-181 | The fill pass's running offset at part `p <= n` equals the discovery pass's running total over the first `p` entries. |
| Layout.PaddingOffset | architecture/faust/gui/Soundfile.h:163-186 | Past the list, each padding part adds exactly 1024 to the offset. |
| Layout.PartOffsetTotal | architecture/faust/gui/Soundfile.h:163-186 | After all 256 parts the running offset equals the `total_length` that was allocated. |
| Layout.PartOffsetMonotone | architecture/faust/gui/Soundfile.h:172-186 | Part offsets never decrease. |
| Layout.PartFits | architecture/faust/gui/Soundfile.h:164-186 | Every part ends within the single up-front allocation. |
| Layout.ChannelSampleAt | architecture/faust/gui/Soundfile.h:172-186 | In channel `c`, sample `j` of part `p` is sample `j` of the file's channel `c` when part `p` is a real file with that channel. It is zero for a sentinel, for a padding part and for a channel the file lacks. The channel has `TotalLength` samples. |
| Layout.SilenceLaw | architecture/faust/gui/Soundfile.h:172-186 | A list of sentinels only, the empty list included, yields all-zero channels of the total length. |
| Layout.LayoutConsistent | architecture/faust/gui/Soundfile.h:172-186 | A record holding the layout has `fOffset[0] == 0` and `fOffset[p+1] == fOffset[p] + fLength[p]`. Its last part ends at `total_length`. Sentinel and padding parts are 1024 samples at 44100 Hz. Every part lies inside `[0, total_length]`. |
| Layout.EmptyListLayout | architecture/faust/gui/Soundfile.h:147-186 | For the empty list: 0 channels and 262144 samples. Every part is 1024 samples at 44100 Hz at offset `p * 1024`. |
| Layout.IndexReadsPart | architecture/faust/gui/Soundfile.h:56-59 | Inside a part of a loaded record the index rule lands in the channel and reads exactly that part's sample `i`. |
| Layout.IndexPastEnd | architecture/faust/gui/Soundfile.h:59 | As written, the index of the last part at `i = fLength` equals the total length, one past the last sample of the buffer. |
| Layout.ClampedIndexInBuffer | architecture/faust/gui/Soundfile.h:59 | With the corrected clamp, every index of a non-empty part of a loaded record lies in `[0, total_length)`. |

## Left out

- The `std::cout` logging (lines 95 and 166) is left out: it writes output and changes no state.
- The packed-structure pragmas and attributes are left out: they control compiler layout, which Dafny cannot express.
- The destructor is left out, because Dafny has no explicit deallocation. It frees only `fChannels` channel arrays, while `create` allocates `max_chan` of them, so arrays beyond `fChannels` leak. A record whose `create` fails midway also leaks its allocations.
- Sample values (`FAUSTFLOAT`) are modelled as `real`. Only copying and the zero fill matter to the layout.
- The bodies of `open`, `readOne`, `checkAux` and `checkFile` are not part of this model, because they decode audio formats and search the file system. `open` and `readOne` become methods over the reader's file table with the assumed contracts above. `checkFile` is a parameter. `checkAux` is never called by the modelled code.
- Integers are unbounded. A `total_length` beyond `int` range, which would overflow in C++, is not modelled.
- The unsigned `size_t` arithmetic of `MAX_PART - path_name_list.size()` is excluded by `Read`'s requirement of at most 256 entries.
- `MAX_CHAN` is declared but the code never uses it, so it constrains nothing here.
- Reader.SoundfileReader.ReadOne: this contract is an assumption, and a real backend may also resample, convert or truncate. Only the layout bookkeeping and the channel splice are stated.
- The loops of `read` are modelled as helper methods that `Read` calls, with the source's statements in the source's order: the discovery loop as `Discover`, the fill loop as `FillList` with one step per `FillEntry`, and the padding loop as `PadTail` with one step per `PadEntry`. `Fill` runs the fill and padding loops in turn.

## Findings

| source | as written | input that shows it | evidently intended | confidence | as-written member | corrected member |
|---|---|---|---|---|---|---|
| architecture/faust/gui/Soundfile.h:59 | `idx(p,i) = fOffset[p] + max(0, min(i, fLength[p]))` clamps the in-part position to `[0, fLength[p]]`, inclusive | empty list, `p = 255`, `i = 1024`: `idx = 255 * 1024 + 1024 = 262144`, which equals the buffer length, one past the last sample | clamp to `fLength[p] - 1`, so that every index of a non-empty part stays inside that part and the buffer | medium, not executed | Layout.IndexPastEnd | Layout.ClampedIndexInBuffer |
