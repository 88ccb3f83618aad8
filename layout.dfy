/** The layout a successful read produces, as functions of the decoding backend's
    files and the list of path names, and the properties of that layout. */
module Layout {
  import opened Soundfiles

  /** The path name that stands for "no file here: one silent part". */
  const EMPTY_SOUND: string := "__empty_sound__"

  /** What the decoding backend knows of one file: the channel count and length
      that opening it reports, the sample rate and the samples that reading it
      writes (one sequence per channel), and whether reading it succeeds. */
  datatype AudioFile = AudioFile(channels: nat, length: nat, sampleRate: int, data: seq<seq<Sample>>, decodable: bool)

  /** The files the backend can open, by resolved path name. */
  type Files = map<string, AudioFile>

  /** A file holds one sequence of `length` samples per channel. */
  predicate WellFormed(f: AudioFile)
  {
    |f.data| == f.channels && forall c :: 0 <= c < |f.data| ==> |f.data[c]| == f.length
  }

  predicate WellFormedFiles(files: Files)
  {
    forall path :: path in files ==> WellFormed(files[path])
  }

  /** Entry `path` is the silence sentinel or a file the backend can open. */
  predicate Opens(files: Files, path: string)
  {
    path == EMPTY_SOUND || path in files
  }

  /** Entry `path` is the silence sentinel or a file that opens and decodes. */
  predicate Decodes(files: Files, path: string)
  {
    path == EMPTY_SOUND || (path in files && files[path].decodable)
  }

  /** Entry `path` names a real file the backend knows. */
  predicate IsFile(files: Files, path: string)
  {
    path != EMPTY_SOUND && path in files
  }

  /** Every entry opens: the discovery pass gets through the list. */
  predicate Openable(files: Files, list: seq<string>)
  {
    forall i :: 0 <= i < |list| ==> Opens(files, list[i])
  }

  /** Every entry opens and decodes: neither pass of the read throws. */
  predicate Loadable(files: Files, list: seq<string>)
  {
    forall i :: 0 <= i < |list| ==> Decodes(files, list[i])
  }

  /** Channel count the discovery pass records for one entry (the sentinel counts as mono). */
  function ChannelsOf(files: Files, path: string): nat
  {
    if path == EMPTY_SOUND then 1 else if path in files then files[path].channels else 0
  }

  /** Length the discovery pass records for one entry. */
  function LengthOf(files: Files, path: string): nat
  {
    if path == EMPTY_SOUND then BUFFER_SIZE else if path in files then files[path].length else 0
  }

  /** Sample rate the fill pass records for one entry. */
  function RateOf(files: Files, path: string): int
  {
    if IsFile(files, path) then files[path].sampleRate else SAMPLE_RATE
  }

  /** Channel count of the record: the running maximum, starting from 0. */
  function MaxChannels(files: Files, list: seq<string>): nat
  {
    if list == [] then 0
    else Max(MaxChannels(files, list[..|list| - 1]), ChannelsOf(files, list[|list| - 1]))
  }

  /** Sum of the lengths of the listed entries. */
  function SumLengths(files: Files, list: seq<string>): nat
  {
    if list == [] then 0
    else SumLengths(files, list[..|list| - 1]) + LengthOf(files, list[|list| - 1])
  }

  /** Samples per channel: the entries' lengths plus room for the silent filler parts. */
  function TotalLength(files: Files, list: seq<string>): int
  {
    SumLengths(files, list) + (MAX_PART - |list|) * BUFFER_SIZE
  }

  /** Length of part p: the p-th entry's, or a filler's past the end of the list. */
  function PartLength(files: Files, list: seq<string>, p: nat): nat
  {
    if p < |list| then LengthOf(files, list[p]) else BUFFER_SIZE
  }

  function PartRate(files: Files, list: seq<string>, p: nat): int
  {
    if p < |list| then RateOf(files, list[p]) else SAMPLE_RATE
  }

  /** Offset of part p: the parts before it, laid end to end from 0. */
  function PartOffset(files: Files, list: seq<string>, p: nat): nat
  {
    if p == 0 then 0 else PartOffset(files, list, p - 1) + PartLength(files, list, p - 1)
  }

  function Zeros(n: nat): seq<Sample>
  {
    seq(n, _ => ZERO)
  }

  /** Samples of part p in channel c: the file's channel when the file has one,
      silence for the sentinel, the filler parts and the channels a file lacks. */
  function PartSamples(files: Files, list: seq<string>, p: nat, c: nat): seq<Sample>
  {
    if p < |list| && IsFile(files, list[p]) && c < |files[list[p]].data|
    then files[list[p]].data[c]
    else Zeros(PartLength(files, list, p))
  }

  /** Channel c's samples for parts 0 .. p-1. */
  function ChannelPrefix(files: Files, list: seq<string>, c: nat, p: nat): seq<Sample>
  {
    if p == 0 then [] else ChannelPrefix(files, list, c, p - 1) + PartSamples(files, list, p - 1, c)
  }

  /** The whole of channel c after a successful read. */
  function ChannelSamples(files: Files, list: seq<string>, c: nat): seq<Sample>
  {
    ChannelPrefix(files, list, c, MAX_PART)
  }

  /** Parts 0 .. n-1 of the record's metadata arrays hold the layout of `list`. */
  ghost predicate PartsHold(sf: Soundfile, files: Files, list: seq<string>, n: nat)
    reads sf, sf.fLength, sf.fOffset, sf.fSampleRate
    requires sf.Valid() && n <= MAX_PART
  {
    forall p :: 0 <= p < n ==>
      sf.fLength[p] == PartLength(files, list, p) &&
      sf.fOffset[p] == PartOffset(files, list, p) &&
      sf.fSampleRate[p] == PartRate(files, list, p)
  }

  /** All MAX_PART parts of the record hold the layout of `list`. */
  ghost predicate HoldsLayout(sf: Soundfile, files: Files, list: seq<string>)
    reads sf, sf.fLength, sf.fOffset, sf.fSampleRate
    requires sf.Valid()
  {
    PartsHold(sf, files, list, MAX_PART)
  }

  /** `src` written over `s` from position `at` on. */
  function Splice(s: seq<Sample>, at: nat, src: seq<Sample>): (r: seq<Sample>)
    requires at + |src| <= |s|
    ensures |r| == |s|
  {
    s[..at] + src + s[at + |src|..]
  }

  /** Samples in parts n .. MAX_PART-1: what is still silent while the fill pass is at part n. */
  function Remaining(files: Files, list: seq<string>, n: nat): nat
    decreases MAX_PART - n
  {
    if n >= MAX_PART then 0 else PartLength(files, list, n) + Remaining(files, list, n + 1)
  }

  /** Channel c while the fill pass is at part n: parts 0 .. n-1 and then silence. */
  function ChannelState(files: Files, list: seq<string>, c: nat, n: nat): seq<Sample>
  {
    ChannelPrefix(files, list, c, n) + Zeros(Remaining(files, list, n))
  }

  /** Every channel of the record has TotalLength samples and is in the state of
      the fill pass at part n. */
  ghost predicate ChannelsHold(sf: Soundfile, files: Files, list: seq<string>, n: nat)
    reads sf, sf.fBuffers, sf.Channels()
  {
    sf.fBuffers != null &&
    forall c :: 0 <= c < sf.fBuffers.Length ==>
      sf.fBuffers[c].Length == TotalLength(files, list) &&
      sf.fBuffers[c][..] == ChannelState(files, list, c, n)
  }

  // ---------------------------------------------------------------------------
  // Discovery pass

  /** The channel count is the largest count among the entries, and 0 for no entry. */
  lemma {:induction false} MaxChannelsIsMaximum(files: Files, list: seq<string>)
    ensures forall i :: 0 <= i < |list| ==> ChannelsOf(files, list[i]) <= MaxChannels(files, list)
    ensures list == [] ==> MaxChannels(files, list) == 0
    ensures list != [] ==> exists i :: 0 <= i < |list| && MaxChannels(files, list) == ChannelsOf(files, list[i])
  {
    if list != [] {
      var last := |list| - 1;
      var init := list[..last];
      MaxChannelsIsMaximum(files, init);
      assert forall i :: 0 <= i < |init| ==> init[i] == list[i];
      if MaxChannels(files, list) == ChannelsOf(files, list[last]) {
        assert 0 <= last < |list|;
      } else {
        assert init != [];
        var k :| 0 <= k < |init| && MaxChannels(files, init) == ChannelsOf(files, init[k]);
        assert MaxChannels(files, list) == ChannelsOf(files, list[k]);
      }
    }
  }

  /** Offsets before the end of the list are sums of the listed lengths. */
  lemma {:induction false} PartOffsetIsPrefixSum(files: Files, list: seq<string>, p: nat)
    requires p <= |list|
    ensures PartOffset(files, list, p) == SumLengths(files, list[..p])
  {
    if p > 0 {
      PartOffsetIsPrefixSum(files, list, p - 1);
      assert list[..p][..p - 1] == list[..p - 1];
    }
  }

  /** Past the end of the list every part adds one filler length. */
  lemma {:induction false} PaddingOffset(files: Files, list: seq<string>, p: nat)
    requires |list| <= p
    ensures PartOffset(files, list, p) == SumLengths(files, list) + (p - |list|) * BUFFER_SIZE
  {
    if p == |list| {
      PartOffsetIsPrefixSum(files, list, p);
      assert list[..p] == list;
    } else {
      PaddingOffset(files, list, p - 1);
    }
  }

  /** The parts laid end to end fill exactly the total length the discovery pass reserves. */
  lemma PartOffsetTotal(files: Files, list: seq<string>)
    requires |list| <= MAX_PART
    ensures PartOffset(files, list, MAX_PART) == TotalLength(files, list)
  {
    PaddingOffset(files, list, MAX_PART);
  }

  /** Offsets never decrease. */
  lemma {:induction false} PartOffsetMonotone(files: Files, list: seq<string>, p: nat, q: nat)
    requires p <= q
    ensures PartOffset(files, list, p) <= PartOffset(files, list, q)
  {
    if p < q {
      PartOffsetMonotone(files, list, p, q - 1);
    }
  }

  /** Every part lies inside the single allocation of TotalLength samples. */
  lemma PartFits(files: Files, list: seq<string>, p: nat)
    requires |list| <= MAX_PART && p < MAX_PART
    ensures PartOffset(files, list, p) + PartLength(files, list, p) <= TotalLength(files, list)
  {
    PartOffsetMonotone(files, list, p + 1, MAX_PART);
    PartOffsetTotal(files, list);
  }

  // ---------------------------------------------------------------------------
  // Sample contents

  /** A part contributes exactly its length to every channel. */
  lemma PartSamplesLength(files: Files, list: seq<string>, p: nat, c: nat)
    requires WellFormedFiles(files)
    ensures |PartSamples(files, list, p, c)| == PartLength(files, list, p)
  {
    if p < |list| && IsFile(files, list[p]) && c < |files[list[p]].data| {
      assert WellFormed(files[list[p]]);
    }
  }

  /** Each channel prefix is as long as the offset it reaches. */
  lemma {:induction false} ChannelPrefixLength(files: Files, list: seq<string>, c: nat, p: nat)
    requires WellFormedFiles(files)
    ensures |ChannelPrefix(files, list, c, p)| == PartOffset(files, list, p)
  {
    if p > 0 {
      ChannelPrefixLength(files, list, c, p - 1);
      PartSamplesLength(files, list, p - 1, c);
    }
  }

  /** A prefix holds the samples of each part it covers at that part's offset. */
  lemma {:induction false} ChannelPrefixAt(files: Files, list: seq<string>, c: nat, p: nat, q: nat, j: nat)
    requires WellFormedFiles(files)
    requires q < p && j < PartLength(files, list, q)
    ensures |ChannelPrefix(files, list, c, p)| == PartOffset(files, list, p)
    ensures PartOffset(files, list, q) + j < PartOffset(files, list, p)
    ensures ChannelPrefix(files, list, c, p)[PartOffset(files, list, q) + j] == PartSamples(files, list, q, c)[j]
  {
    ChannelPrefixLength(files, list, c, p);
    ChannelPrefixLength(files, list, c, p - 1);
    if q < p - 1 {
      ChannelPrefixAt(files, list, c, p - 1, q, j);
    } else {
      PartSamplesLength(files, list, q, c);
    }
  }

  /** The samples of part p in channel c: the file's own channel c where the file
      has it, silence for the sentinel, for the filler parts and for the channels
      a file lacks. */
  lemma ChannelSampleAt(files: Files, list: seq<string>, c: nat, p: nat, j: nat)
    requires WellFormedFiles(files)
    requires |list| <= MAX_PART && p < MAX_PART && j < PartLength(files, list, p)
    ensures |ChannelSamples(files, list, c)| == TotalLength(files, list)
    ensures PartOffset(files, list, p) + j < TotalLength(files, list)
    ensures ChannelSamples(files, list, c)[PartOffset(files, list, p) + j] ==
              if p < |list| && IsFile(files, list[p]) && c < files[list[p]].channels
              then files[list[p]].data[c][j] else ZERO
  {
    ChannelPrefixAt(files, list, c, MAX_PART, p, j);
    PartOffsetTotal(files, list);
  }

  lemma ZerosAppend(a: nat, b: nat)
    ensures Zeros(a) + Zeros(b) == Zeros(a + b)
  {
    assert forall k :: 0 <= k < a + b ==> (Zeros(a) + Zeros(b))[k] == ZERO;
  }

  /** The parts from n on fill what the parts before n leave of the total length. */
  lemma {:induction false} RemainingTotal(files: Files, list: seq<string>, n: nat)
    requires |list| <= MAX_PART && n <= MAX_PART
    ensures PartOffset(files, list, n) + Remaining(files, list, n) == TotalLength(files, list)
    decreases MAX_PART - n
  {
    if n == MAX_PART {
      PartOffsetTotal(files, list);
    } else {
      RemainingTotal(files, list, n + 1);
    }
  }

  /** Before the fill pass, a channel of TotalLength zeros is in the state of part 0. */
  lemma SilentStart(files: Files, list: seq<string>, c: nat)
    requires |list| <= MAX_PART
    ensures ChannelState(files, list, c, 0) == Zeros(TotalLength(files, list))
  {
    RemainingTotal(files, list, 0);
    assert ChannelPrefix(files, list, c, 0) == [];
  }

  /** One step of the fill pass, for a part whose samples are all zero: a channel
      holding parts 0 .. p-1 and then silence already holds parts 0 .. p and then
      silence. */
  lemma SilentPartStep(files: Files, list: seq<string>, c: nat, p: nat)
    requires p < MAX_PART
    requires PartSamples(files, list, p, c) == Zeros(PartLength(files, list, p))
    ensures ChannelState(files, list, c, p) == ChannelState(files, list, c, p + 1)
  {
    ZerosAppend(PartLength(files, list, p), Remaining(files, list, p + 1));
  }

  /** One step of the fill pass, for a part that is decoded: writing the part's
      samples over the silence at its offset turns a channel holding parts
      0 .. p-1 into one holding parts 0 .. p, the rest staying silent. */
  lemma WrittenPartStep(files: Files, list: seq<string>, c: nat, p: nat)
    requires WellFormedFiles(files) && p < MAX_PART
    ensures |PartSamples(files, list, p, c)| == PartLength(files, list, p)
    ensures PartOffset(files, list, p) + PartLength(files, list, p) <= |ChannelState(files, list, c, p)|
    ensures Splice(ChannelState(files, list, c, p), PartOffset(files, list, p), PartSamples(files, list, p, c)) ==
            ChannelState(files, list, c, p + 1)
  {
    PartSamplesLength(files, list, p, c);
    ChannelPrefixLength(files, list, c, p);
    var pre := ChannelPrefix(files, list, c, p);
    var src := PartSamples(files, list, p, c);
    var rest := Zeros(Remaining(files, list, p + 1));
    var before := ChannelState(files, list, c, p);
    ZerosAppend(|src|, |rest|);
    assert before == pre + Zeros(|src|) + rest;
    assert before[..|pre|] == pre;
    assert before[|pre| + |src|..] == rest;
  }

  /** A list made only of sentinels (the empty list too) yields silence everywhere. */
  lemma {:induction false} SilentPrefix(files: Files, list: seq<string>, c: nat, p: nat)
    requires forall i :: 0 <= i < |list| ==> list[i] == EMPTY_SOUND
    ensures ChannelPrefix(files, list, c, p) == Zeros(PartOffset(files, list, p))
  {
    if p > 0 {
      SilentPrefix(files, list, c, p - 1);
      assert Zeros(PartOffset(files, list, p - 1)) + Zeros(PartLength(files, list, p - 1)) == Zeros(PartOffset(files, list, p));
    }
  }

  lemma SilenceLaw(files: Files, list: seq<string>, c: nat)
    requires |list| <= MAX_PART
    requires forall i :: 0 <= i < |list| ==> list[i] == EMPTY_SOUND
    ensures ChannelSamples(files, list, c) == Zeros(TotalLength(files, list))
  {
    SilentPrefix(files, list, c, MAX_PART);
    PartOffsetTotal(files, list);
  }

  // ---------------------------------------------------------------------------
  // The record

  /** What a record holding the layout promises its readers: part 0 starts at 0,
      each part starts where the previous one ends, the last ends at the total
      length, and sentinel and filler parts are silent-default parts. */
  lemma LayoutConsistent(sf: Soundfile, files: Files, list: seq<string>)
    requires sf.Valid() && HoldsLayout(sf, files, list) && |list| <= MAX_PART
    ensures sf.fOffset[0] == 0
    ensures forall p :: 0 <= p < MAX_PART - 1 ==> sf.fOffset[p + 1] == sf.fOffset[p] + sf.fLength[p]
    ensures sf.fOffset[MAX_PART - 1] + sf.fLength[MAX_PART - 1] == TotalLength(files, list)
    ensures forall p :: 0 <= p < MAX_PART && (p >= |list| || list[p] == EMPTY_SOUND) ==>
              sf.fLength[p] == BUFFER_SIZE && sf.fSampleRate[p] == SAMPLE_RATE
    ensures forall p :: 0 <= p < MAX_PART ==> 0 <= sf.fOffset[p] && sf.fOffset[p] + sf.fLength[p] <= TotalLength(files, list)
  {
    PartOffsetTotal(files, list);
    forall p | 0 <= p < MAX_PART - 1
      ensures sf.fOffset[p + 1] == sf.fOffset[p] + sf.fLength[p]
    {
      assert PartOffset(files, list, p + 1) == PartOffset(files, list, p) + PartLength(files, list, p);
    }
    forall p | 0 <= p < MAX_PART && (p >= |list| || list[p] == EMPTY_SOUND)
      ensures sf.fLength[p] == BUFFER_SIZE && sf.fSampleRate[p] == SAMPLE_RATE
    {
      assert sf.fLength[p] == PartLength(files, list, p) && sf.fSampleRate[p] == PartRate(files, list, p);
    }
    forall p | 0 <= p < MAX_PART
      ensures 0 <= sf.fOffset[p] && sf.fOffset[p] + sf.fLength[p] <= TotalLength(files, list)
    {
      PartFits(files, list, p);
    }
  }

  /** The empty list: no channel, 256 silent parts of 1024 samples at 44100 Hz,
      262144 samples in all. */
  lemma EmptyListLayout(files: Files)
    ensures MaxChannels(files, []) == 0
    ensures TotalLength(files, []) == 262144
    ensures forall p: nat :: p < MAX_PART ==>
              PartLength(files, [], p) == BUFFER_SIZE && PartRate(files, [], p) == SAMPLE_RATE &&
              PartOffset(files, [], p) == p * BUFFER_SIZE
  {
    forall p: nat | p < MAX_PART
      ensures PartOffset(files, [], p) == p * BUFFER_SIZE
    {
      PaddingOffset(files, [], p);
    }
  }

  /** Inside a part of a record holding the layout, the index rule reads exactly
      that part's sample i of the channel. */
  lemma IndexReadsPart(sf: Soundfile, files: Files, list: seq<string>, c: nat, p: int, i: int)
    requires WellFormedFiles(files) && sf.Valid() && |list| <= MAX_PART && 0 <= p < MAX_PART
    requires sf.fLength[p] == PartLength(files, list, p) && sf.fOffset[p] == PartOffset(files, list, p)
    requires 0 <= i < sf.fLength[p]
    ensures 0 <= sf.Index(p, i) < |ChannelSamples(files, list, c)|
    ensures ChannelSamples(files, list, c)[sf.Index(p, i)] ==
              if p < |list| && IsFile(files, list[p]) && c < files[list[p]].channels
              then files[list[p]].data[c][i] else ZERO
  {
    ChannelSampleAt(files, list, c, p, i);
  }

  /** The index rule as documented can land one past the end of the buffer:
      the last part's index at i = fLength is the total length itself. */
  lemma IndexPastEnd(sf: Soundfile, files: Files, list: seq<string>)
    requires sf.Valid() && HoldsLayout(sf, files, list) && |list| <= MAX_PART
    ensures sf.Index(MAX_PART - 1, sf.fLength[MAX_PART - 1]) == TotalLength(files, list)
  {
    PartOffsetTotal(files, list);
  }

  /** With the position clamped to fLength - 1 every index of a non-empty part
      stays inside the buffer. */
  lemma ClampedIndexInBuffer(sf: Soundfile, files: Files, list: seq<string>, p: int, i: int)
    requires sf.Valid() && HoldsLayout(sf, files, list) && |list| <= MAX_PART
    requires 0 <= p < MAX_PART && 1 <= sf.fLength[p]
    ensures 0 <= sf.ClampedIndex(p, i) < TotalLength(files, list)
  {
    PartFits(files, list, p);
  }
}
