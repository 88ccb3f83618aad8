/** The Soundfile record handed to generated DSP code: MAX_PART parts laid out one
    after the other in a single buffer per channel, with per-part length, offset
    and sample rate. */
module Soundfiles {

  /** Length, in samples, of a silent filler part. */
  const BUFFER_SIZE: int := 1024
  /** Sample rate given to a silent filler part. */
  const SAMPLE_RATE: int := 44100
  /** Channel bound of the architecture (callers pass their own bound to the reader). */
  const MAX_CHAN: int := 64
  /** Number of parts every Soundfile holds, however many sources it was built from. */
  const MAX_PART: int := 256

  /** A sample value (FAUSTFLOAT); only the value zero matters to the layout. */
  type Sample = real
  const ZERO: Sample := 0.0

  function Min(a: int, b: int): int { if a < b then a else b }
  function Max(a: int, b: int): int { if a < b then b else a }

  /** A pointer into one channel: the channel's storage and the sample it starts at.
      Null stands for a pointer slot nobody has set. */
  datatype ChannelView = Null | At(channel: array<Sample>, start: int)

  class Soundfile {
    /** One array per allocated channel, or null for a default-constructed record. */
    var fBuffers: array?<array<Sample>>
    /** Per-part metadata; in the record these arrays are inline, so the references never change. */
    const fLength: array<int>
    const fOffset: array<int>
    const fSampleRate: array<int>
    /** Number of meaningful channels; -1 marks a record nobody has filled. */
    var fChannels: int

    /** The three metadata arrays have MAX_PART entries and do not alias. */
    ghost predicate Valid()
      reads this
    {
      fLength.Length == MAX_PART && fOffset.Length == MAX_PART && fSampleRate.Length == MAX_PART &&
      fLength != fOffset && fLength != fSampleRate && fOffset != fSampleRate
    }

    /** The channel storage exists, its arrays are pairwise distinct and at least
        fChannels of them were allocated. */
    ghost predicate HasChannels()
      reads this, fBuffers
    {
      fBuffers != null && 0 <= fChannels <= fBuffers.Length &&
      forall c, d :: 0 <= c < d < fBuffers.Length ==> fBuffers[c] != fBuffers[d]
    }

    /** The channel arrays, the objects that filling a part may write. */
    ghost function Channels(): set<object>
      reads this, fBuffers
    {
      if fBuffers == null then {} else set c | 0 <= c < fBuffers.Length :: fBuffers[c]
    }

    constructor ()
      ensures Valid()
      ensures fBuffers == null && fChannels == -1
      ensures fresh(fLength) && fresh(fOffset) && fresh(fSampleRate)
    {
      fBuffers := null;
      fLength := new int[MAX_PART];
      fOffset := new int[MAX_PART];
      fSampleRate := new int[MAX_PART];
      fChannels := -1;
    }

    /** The documented index rule idx(p, i) = fOffset[p] + max(0, min(i, fLength[p])):
        the position is clamped to the inclusive range [0, fLength[p]]. */
    function Index(p: int, i: int): (r: int)
      reads this, fLength, fOffset
      requires Valid() && 0 <= p < MAX_PART
      ensures fOffset[p] <= r <= fOffset[p] + Max(0, fLength[p])
      ensures 0 <= i <= fLength[p] ==> r == fOffset[p] + i
      ensures fLength[p] <= i ==> r == fOffset[p] + Max(0, fLength[p])
      ensures i <= 0 ==> r == fOffset[p]
    {
      fOffset[p] + Max(0, Min(i, fLength[p]))
    }

    /** The index rule with the position clamped to [0, fLength[p] - 1], so that a
        non-empty part is only ever read inside itself. */
    function ClampedIndex(p: int, i: int): (r: int)
      reads this, fLength, fOffset
      requires Valid() && 0 <= p < MAX_PART
      ensures 1 <= fLength[p] ==> fOffset[p] <= r < fOffset[p] + fLength[p]
      ensures 0 <= i < fLength[p] ==> r == fOffset[p] + i
    {
      fOffset[p] + Max(0, Min(i, fLength[p] - 1))
    }
  }
}
