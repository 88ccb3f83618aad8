/** The generic sound file reader: it merges an ordered list of path names into one
    Soundfile of MAX_PART parts, asking a decoding backend to open and read each
    real file. */
module Reader {
  import opened Wrappers
  import opened Soundfiles
  import opened Layout

  /** What opening a file reports: its channel count and its length in samples. */
  datatype Info = Info(channels: nat, length: nat)

  /** Writes `src` into `dst` from position `start` on, as decoding into a channel view does. */
  method CopyInto(dst: array<Sample>, start: int, src: seq<Sample>)
    requires 0 <= start && start + |src| <= dst.Length
    modifies dst
    ensures dst[..] == Splice(old(dst[..]), start, src)
  {
    var j := 0;
    while j < |src|
      invariant 0 <= j <= |src|
      invariant forall k :: 0 <= k < dst.Length ==>
                  dst[k] == if start <= k < start + j then src[k - start] else old(dst[k])
    {
      dst[start + j] := src[j];
      j := j + 1;
    }
    assert forall k :: 0 <= k < dst.Length ==> dst[..][k] == Splice(old(dst[..]), start, src)[k];
  }

  class SoundfileReader {
    /** The files the decoding backend can open and read. Opening and reading a
        path depends on nothing but this table: the backend is deterministic. */
    const files: Files

    constructor (files: Files)
      ensures this.files == files
    {
      this.files := files;
    }

    /** Every file of the backend holds `length` samples for each of its channels. */
    ghost predicate Valid()
    {
      WellFormedFiles(files)
    }

    /** Resolves each sound name against the sound directories with `checkFile`,
        which answers the empty string for a name it cannot find; such a name
        becomes the sentinel, so the result always has one usable entry per name. */
    static method CheckFiles(soundDirectories: seq<string>, names: seq<string>,
                             checkFile: (seq<string>, string) -> string) returns (paths: seq<string>)
      ensures |paths| == |names|
      ensures forall i :: 0 <= i < |names| ==> paths[i] != ""
      ensures forall i :: 0 <= i < |names| ==>
                (checkFile(soundDirectories, names[i]) == "" ==> paths[i] == EMPTY_SOUND) &&
                (checkFile(soundDirectories, names[i]) != "" ==> paths[i] == checkFile(soundDirectories, names[i]))
    {
      paths := [];
      var i := 0;
      while i < |names|
        invariant 0 <= i <= |names| && |paths| == i
        invariant forall k :: 0 <= k < i ==> paths[k] != ""
        invariant forall k :: 0 <= k < i ==>
                    (checkFile(soundDirectories, names[k]) == "" ==> paths[k] == EMPTY_SOUND) &&
                    (checkFile(soundDirectories, names[k]) != "" ==> paths[k] == checkFile(soundDirectories, names[k]))
      {
        var pathName := checkFile(soundDirectories, names[i]);
        paths := paths + [if pathName == "" then EMPTY_SOUND else pathName];
        i := i + 1;
      }
    }

    /** Writes a silent default part at `part` and moves the running offset past it. */
    method Empty(sf: Soundfile, part: int, offset: int, maxChan: int) returns (newOffset: int)
      requires sf.Valid() && 0 <= part < MAX_PART
      modifies sf.fLength, sf.fOffset, sf.fSampleRate
      ensures sf.fLength[..] == old(sf.fLength[..])[part := BUFFER_SIZE]
      ensures sf.fOffset[..] == old(sf.fOffset[..])[part := offset]
      ensures sf.fSampleRate[..] == old(sf.fSampleRate[..])[part := SAMPLE_RATE]
      ensures newOffset == offset + BUFFER_SIZE
    {
      sf.fLength[part] := BUFFER_SIZE;
      sf.fOffset[part] := offset;
      sf.fSampleRate[part] := SAMPLE_RATE;
      newOffset := offset + sf.fLength[part];
    }

    /** Allocates a record with maxChan zeroed channels of `length` samples, of
        which curChannels are declared meaningful. Any allocation may fail, which
        allocFailed records; a negative size fails as well. */
    method Create(curChannels: int, length: int, maxChan: int) returns (r: Option<Soundfile>, ghost allocFailed: bool)
      ensures r.None? <==> allocFailed || maxChan < 0 || (0 < maxChan && length < 0)
      ensures r.Some? ==>
                fresh(r.value) && r.value.Valid() &&
                fresh(r.value.fLength) && fresh(r.value.fOffset) && fresh(r.value.fSampleRate)
      ensures r.Some? ==>
                var sf := r.value;
                sf.fChannels == curChannels && sf.fBuffers != null && fresh(sf.fBuffers) &&
                sf.fBuffers.Length == maxChan &&
                (forall c, d :: 0 <= c < d < maxChan ==> sf.fBuffers[c] != sf.fBuffers[d]) &&
                (forall c :: 0 <= c < maxChan ==>
                   fresh(sf.fBuffers[c]) && sf.fBuffers[c].Length == length &&
                   forall j :: 0 <= j < length ==> sf.fBuffers[c][j] == ZERO)
    {
      allocFailed := false;
      if * { return None, true; }
      var sf := new Soundfile();
      if maxChan < 0 { return None, false; }
      if * { return None, true; }
      var placeholder := new Sample[0];
      var buffers := new array<Sample>[maxChan](_ => placeholder);
      sf.fBuffers := buffers;
      var chan := 0;
      while chan < maxChan
        invariant 0 <= chan <= maxChan
        invariant sf.fBuffers == buffers && sf.Valid()
        invariant 0 < chan ==> 0 <= length
        invariant !allocFailed
        invariant forall c :: 0 <= c < chan ==>
                    fresh(buffers[c]) && buffers[c].Length == length &&
                    forall j :: 0 <= j < length ==> buffers[c][j] == ZERO
        invariant forall c, d :: 0 <= c < d < chan ==> buffers[c] != buffers[d]
      {
        if length < 0 { return None, false; }
        if * { return None, true; }
        var channel := new Sample[length](_ => ZERO);
        buffers[chan] := channel;
        chan := chan + 1;
      }
      sf.fChannels := curChannels;
      return Some(sf), false;
    }

    /** Points views[c] at channel c from sample `offset` on, for each declared channel. */
    method GetBuffersOffset(sf: Soundfile, views: array<ChannelView>, offset: int)
      requires sf.fBuffers != null && sf.fChannels <= sf.fBuffers.Length && sf.fChannels <= views.Length
      modifies views
      ensures forall c :: 0 <= c < sf.fChannels ==> views[c] == At(sf.fBuffers[c], offset)
      ensures forall c :: 0 <= c < views.Length && sf.fChannels <= c ==> views[c] == old(views[c])
    {
      var chan := 0;
      while chan < sf.fChannels
        invariant 0 <= chan <= Max(0, sf.fChannels)
        invariant forall c :: 0 <= c < chan ==> views[c] == At(sf.fBuffers[c], offset)
        invariant forall c :: chan <= c < views.Length ==> views[c] == old(views[c])
      {
        views[chan] := At(sf.fBuffers[chan], offset);
        chan := chan + 1;
      }
    }

    /** The backend's open: the channel count and length of a file it knows, and failure otherwise. */
    method Open(path: string) returns (r: Option<Info>)
      ensures r.Some? <==> path in files
      ensures r.Some? ==> r.value == Info(files[path].channels, files[path].length)
    {
      if path in files {
        r := Some(Info(files[path].channels, files[path].length));
      } else {
        r := None;
      }
    }

    /** Decodes every channel of `f` through views pointing at sample `offset`
        of the record's channels; the channels the file lacks are left alone. */
    method DecodeInto(sf: Soundfile, f: AudioFile, offset: int)
      requires sf.HasChannels() && WellFormed(f) && f.channels <= sf.fChannels && 0 <= offset
      requires forall c :: 0 <= c < sf.fBuffers.Length ==> offset + f.length <= sf.fBuffers[c].Length
      modifies sf.Channels()
      ensures forall c :: 0 <= c < sf.fBuffers.Length ==>
                sf.fBuffers[c][..] ==
                  if c < f.channels then Splice(old(sf.fBuffers[c][..]), offset, f.data[c]) else old(sf.fBuffers[c][..])
    {
      var views := new ChannelView[sf.fChannels];
      GetBuffersOffset(sf, views, offset);
      var chan := 0;
      while chan < f.channels
        invariant 0 <= chan <= f.channels
        invariant forall c :: 0 <= c < sf.fChannels ==> views[c] == At(sf.fBuffers[c], offset)
        invariant forall c :: 0 <= c < sf.fBuffers.Length ==>
                    sf.fBuffers[c][..] ==
                      if c < chan then Splice(old(sf.fBuffers[c][..]), offset, f.data[c]) else old(sf.fBuffers[c][..])
      {
        CopyInto(views[chan].channel, views[chan].start, f.data[chan]);
        chan := chan + 1;
      }
    }

    /** The backend's readOne, as the reader relies on it: decode the file into the
        channel views at `offset`, record the part's length, offset and sample rate,
        and move the running offset past the part. Fails when the file does not open
        or decode. */
    method ReadOne(sf: Soundfile, path: string, part: int, offset: int, maxChan: int) returns (ok: bool, newOffset: int)
      requires Valid() && sf.Valid() && sf.HasChannels() && 0 <= part < MAX_PART
      requires path in files ==>
                 files[path].channels <= sf.fChannels && 0 <= offset &&
                 forall c :: 0 <= c < sf.fBuffers.Length ==> offset + files[path].length <= sf.fBuffers[c].Length
      modifies sf.fLength, sf.fOffset, sf.fSampleRate, sf.Channels()
      ensures ok <==> path in files && files[path].decodable
      ensures ok ==>
                var f := files[path];
                sf.fLength[..] == old(sf.fLength[..])[part := f.length] &&
                sf.fOffset[..] == old(sf.fOffset[..])[part := offset] &&
                sf.fSampleRate[..] == old(sf.fSampleRate[..])[part := f.sampleRate] &&
                newOffset == offset + f.length
      ensures ok ==>
                var f := files[path];
                forall c :: 0 <= c < sf.fBuffers.Length ==>
                  sf.fBuffers[c][..] ==
                    if c < f.channels then Splice(old(sf.fBuffers[c][..]), offset, f.data[c]) else old(sf.fBuffers[c][..])
    {
      if path !in files || !files[path].decodable {
        return false, offset;
      }
      var f := files[path];
      assert WellFormed(f);
      DecodeInto(sf, f, offset);
      sf.fLength[part] := f.length;
      sf.fOffset[part] := offset;
      sf.fSampleRate[part] := f.sampleRate;
      return true, offset + f.length;
    }

    /** One step of the fill pass: entry i becomes part i, through Empty for the
        sentinel and through ReadOne for a real file, at the running offset. */
    method FillEntry(sf: Soundfile, list: seq<string>, i: int, offset: int, maxChan: int) returns (ok: bool, newOffset: int)
      requires Valid() && sf.Valid() && sf.HasChannels()
      requires |list| <= MAX_PART && 0 <= i < |list| && Opens(files, list[i])
      requires ChannelsOf(files, list[i]) <= sf.fChannels
      requires offset == PartOffset(files, list, i)
      requires PartsHold(sf, files, list, i) && ChannelsHold(sf, files, list, i)
      modifies sf.fLength, sf.fOffset, sf.fSampleRate, sf.Channels()
      ensures ok <==> Decodes(files, list[i])
      ensures ok ==> newOffset == PartOffset(files, list, i + 1)
      ensures ok ==> PartsHold(sf, files, list, i + 1) && ChannelsHold(sf, files, list, i + 1)
    {
      PartFits(files, list, i);
      if list[i] == EMPTY_SOUND {
        newOffset := Empty(sf, i, offset, maxChan);
        ok := true;
        forall c | 0 <= c < sf.fBuffers.Length
          ensures sf.fBuffers[c][..] == ChannelState(files, list, c, i + 1)
        {
          SilentPartStep(files, list, c, i);
        }
      } else {
        ok, newOffset := ReadOne(sf, list[i], i, offset, maxChan);
        if ok {
          var f := files[list[i]];
          assert WellFormed(f);
          forall c | 0 <= c < sf.fBuffers.Length
            ensures sf.fBuffers[c][..] == ChannelState(files, list, c, i + 1)
          {
            if c < f.channels {
              WrittenPartStep(files, list, c, i);
            } else {
              SilentPartStep(files, list, c, i);
            }
          }
        }
      }
    }

    /** One step of the padding pass: part i, past the end of the list, becomes a
        silent default part. */
    method PadEntry(sf: Soundfile, list: seq<string>, i: int, offset: int, maxChan: int) returns (newOffset: int)
      requires sf.Valid() && sf.fBuffers != null
      requires |list| <= i < MAX_PART
      requires offset == PartOffset(files, list, i)
      requires PartsHold(sf, files, list, i) && ChannelsHold(sf, files, list, i)
      modifies sf.fLength, sf.fOffset, sf.fSampleRate
      ensures newOffset == PartOffset(files, list, i + 1)
      ensures PartsHold(sf, files, list, i + 1) && ChannelsHold(sf, files, list, i + 1)
    {
      newOffset := Empty(sf, i, offset, maxChan);
      forall c | 0 <= c < sf.fBuffers.Length
        ensures sf.fBuffers[c][..] == ChannelState(files, list, c, i + 1)
      {
        SilentPartStep(files, list, c, i);
      }
    }

    /** The fill pass: entry i becomes part i, for every entry of the list.
        Fails as soon as one entry does not decode. */
    method FillList(sf: Soundfile, list: seq<string>, maxChan: int) returns (ok: bool, offset: int)
      requires Valid() && sf.Valid() && sf.HasChannels()
      requires |list| <= MAX_PART && Openable(files, list) && MaxChannels(files, list) <= sf.fChannels
      requires ChannelsHold(sf, files, list, 0)
      modifies sf.fLength, sf.fOffset, sf.fSampleRate, sf.Channels()
      ensures ok <==> Loadable(files, list)
      ensures ok ==> offset == PartOffset(files, list, |list|)
      ensures ok ==> PartsHold(sf, files, list, |list|) && ChannelsHold(sf, files, list, |list|)
    {
      MaxChannelsIsMaximum(files, list);
      offset := 0;
      var i := 0;
      while i < |list|
        invariant 0 <= i <= |list|
        invariant forall k :: 0 <= k < i ==> Decodes(files, list[k])
        invariant offset == PartOffset(files, list, i)
        invariant PartsHold(sf, files, list, i) && ChannelsHold(sf, files, list, i)
      {
        ok, offset := FillEntry(sf, list, i, offset, maxChan);
        if !ok {
          return false, offset;
        }
        assert forall k :: 0 <= k < i + 1 ==> Decodes(files, list[k]);
        i := i + 1;
      }
      return true, offset;
    }

    /** The padding pass: every part past the end of the list becomes a silent default part. */
    method PadTail(sf: Soundfile, list: seq<string>, offset: int, maxChan: int)
      requires sf.Valid() && sf.fBuffers != null && |list| <= MAX_PART
      requires offset == PartOffset(files, list, |list|)
      requires PartsHold(sf, files, list, |list|) && ChannelsHold(sf, files, list, |list|)
      modifies sf.fLength, sf.fOffset, sf.fSampleRate
      ensures HoldsLayout(sf, files, list) && ChannelsHold(sf, files, list, MAX_PART)
    {
      var i := |list|;
      var off := offset;
      while i < MAX_PART
        invariant |list| <= i <= MAX_PART
        invariant off == PartOffset(files, list, i)
        invariant PartsHold(sf, files, list, i) && ChannelsHold(sf, files, list, i)
      {
        off := PadEntry(sf, list, i, off, maxChan);
        i := i + 1;
      }
    }

    /** The fill and padding passes over a freshly created record whose channels
        are silent. */
    method Fill(sf: Soundfile, list: seq<string>, maxChan: int) returns (ok: bool)
      requires Valid() && sf.Valid() && sf.HasChannels()
      requires |list| <= MAX_PART && Openable(files, list) && MaxChannels(files, list) <= sf.fChannels
      requires ChannelsHold(sf, files, list, 0)
      modifies sf.fLength, sf.fOffset, sf.fSampleRate, sf.Channels()
      ensures sf.HasChannels() && unchanged(sf.fBuffers)
      ensures ok <==> Loadable(files, list)
      ensures ok ==> HoldsLayout(sf, files, list) && ChannelsHold(sf, files, list, MAX_PART)
    {
      var offset;
      ok, offset := FillList(sf, list, maxChan);
      if ok {
        PadTail(sf, list, offset, maxChan);
      }
    }

    /** The discovery pass: opens every entry (the sentinel counts as one channel of
        BUFFER_SIZE samples) for the largest channel count and the summed length.
        Fails when an entry does not open. */
    method Discover(list: seq<string>) returns (ok: bool, curChan: int, totalLength: int)
      ensures ok <==> Openable(files, list)
      ensures ok ==> curChan == MaxChannels(files, list) && totalLength == SumLengths(files, list)
    {
      curChan, totalLength := 0, 0;
      var i := 0;
      while i < |list|
        invariant 0 <= i <= |list|
        invariant forall k :: 0 <= k < i ==> Opens(files, list[k])
        invariant curChan == MaxChannels(files, list[..i])
        invariant totalLength == SumLengths(files, list[..i])
      {
        var chan, length;
        if list[i] == EMPTY_SOUND {
          length, chan := BUFFER_SIZE, 1;
        } else {
          var info := Open(list[i]);
          if info.None? {
            return false, curChan, totalLength;
          }
          chan, length := info.value.channels, info.value.length;
        }
        curChan := Max(curChan, chan);
        totalLength := totalLength + length;
        assert list[..i + 1][..i] == list[..i];
        i := i + 1;
      }
      assert list[..i] == list;
      return true, curChan, totalLength;
    }

    /** Builds one record from the path names: the discovery pass opens every
        entry for its channel count and length, one record is allocated for all
        of them plus the filler parts, then the fill and padding passes write the
        parts. The result is None exactly when an entry does not open or decode or
        an allocation fails (allocFailed), never a partly filled record. */
    method Read(list: seq<string>, maxChan: int) returns (r: Option<Soundfile>, ghost allocFailed: bool)
      requires Valid()
      requires |list| <= MAX_PART
      requires Openable(files, list) ==> MaxChannels(files, list) <= maxChan
      ensures r.None? <==> !Loadable(files, list) || allocFailed
      ensures r.Some? ==>
                var sf := r.value;
                fresh(sf) && fresh(sf.fLength) && fresh(sf.fOffset) && fresh(sf.fSampleRate) &&
                sf.Valid() && sf.HasChannels() &&
                sf.fChannels == MaxChannels(files, list) && sf.fBuffers.Length == maxChan &&
                fresh(sf.fBuffers) && (forall c :: 0 <= c < maxChan ==> fresh(sf.fBuffers[c])) &&
                HoldsLayout(sf, files, list)
      ensures r.Some? ==>
                var sf := r.value;
                sf.fBuffers != null &&
                forall c :: 0 <= c < sf.fBuffers.Length ==>
                  sf.fBuffers[c].Length == TotalLength(files, list) &&
                  sf.fBuffers[c][..] == ChannelSamples(files, list, c)
    {
      allocFailed := false;
      var found, curChan, totalLength := Discover(list);
      if !found {
        assert !Loadable(files, list) by {
          var k :| 0 <= k < |list| && !Opens(files, list[k]);
          assert !Decodes(files, list[k]);
        }
        return None, false;
      }
      totalLength := totalLength + (MAX_PART - |list|) * BUFFER_SIZE;
      var created;
      created, allocFailed := Create(curChan, totalLength, maxChan);
      if created.None? {
        return None, allocFailed;
      }
      var sf := created.value;
      forall c | 0 <= c < maxChan
        ensures sf.fBuffers[c][..] == ChannelState(files, list, c, 0)
      {
        SilentStart(files, list, c);
      }
      var ok := Fill(sf, list, maxChan);
      if !ok {
        return None, false;
      }
      return Some(sf), false;
    }
  }
}
