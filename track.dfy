/**
  A server-side track: its MIDI sequence, the note serialiser that reports
  the sequence to clients, the playback window that feeds the sequence to
  the audio callback, its track-info record and its mute switch.

  Timestamps are reals: ticks for the events of the sequence, seconds for
  the live messages queued for the next audio block. MIDI messages are the
  raw status and data bytes, classified as the JUCE message class does.
*/
module TrackEngine {
  import opened Util
  import opened Wire

  datatype MidiMessage = MidiMessage(status: byte, data1: byte, data2: byte, time: real)

  /** The upper nibble of the status byte. */
  function Kind(m: MidiMessage): nat
  {
    m.status / 16
  }

  /** A note-on with a non-zero velocity. */
  predicate IsNoteOn(m: MidiMessage)
  {
    Kind(m) == 9 && m.data2 != 0
  }

  /** A note-off, or a note-on with velocity zero. */
  predicate IsNoteOff(m: MidiMessage)
  {
    Kind(m) == 8 || (Kind(m) == 9 && m.data2 == 0)
  }

  predicate IsNoteOnOrOff(m: MidiMessage)
  {
    Kind(m) == 8 || Kind(m) == 9
  }

  /** Channels are numbered 1 to 16; system messages have none (0). */
  function Channel(m: MidiMessage): nat
  {
    if Kind(m) != 15 then m.status % 16 + 1 else 0
  }

  /** All-notes-off on a channel: controller 123 with value 0. */
  function AllNotesOff(channel: nat, time: real): (m: MidiMessage)
    requires 1 <= channel <= 16
    ensures Kind(m) == 11 && Channel(m) == channel && m.data1 == 123 && m.data2 == 0
    ensures !IsNoteOnOrOff(m) && m.time == time
  {
    MidiMessage(0xB0 + channel - 1, 123, 0, time)
  }

  // ---------------------------------------------------------------------
  // Note pairing

  /** A note-on or note-off for the given note number on the given channel. */
  predicate KeyEvent(m: MidiMessage, note: byte, chan: nat)
  {
    m.data1 == note && Channel(m) == chan && (IsNoteOn(m) || IsNoteOff(m))
  }

  /**
    The time of the first note event at or after `j` for the note number and
    channel. A note-off found there is the partner; a note-on found first
    gets a note-off inserted just before it, at its own time, which then is
    the partner.
  */
  function MatchFrom(s: seq<MidiMessage>, j: nat, note: byte, chan: nat): Option<real>
    decreases |s| - j
  {
    if j >= |s| then None
    else if KeyEvent(s[j], note, chan) then Some(s[j].time)
    else MatchFrom(s, j + 1, note, chan)
  }

  /** The time of the note-off paired with the event at `i`, if it is a note-on that has one. */
  function NoteOffTime(s: seq<MidiMessage>, i: nat): Option<real>
    requires i < |s|
  {
    if IsNoteOn(s[i]) then MatchFrom(s, i + 1, s[i].data1, Channel(s[i])) else None
  }

  /**
    The pairing finds exactly the first later note event on the same note
    number and channel, and nothing when there is none.
  */
  lemma {:induction false} MatchFromIsFirstKeyEvent(s: seq<MidiMessage>, j: nat, note: byte, chan: nat, t: real)
    ensures MatchFrom(s, j, note, chan) == Some(t) <==>
            exists k :: j <= k < |s| && KeyEvent(s[k], note, chan) && s[k].time == t &&
                        forall m :: j <= m < k ==> !KeyEvent(s[m], note, chan)
    decreases |s| - j
  {
    if j < |s| && !KeyEvent(s[j], note, chan) {
      MatchFromIsFirstKeyEvent(s, j + 1, note, chan, t);
      if MatchFrom(s, j, note, chan) == Some(t) {
        var k :| j + 1 <= k < |s| && KeyEvent(s[k], note, chan) && s[k].time == t &&
                 forall m :: j + 1 <= m < k ==> !KeyEvent(s[m], note, chan);
        assert forall m :: j <= m < k ==> !KeyEvent(s[m], note, chan);
      }
    }
  }

  // ---------------------------------------------------------------------
  // Note records

  datatype NoteRecord = NoteRecord(key: byte, velocity: byte, on: uint32, duration: uint32)

  /** A `(juce::uint32)` cast of a timestamp: truncation, reduced modulo 2^32. */
  function CastUint32(x: real): uint32
  {
    Trunc(x) % TWO_32
  }

  /** The record written for a note-on that has a paired note-off. */
  function RecordAt(s: seq<MidiMessage>, i: nat): NoteRecord
    requires i < |s| && NoteOffTime(s, i).Some?
  {
    NoteRecord(s[i].data1, s[i].data2, CastUint32(s[i].time), CastUint32(NoteOffTime(s, i).value - s[i].time))
  }

  /** The records for the first `n` events of the sequence. */
  function NoteRecordsUpTo(s: seq<MidiMessage>, n: nat): seq<NoteRecord>
    requires n <= |s|
  {
    if n == 0 then []
    else NoteRecordsUpTo(s, n - 1) + (if NoteOffTime(s, n - 1).Some? then [RecordAt(s, n - 1)] else [])
  }

  function NoteRecords(s: seq<MidiMessage>): seq<NoteRecord>
  {
    NoteRecordsUpTo(s, |s|)
  }

  /** The positions, among the first `n`, of the note-ons that have a paired note-off. */
  function NoteIndicesUpTo(s: seq<MidiMessage>, n: nat): seq<nat>
    requires n <= |s|
  {
    if n == 0 then []
    else NoteIndicesUpTo(s, n - 1) + (if NoteOffTime(s, n - 1).Some? then [n - 1] else [])
  }

  /**
    One record per note-on that has a paired note-off, in sequence order,
    and no other: the k-th record describes the k-th such event.
  */
  lemma {:induction false} NoteRecordsAreMatchedNoteOns(s: seq<MidiMessage>, n: nat)
    requires n <= |s|
    ensures var idx := NoteIndicesUpTo(s, n);
            var recs := NoteRecordsUpTo(s, n);
            |recs| == |idx| &&
            (forall k :: 0 <= k < |idx| ==> idx[k] < n && NoteOffTime(s, idx[k]).Some? && recs[k] == RecordAt(s, idx[k])) &&
            (forall k, l :: 0 <= k < l < |idx| ==> idx[k] < idx[l]) &&
            (forall i :: 0 <= i < n && NoteOffTime(s, i).Some? ==> i in idx)
  {
    if n > 0 {
      NoteRecordsAreMatchedNoteOns(s, n - 1);
    }
  }

  /** The duration of every record is its note-off time minus its note-on time. */
  lemma DurationIsOffMinusOn(s: seq<MidiMessage>, i: nat)
    requires i < |s| && NoteOffTime(s, i).Some?
    ensures IsNoteOn(s[i])
    ensures exists k :: i < k < |s| && KeyEvent(s[k], s[i].data1, Channel(s[i])) &&
                        (forall m :: i < m < k ==> !KeyEvent(s[m], s[i].data1, Channel(s[i]))) &&
                        RecordAt(s, i).duration == CastUint32(s[k].time - s[i].time)
  {
    MatchFromIsFirstKeyEvent(s, i + 1, s[i].data1, Channel(s[i]), NoteOffTime(s, i).value);
  }

  // ---------------------------------------------------------------------
  // The MIDI data packet body

  function NoteTokens(r: NoteRecord): seq<Token>
  {
    [TU8(r.key), TU8(r.velocity), TU32(r.on), TU32(r.duration)]
  }

  function RecordTokens(recs: seq<NoteRecord>): seq<Token>
  {
    if recs == [] then [] else NoteTokens(recs[0]) + RecordTokens(recs[1..])
  }

  /** The uuid, the note count cast through an unsigned char, then every record. */
  function MidiDataTokens(uuid: string, recs: seq<NoteRecord>): seq<Token>
  {
    [TString(uuid), TU16(ToUint8(|recs|))] + RecordTokens(recs)
  }

  lemma {:induction false} RecordTokensAppend(a: seq<NoteRecord>, b: seq<NoteRecord>)
    ensures RecordTokens(a + b) == RecordTokens(a) + RecordTokens(b)
    ensures |RecordTokens(a)| == 4 * |a|
  {
    if a != [] {
      assert (a + b)[0] == a[0];
      assert (a + b)[1..] == a[1..] + b;
      RecordTokensAppend(a[1..], b);
    } else {
      assert a + b == b;
    }
  }

  lemma RecordTokensSnoc(recs: seq<NoteRecord>, j: nat)
    requires j < |recs|
    ensures RecordTokens(recs[..j + 1]) == RecordTokens(recs[..j]) + NoteTokens(recs[j])
  {
    RecordTokensAppend(recs[..j], [recs[j]]);
    assert recs[..j + 1] == recs[..j] + [recs[j]];
    assert RecordTokens([recs[j]]) == NoteTokens(recs[j]);
  }

  /** Reads `n` note records: u8 key, u8 velocity, u32 on-time, u32 duration each. */
  function NotesOf(ts: seq<Token>, n: nat): Option<Taken<seq<NoteRecord>>>
  {
    if n == 0 then Some(Taken([], ts))
    else if |ts| >= 4 && ts[0].TU8? && ts[1].TU8? && ts[2].TU32? && ts[3].TU32? then
      match NotesOf(ts[4..], n - 1)
      case None => None
      case Some(more) =>
        Some(Taken([NoteRecord(ts[0].u8, ts[1].u8, ts[2].u32, ts[3].u32)] + more.value, more.rest))
    else None
  }

  /** Reads a MIDI data body the way its count field announces it. */
  function MidiDataOf(ts: seq<Token>): Option<Taken<(string, seq<NoteRecord>)>>
  {
    match StringOf(ts)
    case None => None
    case Some(uuid) =>
      match U16Of(uuid.rest)
      case None => None
      case Some(count) =>
        match NotesOf(count.rest, count.value)
        case None => None
        case Some(notes) => Some(Taken((uuid.value, notes.value), notes.rest))
  }

  lemma {:induction false} NotesOfRecordTokens(recs: seq<NoteRecord>, rest: seq<Token>)
    ensures NotesOf(RecordTokens(recs) + rest, |recs|) == Some(Taken(recs, rest))
  {
    if recs != [] {
      var ts := RecordTokens(recs) + rest;
      assert ts == NoteTokens(recs[0]) + (RecordTokens(recs[1..]) + rest);
      assert ts[..4] == NoteTokens(recs[0]);
      assert ts[4..] == RecordTokens(recs[1..]) + rest;
      NotesOfRecordTokens(recs[1..], rest);
      assert [recs[0]] + recs[1..] == recs;
    } else {
      assert RecordTokens(recs) + rest == rest;
    }
  }

  /** Fewer than 256 notes: the body reads back as the uuid and every record. */
  lemma MidiDataRoundTrip(uuid: string, recs: seq<NoteRecord>, rest: seq<Token>)
    requires |recs| < 256
    ensures MidiDataOf(MidiDataTokens(uuid, recs) + rest) == Some(Taken((uuid, recs), rest))
  {
    var ts := MidiDataTokens(uuid, recs) + rest;
    assert ts[1..][1..] == RecordTokens(recs) + rest;
    NotesOfRecordTokens(recs, rest);
  }

  /**
    256 notes or more: the count field holds the number of notes modulo 256
    while every record is written, so a reader that trusts the count stops
    early and leaves the records after the first `|recs| % 256` unread.
  */
  lemma CountFieldWraps(uuid: string, recs: seq<NoteRecord>)
    requires |recs| >= 256
    ensures MidiDataTokens(uuid, recs)[1] == TU16(|recs| % 256) && |recs| % 256 < |recs|
    ensures |MidiDataTokens(uuid, recs)| == 2 + 4 * |recs|
    ensures var short := |recs| % 256;
            MidiDataOf(MidiDataTokens(uuid, recs)) ==
              Some(Taken((uuid, recs[..short]), RecordTokens(recs[short..]))) &&
            |RecordTokens(recs[short..])| >= 4 * 256
  {
    var short := |recs| % 256;
    assert recs == recs[..short] + recs[short..];
    RecordTokensAppend(recs[..short], recs[short..]);
    RecordTokensAppend(recs[short..], []);
    var ts := MidiDataTokens(uuid, recs);
    assert ts[1..][1..] == RecordTokens(recs[..short]) + RecordTokens(recs[short..]);
    NotesOfRecordTokens(recs[..short], RecordTokens(recs[short..]));
  }

  // ---------------------------------------------------------------------
  // Adding events to the sequence

  /** Events sorted by time, as a MIDI message sequence keeps them. */
  ghost predicate SortedByTime(s: seq<MidiMessage>)
  {
    forall i, j :: 0 <= i < j < |s| ==> s[i].time <= s[j].time
  }

  /** Where a new event with time `t` goes: after every event not later than `t`. */
  function InsertPos(s: seq<MidiMessage>, t: real): (r: nat)
    ensures r <= |s|
  {
    if s == [] || s[|s| - 1].time <= t then |s| else InsertPos(s[..|s| - 1], t)
  }

  /** Adding one event to the sequence. */
  function Insert(s: seq<MidiMessage>, m: MidiMessage): seq<MidiMessage>
  {
    s[..InsertPos(s, m.time)] + [m] + s[InsertPos(s, m.time)..]
  }

  /** In a sorted sequence the insertion point separates the events up to `t` from the later ones. */
  lemma {:induction false} InsertPosSplits(s: seq<MidiMessage>, t: real)
    requires SortedByTime(s)
    ensures forall k :: 0 <= k < InsertPos(s, t) ==> s[k].time <= t
    ensures forall k :: InsertPos(s, t) <= k < |s| ==> s[k].time > t
  {
    if s != [] && s[|s| - 1].time > t {
      InsertPosSplits(s[..|s| - 1], t);
    }
  }

  /** Adding an event keeps the sequence sorted and adds exactly that event. */
  lemma InsertKeepsSorted(s: seq<MidiMessage>, m: MidiMessage)
    requires SortedByTime(s)
    ensures SortedByTime(Insert(s, m))
    ensures multiset(Insert(s, m)) == multiset(s) + multiset{m}
    ensures |Insert(s, m)| == |s| + 1
  {
    var p := InsertPos(s, m.time);
    InsertPosSplits(s, m.time);
    assert s == s[..p] + s[p..];
  }

  /** Adding the events `ms` one after the other. */
  function InsertAll(s: seq<MidiMessage>, ms: seq<MidiMessage>): seq<MidiMessage>
  {
    if ms == [] then s else Insert(InsertAll(s, ms[..|ms| - 1]), ms[|ms| - 1])
  }

  lemma {:induction false} InsertAllKeepsSorted(s: seq<MidiMessage>, ms: seq<MidiMessage>)
    requires SortedByTime(s)
    ensures SortedByTime(InsertAll(s, ms))
    ensures multiset(InsertAll(s, ms)) == multiset(s) + multiset(ms)
  {
    if ms != [] {
      var init, last := ms[..|ms| - 1], ms[|ms| - 1];
      InsertAllKeepsSorted(s, init);
      InsertKeepsSorted(InsertAll(s, init), last);
      assert multiset(ms) == multiset(init) + multiset{last} by {
        assert ms == init + [last];
      }
    }
  }

  /** A message moved from its own time base to ticks at the master's resolution. */
  function Rescale(m: MidiMessage, timeFormat: int, ppq: int): MidiMessage
    requires timeFormat != 0
  {
    m.(time := RoundToInt(m.time / timeFormat as real * ppq as real) as real)
  }

  /** The note-on and note-off messages of `es`, rescaled, in order. */
  function Rescaled(es: seq<MidiMessage>, timeFormat: int, ppq: int): seq<MidiMessage>
    requires timeFormat != 0
  {
    if es == [] then []
    else
      var last := es[|es| - 1];
      Rescaled(es[..|es| - 1], timeFormat, ppq) + (if IsNoteOnOrOff(last) then [Rescale(last, timeFormat, ppq)] else [])
  }

  /**
    Exactly the note-on and note-off messages are taken, each with its time
    rounded to whole ticks and its bytes unchanged.
  */
  lemma {:induction false} RescaledKeepsNotes(es: seq<MidiMessage>, timeFormat: int, ppq: int)
    requires timeFormat != 0
    ensures forall m :: m in Rescaled(es, timeFormat, ppq) ==>
              IsNoteOnOrOff(m) && m.time == (m.time.Floor) as real &&
              exists e :: e in es && m == Rescale(e, timeFormat, ppq)
    ensures forall e :: e in es && IsNoteOnOrOff(e) ==> Rescale(e, timeFormat, ppq) in Rescaled(es, timeFormat, ppq)
  {
    if es != [] {
      var init := es[..|es| - 1];
      RescaledKeepsNotes(init, timeFormat, ppq);
      assert es == init + [es[|es| - 1]];
      assert forall e :: e in init ==> e in es;
    }
  }

  // ---------------------------------------------------------------------
  // The playback window

  /** The first position whose event is not earlier than `t` (the whole length if none). */
  function FirstAtOrAfter(s: seq<MidiMessage>, t: real): (r: nat)
    ensures r <= |s|
    ensures forall k :: 0 <= k < r ==> s[k].time < t
    ensures r < |s| ==> s[r].time >= t
  {
    if s == [] || s[0].time >= t then 0 else 1 + FirstAtOrAfter(s[1..], t)
  }

  /** The events with `start <= time < end`, in sequence order. */
  function Window(s: seq<MidiMessage>, start: real, end: real): seq<MidiMessage>
  {
    if s == [] then []
    else
      var last := s[|s| - 1];
      Window(s[..|s| - 1], start, end) + (if start <= last.time < end then [last] else [])
  }

  lemma {:induction false} WindowAppend(a: seq<MidiMessage>, b: seq<MidiMessage>, start: real, end: real)
    ensures Window(a + b, start, end) == Window(a, start, end) + Window(b, start, end)
    decreases |b|
  {
    if b == [] {
      assert a + b == a;
    } else {
      var init := b[..|b| - 1];
      assert (a + b)[..|a + b| - 1] == a + init;
      WindowAppend(a, init, start, end);
    }
  }

  lemma {:induction false} WindowNone(s: seq<MidiMessage>, start: real, end: real)
    requires forall k :: 0 <= k < |s| ==> !(start <= s[k].time < end)
    ensures Window(s, start, end) == []
  {
    if s != [] {
      WindowNone(s[..|s| - 1], start, end);
    }
  }

  lemma {:induction false} WindowAll(s: seq<MidiMessage>, start: real, end: real)
    requires forall k :: 0 <= k < |s| ==> start <= s[k].time < end
    ensures Window(s, start, end) == s
  {
    if s != [] {
      WindowAll(s[..|s| - 1], start, end);
      assert s == s[..|s| - 1] + [s[|s| - 1]];
    }
  }

  lemma WindowOfRun(before: seq<MidiMessage>, run: seq<MidiMessage>, after: seq<MidiMessage>, start: real, end: real)
    requires forall k :: 0 <= k < |before| ==> before[k].time < start
    requires forall k :: 0 <= k < |run| ==> start <= run[k].time < end
    requires forall k :: 0 <= k < |after| ==> after[k].time >= end
    ensures Window(before + run + after, start, end) == run
  {
    WindowNone(before, start, end);
    WindowAll(run, start, end);
    WindowNone(after, start, end);
    WindowAppend(before + run, after, start, end);
    WindowAppend(before, run, start, end);
  }

  /**
    On a sorted sequence, the run that starts at the first event not earlier
    than `start` and stops before the first event not earlier than `end` is
    exactly the window `[start, end)`.
  */
  lemma WindowIsRun(s: seq<MidiMessage>, start: real, end: real, hi: nat)
    requires SortedByTime(s)
    requires FirstAtOrAfter(s, start) <= hi <= |s|
    requires forall k :: FirstAtOrAfter(s, start) <= k < hi ==> s[k].time < end
    requires hi < |s| ==> s[hi].time >= end
    ensures Window(s, start, end) == s[FirstAtOrAfter(s, start)..hi]
  {
    var lo := FirstAtOrAfter(s, start);
    var before, run, after := s[..lo], s[lo..hi], s[hi..];
    assert forall k :: 0 <= k < |before| ==> before[k].time < start by {
      forall k | 0 <= k < |before| ensures before[k].time < start { assert before[k] == s[k]; }
    }
    assert forall k :: 0 <= k < |run| ==> start <= run[k].time < end by {
      forall k | 0 <= k < |run| ensures start <= run[k].time < end { assert run[k] == s[lo + k]; }
    }
    assert forall k :: 0 <= k < |after| ==> after[k].time >= end by {
      forall k | 0 <= k < |after| ensures after[k].time >= end { assert after[k] == s[hi + k]; }
    }
    assert before + run == s[..hi];
    assert s[..hi] + after == s;
    WindowOfRun(before, run, after, start, end);
  }

  lemma RescaledSnoc(es: seq<MidiMessage>, e: MidiMessage, timeFormat: int, ppq: int)
    requires timeFormat != 0
    ensures Rescaled(es + [e], timeFormat, ppq) ==
            Rescaled(es, timeFormat, ppq) + (if IsNoteOnOrOff(e) then [Rescale(e, timeFormat, ppq)] else [])
  {
    assert (es + [e])[..|es|] == es;
  }

  lemma InsertAllSnoc(s: seq<MidiMessage>, ms: seq<MidiMessage>, m: MidiMessage)
    ensures InsertAll(s, ms + [m]) == Insert(InsertAll(s, ms), m)
  {
    assert (ms + [m])[..|ms|] == ms;
  }

  /** One loop step of adding events: a note event is inserted rescaled, anything else is skipped. */
  lemma AddEventStep(s0: seq<MidiMessage>, events: seq<MidiMessage>, i: nat, timeFormat: int, ppq: int)
    requires timeFormat != 0 && i < |events|
    ensures var before := InsertAll(s0, Rescaled(events[..i], timeFormat, ppq));
            InsertAll(s0, Rescaled(events[..i + 1], timeFormat, ppq)) ==
              if IsNoteOnOrOff(events[i]) then Insert(before, Rescale(events[i], timeFormat, ppq)) else before
  {
    assert events[..i + 1] == events[..i] + [events[i]];
    RescaledSnoc(events[..i], events[i], timeFormat, ppq);
    if IsNoteOnOrOff(events[i]) {
      InsertAllSnoc(s0, Rescaled(events[..i], timeFormat, ppq), Rescale(events[i], timeFormat, ppq));
    } else {
      assert Rescaled(events[..i], timeFormat, ppq) + [] == Rescaled(events[..i], timeFormat, ppq);
    }
  }

  /**
    The import loop: each note event of `events`, rescaled to the master's
    ticks, is inserted into `s` in turn; any other event is skipped.
  */
  method InsertNoteEvents(s: seq<MidiMessage>, events: seq<MidiMessage>, timeFormat: int, ppq: int)
    returns (r: seq<MidiMessage>)
    requires timeFormat != 0
    ensures r == InsertAll(s, Rescaled(events, timeFormat, ppq))
  {
    r := s;
    var i := 0;
    while i < |events|
      invariant i <= |events|
      invariant r == InsertAll(s, Rescaled(events[..i], timeFormat, ppq))
    {
      AddEventStep(s, events, i, timeFormat, ppq);
      if IsNoteOnOrOff(events[i]) {
        r := Insert(r, Rescale(events[i], timeFormat, ppq));
      }
      i := i + 1;
    }
    assert events[..|events|] == events;
  }

  /** The transport of the master track, as the audio callback reads it. */
  datatype PositionInfo = PositionInfo(isPlaying: bool, ppqPosition: real, bpm: real)

  /** The number of ticks one audio block of `sampleCount` samples spans. */
  function BlockTicks(sampleCount: nat, sampleRate: real, bpm: real, ppq: int): real
    requires sampleRate > 0.0
  {
    sampleCount as real / sampleRate / 60.0 * bpm * ppq as real
  }

  class Track {
    var name: string
    var color: string
    const uuid: string
    /** The linear gain of the track's gain stage. */
    var gain: real
    /** Whether the track has a current processing node. */
    var hasNode: bool
    /** The current node's bypass state. */
    var bypassed: bool
    /** The track's MIDI sequence, timestamps in ticks. */
    var midiSequence: seq<MidiMessage>
    /** Live messages waiting for the next audio block, timestamps in seconds. */
    var queue: seq<MidiMessage>

    ghost predicate Valid()
      reads this`midiSequence
    {
      SortedByTime(midiSequence)
    }

    /** A new track: unit gain, no notes, and no current node, which the constructor never sets. */
    constructor (name: string, color: string, uuid: string)
      ensures Valid()
      ensures this.name == name && this.color == color && this.uuid == uuid
      ensures gain == 1.0 && !hasNode && !bypassed && midiSequence == [] && queue == []
    {
      this.name := name;
      this.color := color;
      this.uuid := uuid;
      gain := 1.0;
      hasNode := false;
      bypassed := false;
      midiSequence := [];
      queue := [];
    }

    /** A live message for the next audio block. */
    method AddMessageToQueue(m: MidiMessage)
      modifies this`queue
      ensures queue == old(queue) + [m]
    {
      queue := queue + [m];
    }

    /** The note records, one per note-on that has a paired note-off, in sequence order. */
    method CollectNotes() returns (arr: seq<NoteRecord>)
      ensures arr == NoteRecords(midiSequence)
    {
      arr := [];
      var i := 0;
      while i < |midiSequence|
        invariant i <= |midiSequence|
        invariant arr == NoteRecordsUpTo(midiSequence, i)
      {
        var m := midiSequence[i];
        if IsNoteOn(m) {
          var off := MatchFrom(midiSequence, i + 1, m.data1, Channel(m));
          if off.Some? {
            arr := arr + [NoteRecord(m.data1, m.data2, CastUint32(m.time), CastUint32(off.value - m.time))];
          }
        }
        i := i + 1;
      }
    }

    /**
      The note report: the uuid, the number of paired note-ons cast through
      an unsigned char, then key, velocity, on-time and duration per note.
    */
    method WriteMidiData(buf: ByteBuffer)
      modifies buf
      ensures buf.tokens == old(buf.tokens) + MidiDataTokens(uuid, NoteRecords(midiSequence))
    {
      buf.WriteString(uuid);
      var arr := CollectNotes();
      buf.WriteUInt16(ToUint8(|arr|));
      ghost var header := buf.tokens;
      var j := 0;
      while j < |arr|
        invariant j <= |arr|
        invariant buf.tokens == header + RecordTokens(arr[..j])
      {
        RecordTokensSnoc(arr, j);
        buf.WriteUInt8(arr[j].key);
        buf.WriteUInt8(arr[j].velocity);
        buf.WriteUInt32(arr[j].on);
        buf.WriteUInt32(arr[j].duration);
        j := j + 1;
      }
      assert arr[..|arr|] == arr;
    }

    /**
      Adds the note events of an imported sequence, rescaled from its time
      format to the master's ticks, and returns the body of the note report
      that is then sent to the client.
    */
    method AddMidiEvents(events: seq<MidiMessage>, timeFormat: int, ppq: int) returns (packet: seq<Token>)
      requires Valid() && timeFormat != 0
      modifies this`midiSequence
      ensures Valid()
      ensures midiSequence == InsertAll(old(midiSequence), Rescaled(events, timeFormat, ppq))
      ensures packet == MidiDataTokens(uuid, NoteRecords(midiSequence))
    {
      InsertAllKeepsSorted(midiSequence, Rescaled(events, timeFormat, ppq));
      midiSequence := InsertNoteEvents(midiSequence, events, timeFormat, ppq);
      var buf := new ByteBuffer();
      WriteMidiData(buf);
      packet := buf.tokens;
    }

    /**
      Fills one audio block: while the transport plays, the sequence's events
      of the block's tick window, in order; then every queued live message.
      The queue is left empty.
    */
    method AddMidiEventsToBuffer(sampleCount: nat, midiMessages: seq<MidiMessage>, info: PositionInfo, sampleRate: real, ppq: int)
      returns (midi: seq<MidiMessage>)
      requires Valid() && sampleRate > 0.0
      modifies this`queue
      ensures midi == midiMessages +
                (if info.isPlaying
                 then Window(midiSequence, info.ppqPosition, info.ppqPosition + BlockTicks(sampleCount, sampleRate, info.bpm, ppq))
                 else []) +
                old(queue)
      ensures queue == []
    {
      midi := midiMessages;
      if info.isPlaying {
        var startTime := info.ppqPosition;
        var totalTime := BlockTicks(sampleCount, sampleRate, info.bpm, ppq);
        var endTime := startTime + totalTime;
        var run := EventsInWindow(startTime, endTime);
        midi := midi + run;
      }
      midi := midi + queue;
      queue := [];
    }

    /**
      The sequence's events from the first one not earlier than `startTime`
      up to, not including, the first one not earlier than `endTime`.
    */
    method EventsInWindow(startTime: real, endTime: real) returns (run: seq<MidiMessage>)
      requires Valid()
      ensures run == Window(midiSequence, startTime, endTime)
    {
      run := [];
      var lo := FirstAtOrAfter(midiSequence, startTime);
      var i := lo;
      while i < |midiSequence| && midiSequence[i].time < endTime
        invariant lo <= i <= |midiSequence|
        invariant forall k :: lo <= k < i ==> midiSequence[k].time < endTime
        invariant run == midiSequence[lo..i]
      {
        assert midiSequence[lo..i + 1] == midiSequence[lo..i] + [midiSequence[i]];
        run := run + [midiSequence[i]];
        i := i + 1;
      }
      WindowIsRun(midiSequence, startTime, endTime, i);
    }

    /** The track-info record: name, color, gain, bypass state, then a constant `false` for solo. */
    method WriteTrackInfo(buf: ByteBuffer)
      requires hasNode
      modifies buf
      ensures buf.tokens == old(buf.tokens) + [TString(name), TString(color), TFloat(gain), TBool(bypassed), TBool(false)]
    {
      buf.WriteString(name);
      buf.WriteString(color);
      buf.WriteFloat(gain);
      buf.WriteBoolean(bypassed);
      buf.WriteBoolean(false);
    }

    /**
      Muting: without a current node nothing happens; otherwise an
      all-notes-off on channel 1, stamped with the current time in seconds,
      is queued and the node's bypass state is set.
    */
    method SetMuted(val: bool, millis: real)
      modifies this`queue, this`bypassed
      ensures hasNode ==> queue == old(queue) + [AllNotesOff(1, millis * 0.001)] && bypassed == val
      ensures !hasNode ==> queue == old(queue) && bypassed == old(bypassed)
    {
      if !hasNode {
        return;
      }
      var msg := AllNotesOff(1, 0.0).(time := millis * 0.001);
      queue := queue + [msg];
      bypassed := val;
    }
  }
}
