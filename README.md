# EIM track, mixer and packet core in Dafny

EIM is a DAW: a C++ (JUCE) audio server and a React web client that talk over a
WebSocket. This project models four pieces of it and proves properties about
them.

- **Server track** (`track.dfy`, module `TrackEngine`). A track holds a time-sorted
  MIDI sequence and a queue of live messages. The model covers four operations:
  - the note report: each note-on paired with its note-off, written as key,
    velocity, start and duration, after a count field;
  - the import of a MIDI file's note events, rescaled to the master's ticks;
  - the playback window that feeds one audio block;
  - the track-info record and the mute switch.
- **Server packet handler** (`handler.dfy`, module `PacketHandler`). It reads a
  one-byte opcode, then the fields of that request in a fixed order. It covers:
  - plugin-explorer queries: the set of manufacturers, or one manufacturer's
    plugins;
  - track creation, optionally loading a plugin named by its file;
  - refresh;
  - live MIDI input queued on a track, with the guard for a track index past
    the end.
- **Client mixer** (`mixer.dfy`, module `Mixer`, with the byte cursor in `cursor.dfy`).
  - A TrackMixerInfo packet is a count byte, then per track a 64-bit id, a
    signed pan, a pan rule and the plugin names.
  - The handler decodes it into a table. A packet of exactly one record is
    merged into the cached table; any other count replaces the table.
  - It also models the two-thumb pan slider and the choice of which tracks get
    a mixer strip.
- **Client track list** (`tracks_view.dfy`, module `TrackList`, with the shared
  client commands in `client.dfy`, module `Client`). It covers:
  - the zoom levels and the zoom step;
  - the redraw-notifier table that lanes register in and leave;
  - the track rows from position 1 on;
  - the commands that the mute, color, volume and add-track controls send, with
    the "leave unchanged" sentinels of update-track-info.

`wire.dfy` (module `Wire`) models the server's packet buffers as sequences of
typed values. `util.dfy` holds Option, the byte type and the casts and rounding
the C++ code performs.

The imperative code stays imperative in the model:
- the tracks, the application, the buffers, the cursor, the mixer view and the
  notifier table are classes whose methods update their fields;
- the source's loops are `while`/`for` loops whose invariants tie them to
  specification functions;
- the properties are proved about those functions as lemmas.

## Model

| member | source | states |
|---|---|---|
| Cursor.ByteCursor.ReadUint8 | web/src/components/Mixer.tsx:130 | reads one byte and advances by one, or fails when the packet is exhausted, leaving the offset alone |
| Cursor.ByteCursor.ReadUint64 | web/src/components/Mixer.tsx:134 | reads an 8-byte big-endian id and advances by eight, or fails without moving |
| Cursor.ByteCursor.ReadInt8 | web/src/components/Mixer.tsx:135 | reads one byte as two's complement in [-128, 128) |
| Cursor.ByteCursor.ReadIString | web/src/components/Mixer.tsx:139 | reads a length byte and that many bytes, or fails without moving when fewer remain |
| Cursor.UintOfEncoded | web/src/components/Mixer.tsx:134 | reading a w-byte integer from its big-endian encoding gives it back and leaves exactly the bytes that followed |
| Cursor.Int8OfEncoded | web/src/components/Mixer.tsx:135 | the signed pan byte reads back as the pan |
| Cursor.IStringOfEncoded | web/src/components/Mixer.tsx:139 | a length-prefixed name reads back as the name |
| Mixer.RecordOfFields | web/src/components/Mixer.tsx:134-139 | the handler's field-by-field reads (id, pan, pan rule, plugin count, names) decode the same record as the record decoder |
| Mixer.PacketOfWidth | web/src/components/Mixer.tsx:130-140 | a decoded packet holds exactly `count` (< 256) records, each within its field ranges, and consumes exactly their bytes |
| Mixer.PluginsRoundTrip | web/src/components/Mixer.tsx:139 | n encoded names decode to the same names in the same order |
| Mixer.RecordRoundTrip | web/src/components/Mixer.tsx:134-139 | an encoded record decodes to itself |
| Mixer.PacketRoundTrip | web/src/components/Mixer.tsx:130-140 | an encoded packet decodes to the same count and records, leaving the trailing bytes |
| Mixer.ReadPlugins | web/src/components/Mixer.tsx:139 | the inner loop reads exactly the plugin names the decoder specifies, or reports the short read |
| Mixer.ReadRecord | web/src/components/Mixer.tsx:134-139 | the reads of one record, in source order, yield the decoder's record |
| Mixer.ReadRecords | web/src/components/Mixer.tsx:133-140 | the outer loop builds the table of the decoded records, a later record for an id replacing an earlier one |
| Mixer.MixerView.OnTrackMixerInfo | web/src/components/Mixer.tsx:129-142 | the cached table becomes the merge or the replacement that the decoded packet calls for; a truncated packet leaves it unchanged |
| Mixer.ToTableKeys | web/src/components/Mixer.tsx:132-134 | the table has an entry for exactly the ids in the packet |
| Mixer.ToTableLastWins | web/src/components/Mixer.tsx:134 | each entry is the last record for its id |
| Mixer.OverlayWhenOne | web/src/components/Mixer.tsx:131-141 | a count of 1 changes that one track's entry and keeps every other entry and every absence |
| Mixer.ReplaceWhenNotOne | web/src/components/Mixer.tsx:131-141 | any other count replaces the table by the packet's records; a count of 0 empties it |
| Mixer.SnapshotThenDelta | web/src/components/Mixer.tsx:141 | a full snapshot followed by a one-track delta keeps the snapshot with only that track changed |
| Mixer.PanThumbsRoundTrip | web/src/components/Mixer.tsx:47 | the thumb pair for a pan has one thumb at zero and stands for that pan |
| Mixer.SyncPanShowsPan | web/src/components/Mixer.tsx:46-48 | syncing with the table's pan always shows that pan, keeps a pair that already shows it, and is idempotent |
| Mixer.PanSliderChangeKeepsPan | web/src/components/Mixer.tsx:74-79 | a slider move renormalises the pair without changing the pan it stands for |
| Mixer.PluginSlotIsWirePosition | web/src/components/Mixer.tsx:105 | the k-th plugin name of a track on the wire becomes its k-th button, which opens plugin slot k |
| Mixer.RenderStrips | web/src/components/Mixer.tsx:147-149 | one strip per track that has a table entry, in list order, each with its position in the global list; no such track is skipped |
| Client.MuteToggleFlipsOnlyMuted | web/components/Tracks.tsx:43 | the mute button sends one update for its track with no name, no color and the volume -1, the flipped `muted` and the current `solo`; under the sentinel convention only `muted` changes |
| Client.ColorChangeSetsOnlyColor | web/components/Tracks.tsx:34 | the color picker sends one update for its track with no name, the color `#` plus the hex, the volume -1 and the current `muted` and `solo`; under the sentinel convention only the color changes |
| Client.VolumeChangeOptimisticAgrees | web/components/Tracks.tsx:54-58 | the volume slider sends an update carrying the slider's volume, no name and no color, the current `muted` and `solo`, then dispatches the same volume for the same track; the local update gives that track what the command describes and leaves the other tracks alone |
| Client.AddTrackNamesNextTrack | web/components/Tracks.tsx:156 | "add track" asks for a track with no plugin, named 轨道 followed by the decimal of the track count plus one |
| TrackList.ZoomStep | web/components/Tracks.tsx:139 | a zoom step lands on an existing level from any level |
| TrackList.ZoomStepMovesOneLevel | web/components/Tracks.tsx:139 | from an existing level a step moves by one level unless it is at the end; down never widens the notes and up never narrows them |
| TrackList.NoteWidthsIncrease | web/components/Tracks.tsx:104 | the tick widths increase strictly with the level |
| TrackList.NotifierRegistry.Mount | web/components/Tracks.tsx:69 | mounting a lane sets the entry under its track's uuid and no other |
| TrackList.NotifierRegistry.Unmount | web/components/Tracks.tsx:70 | unmounting deletes the entry under its track's uuid and no other |
| TrackList.MountThenUnmountRestores | web/components/Tracks.tsx:68-71 | a mount and its unmount restore the table when the track had no entry, and keep every other track's entry |
| TrackList.TrackRows | web/components/Tracks.tsx:118-129 | one control row and one lane per track from position 1 on, in order; the master track gets neither; a lane carries the track's notes when they have arrived |
| TrackEngine.AllNotesOff | src/Track.cpp:123 | the mute message is controller 123 with value 0 on the given channel, not a note event |
| TrackEngine.MatchFromIsFirstKeyEvent | src/Track.cpp:87 | a note-on is paired with the first later note event of the same note number and channel, and with nothing when there is none |
| TrackEngine.NoteRecordsAreMatchedNoteOns | src/Track.cpp:88-92 | one record per paired note-on, in sequence order, and no other |
| TrackEngine.DurationIsOffMinusOn | src/Track.cpp:90-91 | a record's duration is its partner's time minus its own, cast to 32 bits |
| TrackEngine.Track.CollectNotes | src/Track.cpp:86-92 | the collection loop yields exactly the paired note-ons' records |
| TrackEngine.Track.WriteMidiData | src/Track.cpp:84-103 | the report is the uuid, the count through an unsigned char, then key, velocity, on-time and duration per note |
| TrackEngine.MidiDataRoundTrip | src/Track.cpp:93-102 | with fewer than 256 notes, the report reads back as the uuid and every record |
| TrackEngine.CountFieldWraps | src/Track.cpp:93 | with 256 notes or more the count field holds the number modulo 256, so a reader that trusts it takes a prefix and leaves at least 256 records unread |
| TrackEngine.InsertKeepsSorted | src/Track.cpp:69 | adding an event keeps the sequence sorted and adds exactly that event |
| TrackEngine.InsertAllKeepsSorted | src/Track.cpp:65-70 | adding many events keeps the sequence sorted and adds exactly those events |
| TrackEngine.RescaledKeepsNotes | src/Track.cpp:66-68 | exactly the note-on and note-off events are taken, each with its time rounded to whole ticks |
| TrackEngine.InsertNoteEvents | src/Track.cpp:65-70 | the loop inserts exactly the rescaled note events, in order, and skips every other event |
| TrackEngine.Track.AddMidiEvents | src/Track.cpp:64-74 | the sequence becomes the old one with the rescaled note events inserted and stays sorted; the report sent is that of the new sequence |
| TrackEngine.FirstAtOrAfter | src/Track.cpp:44 | the first position whose event is not earlier than the start time |
| TrackEngine.WindowIsRun | src/Track.cpp:44-47 | on a sorted sequence, the run from the first event at or after the start up to the first event at or after the end is the window [start, end) |
| TrackEngine.Track.EventsInWindow | src/Track.cpp:40-47 | the playback loop collects exactly the window of the block |
| TrackEngine.Track.AddMidiEventsToBuffer | src/Track.cpp:37-50 | while playing, the block gets the window of its ticks, then the queued live messages; the queue is emptied |
| TrackEngine.Track.WriteTrackInfo | src/Track.cpp:76-82 | name, color, gain, bypass state and a constant false, in that order |
| TrackEngine.Track.SetMuted | src/Track.cpp:121-127 | without a node nothing changes; otherwise an all-notes-off at the current time is queued and the bypass state set |
| TrackEngine.Track.constructor | src/Track.cpp:7-22 | a new track has its name and color, gain 1 and an empty sequence |
| Util.RoundToInt | src/Track.cpp:68 | the nearest integer, within a half; an exact half goes to the even neighbour |
| Util.Trunc | src/Track.cpp:90-91 | a floating-to-integer cast truncates toward zero |
| Util.ToUint8 | src/Track.cpp:93 | an unsigned char cast keeps the value modulo 256 |
| Wire.ReadBuffer.ReadUInt8 | src/WebSocketHandler.cpp:7 | takes a u8 from the front of the packet, or fails without moving |
| Wire.ReadBuffer.ReadUInt32 | src/WebSocketHandler.cpp:11 | takes a u32 from the front of the packet, or fails without moving |
| Wire.ReadBuffer.ReadInt32 | src/WebSocketHandler.cpp:37 | takes an i32 from the front of the packet, or fails without moving |
| Wire.ReadBuffer.ReadString | src/WebSocketHandler.cpp:13 | takes a string from the front of the packet, or fails without moving |
| PacketHandler.RequestRoundTrip | src/WebSocketHandler.cpp:7-66 | every request written in field order reads back as itself, and reading stops right after its last field |
| PacketHandler.ReadExplorerRequest | src/WebSocketHandler.cpp:11-13 | reads reply id, type and path in that order |
| PacketHandler.ReadCreateTrackRequest | src/WebSocketHandler.cpp:37-41 | reads id, name, color, an ignored byte and the plugin identifier in that order |
| PacketHandler.ReadMidiRequest | src/WebSocketHandler.cpp:63-66 | reads the track id and three message bytes |
| PacketHandler.Application.HandlePacket | src/WebSocketHandler.cpp:5-72 | for each opcode, the new tracks, track queues and effects; only the track list, the effects, the buffer and the tracks' queues may change, so a truncated packet changes nothing and every track stays sorted |
| PacketHandler.Application.HandleExplorerQuery | src/WebSocketHandler.cpp:10-35 | type 1 sends one reply, listing the manufacturers for an empty path and that manufacturer's plugins otherwise; other types send nothing |
| PacketHandler.ManufacturersAreNamed | src/WebSocketHandler.cpp:19 | the set holds exactly the manufacturers of known plugins |
| PacketHandler.Application.CollectManufacturers | src/WebSocketHandler.cpp:19 | the loop collects the set of manufacturers |
| PacketHandler.Enumerate | src/WebSocketHandler.cpp:21 | walking the set lists each element exactly once, in some order |
| PacketHandler.EnumerationSize | src/WebSocketHandler.cpp:20-21 | such a listing is as long as the set is large |
| PacketHandler.Application.WriteManufacturers | src/WebSocketHandler.cpp:17-22 | the set's size, its elements in walk order, then a 0 |
| PacketHandler.ManufacturerReplyLists | src/WebSocketHandler.cpp:17-22 | the count field equals the number of names that follow, and they are each manufacturer once and nothing else |
| PacketHandler.Application.CollectEntries | src/WebSocketHandler.cpp:25-28 | the loop collects the entries of the manufacturer's plugins, in list order |
| PacketHandler.EntriesOfMembers | src/WebSocketHandler.cpp:26-27 | an entry is listed exactly when a plugin of that manufacturer produces it as name, `#EIM#`, file |
| PacketHandler.Application.WriteEntries | src/WebSocketHandler.cpp:24-30 | a 0, the number of entries, then the entries |
| PacketHandler.TypeForFile | src/WebSocketHandler.cpp:44 | finds the first known plugin, in list order, with that file, and finds none only when none exists |
| PacketHandler.Application.CreateTrackFor | src/WebSocketHandler.cpp:42-56 | one fresh track appended, with a current node exactly when `MasterTrack::createTrack` gives it one, renamed after the plugin the identifier names if any, a plugin load started for it, then track info broadcast |
| PacketHandler.Application.HandleCreateTrack | src/WebSocketHandler.cpp:36-58 | reads the request and creates the track it describes |
| PacketHandler.Application.HandleMidiMessage | src/WebSocketHandler.cpp:62-71 | the message is queued on the addressed track only, stamped in seconds; an id past the last track queues nothing; no other track field changes |

## Left out

- Floating point: gains, volumes, pans, timestamps and tick arithmetic are `real`. The dB label and the square-root volume slider mapping are not modelled.
- The audio graph is not modelled: the node wiring in the track constructor, `setGenerator`, `processBlock`, the DSP chain, prepare-to-play, precision and play-head forwarding. They touch no state this model keeps.
- JUCE `updateMatchedPairs` also inserts a note-off before a second note-on of the same key. The model computes the pairing it yields (`TrackEngine.MatchFrom`) but does not add those inserted note-offs to the stored sequence.
- TrackEngine.Track.AddMidiEventsToBuffer: it does not model the sample offset each event gets inside the block, or JUCE's MidiBuffer ordering by offset. The block is modelled as the incoming messages, then the window's events, then the live queue, in order. The collector's per-block time slicing is also left out: the whole queue is taken.
- TrackEngine.Track.AddMidiEventsToBuffer: it requires a positive sample rate, and `TrackEngine.Track.AddMidiEvents` requires a nonzero time format. Otherwise the source divides by zero.
- TrackEngine.Track.WriteTrackInfo: it requires a current node, because the source dereferences it unconditionally.
- The byte layout of the server's `ByteBuffer` is not part of this model. Server packets are sequences of typed values (`Wire.Token`), so a read of the wrong kind fails like a short read.
- Reads past the end of a server packet drop it in the model. The C++ buffer's actual behaviour there is not modelled.
- Client integers are assumed big-endian, and an IString is assumed to be a length byte followed by the bytes. The client's buffer class is not part of this model.
- The reply packet header (`makeReplyPacket`) and the track-MIDI-data packet header are left out. The model keeps the bodies and the reply id.
- The opcode values live in a header that is not part of this model. They are a parameter, required to be distinct.
- The base-32 rendering of track ids is left out: ids are numbers. The server uuid's string form is a parameter.
- The asynchronous plugin load is recorded as an effect. Its callback is left out: on success it attaches the instrument, and in every case it later sends a reply carrying the error string, which is empty on success.
- Session sending and `syncTrackInfo` are recorded as effects. Their contents are not modelled.
- `MasterTrack::createTrack` is modelled as appending a new track, which has a current node exactly when `withNode` holds. The rest of its graph insertion is not modelled.
- The order in which a hash set is walked is nondeterministic in the model: any order that lists each element once.
- A `(uint32)` cast of a negative or too-large timestamp is undefined in C++. The model truncates it and reduces it modulo 2^32.
- Util.RoundToInt: JUCE's version rounds through a floating-point addition, which is exact only for values of magnitude below 2^31. The model is exact for every value.
- JUCE's message length by status byte is left out: a message is always three bytes.
- The clock and new uuids are parameters.
- React rendering, the grid, the drag-and-drop create-track and load-plugin paths, the refresh on mount and the settings panel are left out.
- The scale slider sets the zoom level directly within [0, 11] and is not modelled separately.
- The server's handler of update-track-info is not part of this model. `Client.ApplyUpdate` states the sentinel convention the client's commands rely on.
- Client.Reduce: the client's reducer is not part of this model. `Client.Reduce` states the assumed meaning of the volume update it dispatches: the addressed track takes the new volume. Its other actions are not modelled.
- Where a track's current node is set is not part of the source modelled here. The track constructor leaves it unset, and `setGenerator` does not set it. `MasterTrack::createTrack` is not part of this model, so whether a new track has a node is the parameter `withNode` of `PacketHandler.Application.HandlePacket`.
