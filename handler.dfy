/**
  The server's handling of one inbound packet.

  The first byte selects the request; the request's fields follow in a
  fixed order. The handler answers explorer queries from the list of known
  plugins, creates tracks, asks the client to refresh its track list, and
  queues live MIDI input on a track. What it does beyond its own state is
  recorded as effects, in the order it does them: a reply sent on the
  session, a track-info broadcast, or the start of an asynchronous plugin
  load.
*/
module PacketHandler {
  import opened Util
  import opened Wire
  import opened TrackEngine

  datatype PluginDescription = PluginDescription(name: string, manufacturerName: string, fileOrIdentifier: string)

  /** The opcode values of the serverbound packets. */
  datatype Opcodes = Opcodes(reply: byte, getExplorerData: byte, createTrack: byte, refresh: byte, midiMessage: byte)

  /** The cases of a switch are distinct values. */
  predicate Distinct(ops: Opcodes)
  {
    var all := [ops.reply, ops.getExplorerData, ops.createTrack, ops.refresh, ops.midiMessage];
    forall i, j :: 0 <= i < j < |all| ==> all[i] != all[j]
  }

  datatype Request =
    | Reply
    | GetExplorerData(replyId: uint32, kind: byte, path: string)
    | CreateTrack(createId: int32, name: string, color: string, flag: byte, identifier: string)
    | Refresh
    | MidiInput(id: byte, byte1: byte, byte2: byte, byte3: byte)
    | Unknown(opcode: byte)

  // ---------------------------------------------------------------------
  // Reading a request

  /** A u32 reply id, a u8 type and a string path. */
  function ExplorerRequestOf(ts: seq<Token>): Option<Taken<Request>>
  {
    match U32Of(ts)
    case None => None
    case Some(id) =>
      match U8Of(id.rest)
      case None => None
      case Some(kind) =>
        match StringOf(kind.rest)
        case None => None
        case Some(path) => Some(Taken(GetExplorerData(id.value, kind.value, path.value), path.rest))
  }

  /** An i32 reply id, a name, a color, an ignored u8 and a plugin identifier. */
  function CreateTrackRequestOf(ts: seq<Token>): Option<Taken<Request>>
  {
    match I32Of(ts)
    case None => None
    case Some(id) =>
      match StringOf(id.rest)
      case None => None
      case Some(name) =>
        match StringOf(name.rest)
        case None => None
        case Some(color) =>
          match U8Of(color.rest)
          case None => None
          case Some(flag) =>
            match StringOf(flag.rest)
            case None => None
            case Some(identifier) =>
              Some(Taken(CreateTrack(id.value, name.value, color.value, flag.value, identifier.value), identifier.rest))
  }

  /** A u8 track id and three u8 message bytes. */
  function MidiRequestOf(ts: seq<Token>): Option<Taken<Request>>
  {
    match U8Of(ts)
    case None => None
    case Some(id) =>
      match U8Of(id.rest)
      case None => None
      case Some(b1) =>
        match U8Of(b1.rest)
        case None => None
        case Some(b2) =>
          match U8Of(b2.rest)
          case None => None
          case Some(b3) => Some(Taken(MidiInput(id.value, b1.value, b2.value, b3.value), b3.rest))
  }

  /** The request at the front of a packet, or None when a read runs short or meets another kind of value. */
  function RequestOf(ts: seq<Token>, ops: Opcodes): Option<Taken<Request>>
  {
    match U8Of(ts)
    case None => None
    case Some(op) =>
      if op.value == ops.reply then Some(Taken(Reply, op.rest))
      else if op.value == ops.getExplorerData then ExplorerRequestOf(op.rest)
      else if op.value == ops.createTrack then CreateTrackRequestOf(op.rest)
      else if op.value == ops.refresh then Some(Taken(Refresh, op.rest))
      else if op.value == ops.midiMessage then MidiRequestOf(op.rest)
      else Some(Taken(Unknown(op.value), op.rest))
  }

  /** The opcode a request is sent under. */
  function OpcodeOf(rq: Request, ops: Opcodes): byte
  {
    match rq
    case Reply => ops.reply
    case GetExplorerData(_, _, _) => ops.getExplorerData
    case CreateTrack(_, _, _, _, _) => ops.createTrack
    case Refresh => ops.refresh
    case MidiInput(_, _, _, _) => ops.midiMessage
    case Unknown(op) => op
  }

  /** A request as a client writes it: the opcode, then the fields in the order they are read. */
  function EncodeRequest(rq: Request, ops: Opcodes): seq<Token>
  {
    [TU8(OpcodeOf(rq, ops))] +
    match rq
    case Reply => []
    case GetExplorerData(id, kind, path) => [TU32(id), TU8(kind), TString(path)]
    case CreateTrack(id, name, color, flag, identifier) => [TI32(id), TString(name), TString(color), TU8(flag), TString(identifier)]
    case Refresh => []
    case MidiInput(id, b1, b2, b3) => [TU8(id), TU8(b1), TU8(b2), TU8(b3)]
    case Unknown(_) => []
  }

  /** An opcode none of the cases handles. */
  predicate Unhandled(op: byte, ops: Opcodes)
  {
    op != ops.reply && op != ops.getExplorerData && op != ops.createTrack && op != ops.refresh && op != ops.midiMessage
  }

  /**
    Every request written in field order is read back as itself, and the
    reading stops right after its last field: each opcode selects its own
    fields, Reply and unknown opcodes none at all.
  */
  lemma RequestRoundTrip(rq: Request, ops: Opcodes, rest: seq<Token>)
    requires Distinct(ops)
    requires rq.Unknown? ==> Unhandled(rq.opcode, ops)
    ensures RequestOf(EncodeRequest(rq, ops) + rest, ops) == Some(Taken(rq, rest))
  {
    var all := [ops.reply, ops.getExplorerData, ops.createTrack, ops.refresh, ops.midiMessage];
    assert all[0] != all[1] && all[0] != all[2] && all[0] != all[3] && all[0] != all[4];
    assert all[1] != all[2] && all[1] != all[3] && all[1] != all[4];
    assert all[2] != all[3] && all[2] != all[4] && all[3] != all[4];
    var ts := EncodeRequest(rq, ops) + rest;
    match rq
    case Reply =>
      assert ts[1..] == rest;
    case GetExplorerData(id, kind, path) =>
      assert ts[1..][1..][1..][1..] == rest;
    case CreateTrack(id, name, color, flag, identifier) =>
      assert ts[1..][1..][1..][1..][1..][1..] == rest;
    case Refresh =>
      assert ts[1..] == rest;
    case MidiInput(id, b1, b2, b3) =>
      assert ts[1..][1..][1..][1..][1..] == rest;
    case Unknown(op) =>
      assert ts[1..] == rest;
  }

  // ---------------------------------------------------------------------
  // Explorer replies

  /** The manufacturer names of the plugins, without repetition. */
  function Manufacturers(plugins: seq<PluginDescription>): set<string>
  {
    if plugins == [] then {}
    else Manufacturers(plugins[..|plugins| - 1]) + {plugins[|plugins| - 1].manufacturerName}
  }

  lemma {:induction false} ManufacturersAreNamed(plugins: seq<PluginDescription>, m: string)
    ensures m in Manufacturers(plugins) <==> exists p :: p in plugins && p.manufacturerName == m
  {
    if plugins != [] {
      var init := plugins[..|plugins| - 1];
      ManufacturersAreNamed(init, m);
      assert plugins == init + [plugins[|plugins| - 1]];
    }
  }

  /** The explorer entry of a plugin: its name and its file or identifier, joined by `#EIM#`. */
  function Entry(p: PluginDescription): string
  {
    p.name + "#EIM#" + p.fileOrIdentifier
  }

  /** The entries of the plugins by the manufacturer `path`, in list order. */
  function EntriesOf(plugins: seq<PluginDescription>, path: string): seq<string>
  {
    if plugins == [] then []
    else
      var last := plugins[|plugins| - 1];
      EntriesOf(plugins[..|plugins| - 1], path) + (if path == last.manufacturerName then [Entry(last)] else [])
  }

  lemma {:induction false} EntriesOfAppend(a: seq<PluginDescription>, b: seq<PluginDescription>, path: string)
    ensures EntriesOf(a + b, path) == EntriesOf(a, path) + EntriesOf(b, path)
    decreases |b|
  {
    if b == [] {
      assert a + b == a;
    } else {
      var init := b[..|b| - 1];
      assert (a + b)[..|a + b| - 1] == a + init;
      EntriesOfAppend(a, init, path);
    }
  }

  /** An entry is listed exactly when a plugin of that manufacturer produces it. */
  lemma {:induction false} EntriesOfMembers(plugins: seq<PluginDescription>, path: string, e: string)
    ensures e in EntriesOf(plugins, path) <==> exists p :: p in plugins && p.manufacturerName == path && e == Entry(p)
  {
    if plugins != [] {
      var init := plugins[..|plugins| - 1];
      EntriesOfMembers(init, path, e);
      assert plugins == init + [plugins[|plugins| - 1]];
    }
  }

  function Strings(names: seq<string>): seq<Token>
  {
    if names == [] then [] else Strings(names[..|names| - 1]) + [TString(names[|names| - 1])]
  }

  lemma StringsSnoc(names: seq<string>, x: string)
    ensures Strings(names + [x]) == Strings(names) + [TString(x)]
  {
    assert (names + [x])[..|names|] == names;
  }

  /** `names` lists every element of `s` exactly once. */
  ghost predicate Enumerates(names: seq<string>, s: set<string>)
  {
    (forall i, j :: 0 <= i < j < |names| ==> names[i] != names[j]) &&
    (forall x :: x in s <==> x in names)
  }

  /** Appending an element not yet listed extends an enumeration by that element. */
  lemma EnumeratesSnoc(names: seq<string>, s: set<string>, x: string)
    requires Enumerates(names, s) && x !in s
    ensures Enumerates(names + [x], s + {x})
  {
    var ext := names + [x];
    forall i, j | 0 <= i < j < |ext| ensures ext[i] != ext[j] {
      if j == |names| {
        assert ext[i] == names[i];
      }
    }
  }

  /** Dropping the last name of an enumeration enumerates the set without it. */
  lemma EnumerationInit(names: seq<string>, s: set<string>)
    requires Enumerates(names, s) && names != []
    ensures names[|names| - 1] in s
    ensures Enumerates(names[..|names| - 1], s - {names[|names| - 1]})
  {
    var init := names[..|names| - 1];
    var last := names[|names| - 1];
    assert names == init + [last];
    forall x | x in init ensures x != last {
      var i :| 0 <= i < |init| && init[i] == x;
      assert names[i] == x;
    }
  }

  /** A list without repetition of the elements of a set is as long as the set is large. */
  lemma {:induction false} EnumerationSize(names: seq<string>, s: set<string>)
    requires Enumerates(names, s)
    ensures |names| == |s|
  {
    if names != [] {
      EnumerationInit(names, s);
      EnumerationSize(names[..|names| - 1], s - {names[|names| - 1]});
    } else {
      assert forall x :: x !in s;
      assert s == {};
    }
  }

  /** The reply listing the manufacturers: their number, the names in walk order, then a 0. */
  function ManufacturerBody(plugins: seq<PluginDescription>, order: seq<string>): seq<Token>
  {
    [TU32(ToUint32(|Manufacturers(plugins)|))] + Strings(order) + [TU32(0)]
  }

  /** The reply listing one manufacturer's plugins: a 0, their number, then their entries. */
  function EntriesBody(plugins: seq<PluginDescription>, path: string): seq<Token>
  {
    var arr := EntriesOf(plugins, path);
    [TU32(0), TU32(ToUint32(|arr|))] + Strings(arr)
  }

  lemma {:induction false} StringsOfNames(names: seq<string>)
    ensures |Strings(names)| == |names|
    ensures forall i :: 0 <= i < |names| ==> Strings(names)[i] == TString(names[i])
  {
    if names != [] {
      StringsOfNames(names[..|names| - 1]);
    }
  }

  /**
    However the set of manufacturers is walked, the count field is the
    number of names that follow (modulo 2^32), each manufacturer of a known
    plugin appears among them exactly once, and nothing else does.
  */
  lemma ManufacturerReplyLists(plugins: seq<PluginDescription>, order: seq<string>)
    requires Enumerates(order, Manufacturers(plugins))
    ensures var body := ManufacturerBody(plugins, order);
            |body| == |order| + 2 && body[0] == TU32(ToUint32(|order|)) && body[|body| - 1] == TU32(0) &&
            (forall i :: 1 <= i <= |order| ==> body[i] == TString(order[i - 1])) &&
            (forall i, j :: 0 <= i < j < |order| ==> order[i] != order[j]) &&
            (forall m :: m in order <==> exists p :: p in plugins && p.manufacturerName == m)
  {
    EnumerationSize(order, Manufacturers(plugins));
    StringsOfNames(order);
    forall m ensures m in order <==> exists p :: p in plugins && p.manufacturerName == m {
      ManufacturersAreNamed(plugins, m);
    }
  }

  /** What answering an explorer query adds to the effects. */
  ghost predicate ExplorerReplied(plugins: seq<PluginDescription>, replyId: uint32, kind: byte, path: string,
                                  before: seq<Effect>, after: seq<Effect>)
  {
    if kind != 1 then after == before
    else if path == "" then
      exists order :: Enumerates(order, Manufacturers(plugins)) && after == before + [Send(replyId, ManufacturerBody(plugins, order))]
    else after == before + [Send(replyId, EntriesBody(plugins, path))]
  }

  // ---------------------------------------------------------------------
  // Track lookup by file

  /** The first known plugin whose file or identifier is `file`. */
  function TypeForFile(plugins: seq<PluginDescription>, file: string): (r: Option<PluginDescription>)
    ensures r.Some? ==> r.value in plugins && r.value.fileOrIdentifier == file
    ensures r.None? ==> forall p :: p in plugins ==> p.fileOrIdentifier != file
    ensures r.Some? ==> exists k :: 0 <= k < |plugins| && plugins[k] == r.value &&
                          forall j :: 0 <= j < k ==> plugins[j].fileOrIdentifier != file
  {
    if plugins == [] then None
    else if plugins[0].fileOrIdentifier == file then Some(plugins[0])
    else TypeForFile(plugins[1..], file)
  }

  /** The plugin a new track loads: the one its identifier names, if it names a known one. */
  function LoadedType(plugins: seq<PluginDescription>, identifier: string): Option<PluginDescription>
  {
    if identifier == "" then None else TypeForFile(plugins, identifier)
  }

  // ---------------------------------------------------------------------
  // Reading requests from the session buffer, field by field

  method ReadExplorerRequest(buf: ReadBuffer) returns (rq: Option<Request>)
    requires buf.pos <= |buf.tokens|
    modifies buf
    ensures buf.pos <= |buf.tokens|
    ensures match ExplorerRequestOf(old(buf.Remaining()))
            case None => rq == None
            case Some(tk) => rq == Some(tk.value) && buf.Remaining() == tk.rest
  {
    rq := None;
    var replyId := buf.ReadUInt32();
    if replyId.None? {
      return;
    }
    var kind := buf.ReadUInt8();
    if kind.None? {
      return;
    }
    var path := buf.ReadString();
    if path.None? {
      return;
    }
    rq := Some(GetExplorerData(replyId.value, kind.value, path.value));
  }

  method ReadCreateTrackRequest(buf: ReadBuffer) returns (rq: Option<Request>)
    requires buf.pos <= |buf.tokens|
    modifies buf
    ensures buf.pos <= |buf.tokens|
    ensures match CreateTrackRequestOf(old(buf.Remaining()))
            case None => rq == None
            case Some(tk) => rq == Some(tk.value) && buf.Remaining() == tk.rest
  {
    rq := None;
    var createId := buf.ReadInt32();
    if createId.None? {
      return;
    }
    var name := buf.ReadString();
    if name.None? {
      return;
    }
    var color := buf.ReadString();
    if color.None? {
      return;
    }
    var flag := buf.ReadUInt8();
    if flag.None? {
      return;
    }
    var identifier := buf.ReadString();
    if identifier.None? {
      return;
    }
    rq := Some(CreateTrack(createId.value, name.value, color.value, flag.value, identifier.value));
  }

  method ReadMidiRequest(buf: ReadBuffer) returns (rq: Option<Request>)
    requires buf.pos <= |buf.tokens|
    modifies buf
    ensures buf.pos <= |buf.tokens|
    ensures match MidiRequestOf(old(buf.Remaining()))
            case None => rq == None
            case Some(tk) => rq == Some(tk.value) && buf.Remaining() == tk.rest
  {
    rq := None;
    var id := buf.ReadUInt8();
    if id.None? {
      return;
    }
    var byte1 := buf.ReadUInt8();
    if byte1.None? {
      return;
    }
    var byte2 := buf.ReadUInt8();
    if byte2.None? {
      return;
    }
    var byte3 := buf.ReadUInt8();
    if byte3.None? {
      return;
    }
    rq := Some(MidiInput(id.value, byte1.value, byte2.value, byte3.value));
  }

  // ---------------------------------------------------------------------
  // The application

  /** What the handler does beyond its own state, in order. */
  datatype Effect =
    | Send(replyId: int, body: seq<Token>)
    | SyncTrackInfo
    | LoadPlugin(track: Track, plugin: PluginDescription, createId: int32)

  /** The queues of the tracks `ts` are as they were. */
  twostate predicate QueuesKept(ts: seq<Track>)
    reads set t | t in ts
  {
    forall k :: 0 <= k < |ts| ==> ts[k].queue == old(ts[k].queue)
  }

  /**
    Lists the elements of `names`, each once, in whatever order the set is
    walked (the walk order of a hash set is not fixed).
  */
  method Enumerate(names: set<string>) returns (order: seq<string>)
    ensures Enumerates(order, names)
  {
    var remaining := names;
    ghost var seen := {};
    order := [];
    while remaining != {}
      invariant names == remaining + seen && remaining !! seen
      invariant Enumerates(order, seen)
      decreases |remaining|
    {
      var x :| x in remaining;
      EnumeratesSnoc(order, seen, x);
      order, seen := order + [x], seen + {x};
      remaining := remaining - {x};
    }
  }

  /** Writes `names` as strings, in order. */
  method WriteStrings(out: ByteBuffer, names: seq<string>)
    modifies out
    ensures out.tokens == old(out.tokens) + Strings(names)
  {
    for i := 0 to |names|
      invariant out.tokens == old(out.tokens) + Strings(names[..i])
    {
      ghost var before := out.tokens;
      out.WriteString(names[i]);
      assert names[..i + 1] == names[..i] + [names[i]];
      StringsSnoc(names[..i], names[i]);
      assert old(out.tokens) + Strings(names[..i + 1]) == before + [TString(names[i])];
    }
    assert names[..|names|] == names;
  }

  class Application {
    /** The plugins found by the last scan. */
    var knownPlugins: seq<PluginDescription>
    /** The master track's tracks. */
    var tracks: seq<Track>
    /** Everything sent, broadcast or started so far, in order. */
    var effects: seq<Effect>

    /** The tracks are distinct objects, and each one's sequence is sorted by time. */
    ghost predicate Valid()
      reads this, tracks
    {
      (forall i, j :: 0 <= i < j < |tracks| ==> tracks[i] != tracks[j]) &&
      (forall t :: t in tracks ==> t.Valid())
    }

    constructor (plugins: seq<PluginDescription>)
      ensures Valid()
      ensures knownPlugins == plugins && tracks == [] && effects == []
    {
      knownPlugins := plugins;
      tracks := [];
      effects := [];
    }

    /**
      Handles one packet. `millis` is the high-resolution millisecond clock
      and `uuid` the identifier a new track would get. `withNode` says whether
      `MasterTrack::createTrack`, whose code is not part of this model, gives
      a new track its current node.
    */
    method HandlePacket(buf: ReadBuffer, ops: Opcodes, millis: real, uuid: string, withNode: bool)
      requires Valid() && Distinct(ops) && buf.pos <= |buf.tokens|
      modifies this`tracks, this`effects, buf, tracks`queue
      ensures Valid() && buf.pos <= |buf.tokens|
      ensures match RequestOf(old(buf.Remaining()), ops)
              case None => tracks == old(tracks) && effects == old(effects) && QueuesKept(tracks)
              case Some(rq) =>
                buf.Remaining() == rq.rest &&
                match rq.value
                case Reply => tracks == old(tracks) && effects == old(effects) && QueuesKept(tracks)
                case Unknown(_) => tracks == old(tracks) && effects == old(effects) && QueuesKept(tracks)
                case Refresh => tracks == old(tracks) && effects == old(effects) + [SyncTrackInfo] && QueuesKept(tracks)
                case GetExplorerData(replyId, kind, path) =>
                  tracks == old(tracks) && QueuesKept(tracks) &&
                  ExplorerReplied(knownPlugins, replyId, kind, path, old(effects), effects)
                case CreateTrack(createId, name, color, _, identifier) =>
                  TrackCreated(old(tracks), old(effects), createId, name, color, identifier, uuid, withNode) &&
                  QueuesKept(old(tracks))
                case MidiInput(id, b1, b2, b3) =>
                  tracks == old(tracks) && effects == old(effects) &&
                  forall k :: 0 <= k < |tracks| ==>
                    tracks[k].queue == old(tracks[k].queue) + (if k == id then [MidiMessage(b1, b2, b3, millis * 0.001)] else [])
    {
      var op := buf.ReadUInt8();
      if op.None? {
        return;
      }
      if op.value == ops.reply {
      } else if op.value == ops.getExplorerData {
        HandleExplorerQuery(buf);
      } else if op.value == ops.createTrack {
        HandleCreateTrack(buf, uuid, withNode);
      } else if op.value == ops.refresh {
        effects := effects + [SyncTrackInfo];
      } else if op.value == ops.midiMessage {
        HandleMidiMessage(buf, millis);
      }
    }

    /**
      The new track is appended, named after the plugin it loads if any, and
      has a current node exactly when `withNode`; then track info is broadcast.
    */
    twostate predicate TrackCreated(oldTracks: seq<Track>, oldEffects: seq<Effect>, createId: int32,
                                    name: string, color: string, identifier: string, uuid: string,
                                    withNode: bool)
      reads this, set t | t in tracks
    {
      |tracks| == |oldTracks| + 1 && tracks[..|oldTracks|] == oldTracks &&
      var t := tracks[|oldTracks|];
      var plugin := LoadedType(knownPlugins, identifier);
      fresh(t) && t.uuid == uuid && t.color == color &&
      t.name == (if plugin.Some? then plugin.value.name else name) &&
      t.gain == 1.0 && t.hasNode == withNode && t.midiSequence == [] && t.queue == [] &&
      effects == oldEffects + (if plugin.Some? then [LoadPlugin(t, plugin.value, createId)] else []) + [SyncTrackInfo]
    }

    method HandleExplorerQuery(buf: ReadBuffer)
      requires buf.pos <= |buf.tokens|
      modifies this`effects, buf
      ensures buf.pos <= |buf.tokens|
      ensures match ExplorerRequestOf(old(buf.Remaining()))
              case None => effects == old(effects)
              case Some(rq) =>
                buf.Remaining() == rq.rest &&
                ExplorerReplied(knownPlugins, rq.value.replyId, rq.value.kind, rq.value.path, old(effects), effects)
    {
      var rq := ReadExplorerRequest(buf);
      if rq.None? {
        return;
      }
      var out := new ByteBuffer();
      if rq.value.kind == 1 {
        if rq.value.path == "" {
          ghost var order := WriteManufacturers(out);
          assert out.tokens == ManufacturerBody(knownPlugins, order);
          effects := effects + [Send(rq.value.replyId, out.tokens)];
          assert Enumerates(order, Manufacturers(knownPlugins)) &&
                 effects == old(effects) + [Send(rq.value.replyId, ManufacturerBody(knownPlugins, order))];
        } else {
          WriteEntries(out, rq.value.path);
          assert out.tokens == EntriesBody(knownPlugins, rq.value.path);
          effects := effects + [Send(rq.value.replyId, out.tokens)];
        }
      }
    }

    /** The manufacturers of the known plugins, collected into a set. */
    method CollectManufacturers() returns (names: set<string>)
      ensures names == Manufacturers(knownPlugins)
    {
      names := {};
      var i := 0;
      while i < |knownPlugins|
        invariant i <= |knownPlugins|
        invariant names == Manufacturers(knownPlugins[..i])
      {
        assert knownPlugins[..i + 1][..i] == knownPlugins[..i];
        names := names + {knownPlugins[i].manufacturerName};
        i := i + 1;
      }
      assert knownPlugins[..i] == knownPlugins;
    }

    /** Writes the size of the set of manufacturers, its elements in some order, and a 0. */
    method WriteManufacturers(out: ByteBuffer) returns (order: seq<string>)
      modifies out
      ensures Enumerates(order, Manufacturers(knownPlugins))
      ensures out.tokens == old(out.tokens) + ManufacturerBody(knownPlugins, order)
    {
      var names := CollectManufacturers();
      out.WriteUInt32(ToUint32(|names|));
      order := Enumerate(names);
      WriteStrings(out, order);
      out.WriteUInt32(0);
    }

    /** The entries of the plugins by manufacturer `path`, in list order. */
    method CollectEntries(path: string) returns (arr: seq<string>)
      ensures arr == EntriesOf(knownPlugins, path)
    {
      arr := [];
      var i := 0;
      while i < |knownPlugins|
        invariant i <= |knownPlugins|
        invariant arr == EntriesOf(knownPlugins[..i], path)
      {
        assert knownPlugins[..i + 1][..i] == knownPlugins[..i];
        if path == knownPlugins[i].manufacturerName {
          arr := arr + [Entry(knownPlugins[i])];
        }
        i := i + 1;
      }
      assert knownPlugins[..i] == knownPlugins;
    }

    /** Writes a 0, then the number and the entries of the plugins by manufacturer `path`. */
    method WriteEntries(out: ByteBuffer, path: string)
      modifies out
      ensures out.tokens == old(out.tokens) + EntriesBody(knownPlugins, path)
    {
      out.WriteUInt32(0);
      var arr := CollectEntries(path);
      out.WriteUInt32(ToUint32(|arr|));
      WriteStrings(out, arr);
    }

    method HandleCreateTrack(buf: ReadBuffer, uuid: string, withNode: bool)
      requires Valid() && buf.pos <= |buf.tokens|
      modifies this`tracks, this`effects, buf
      ensures Valid() && buf.pos <= |buf.tokens|
      ensures match CreateTrackRequestOf(old(buf.Remaining()))
              case None => tracks == old(tracks) && effects == old(effects)
              case Some(rq) =>
                buf.Remaining() == rq.rest &&
                TrackCreated(old(tracks), old(effects), rq.value.createId, rq.value.name, rq.value.color, rq.value.identifier, uuid, withNode)
    {
      var rq := ReadCreateTrackRequest(buf);
      if rq.None? {
        return;
      }
      CreateTrackFor(rq.value.createId, rq.value.name, rq.value.color, rq.value.identifier, uuid, withNode);
    }

    method CreateTrackFor(createId: int32, name: string, color: string, identifier: string, uuid: string,
                          withNode: bool)
      requires Valid()
      modifies this`tracks, this`effects
      ensures Valid()
      ensures TrackCreated(old(tracks), old(effects), createId, name, color, identifier, uuid, withNode)
    {
      var track := new Track(name, color, uuid);
      track.hasNode := withNode;
      tracks := tracks + [track];
      if identifier != "" {
        var plugin := TypeForFile(knownPlugins, identifier);
        if plugin.Some? {
          track.name := plugin.value.name;
          effects := effects + [LoadPlugin(track, plugin.value, createId)];
        }
      }
      effects := effects + [SyncTrackInfo];
    }

    /** Queues the message on the addressed track; an id past the last track is ignored. */
    method HandleMidiMessage(buf: ReadBuffer, millis: real)
      requires Valid() && buf.pos <= |buf.tokens|
      modifies buf, tracks`queue
      ensures Valid() && buf.pos <= |buf.tokens|
      ensures match MidiRequestOf(old(buf.Remaining()))
              case None => QueuesKept(tracks)
              case Some(rq) =>
                buf.Remaining() == rq.rest &&
                forall k :: 0 <= k < |tracks| ==>
                  tracks[k].queue == old(tracks[k].queue) +
                    (if k == rq.value.id then [MidiMessage(rq.value.byte1, rq.value.byte2, rq.value.byte3, millis * 0.001)] else [])
    {
      var rq := ReadMidiRequest(buf);
      if rq.None? {
        return;
      }
      var id := rq.value.id;
      if |tracks| <= id {
        return;
      }
      tracks[id].AddMessageToQueue(MidiMessage(rq.value.byte1, rq.value.byte2, rq.value.byte3, millis * 0.001));
    }
  }
}
