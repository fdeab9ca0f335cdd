/**
  The mixer view: the TrackMixerInfo packet handler (a count-prefixed list of
  per-track records decoded from the packet cursor and merged into, or
  replacing, the cached table), the two-thumb pan slider state, and the
  choice of which tracks get a mixer strip.
*/
module Mixer {
  import opened Util
  import opened Cursor
  import opened Client

  datatype MixerPlugin = MixerPlugin(name: seq<byte>)

  /** One track's mixer state; the plugin's position is its slot index. */
  datatype TrackMixerInfo = TrackMixerInfo(pan: int, panRule: nat, plugins: seq<MixerPlugin>)

  /** One record of the packet: the track identifier and its mixer state. */
  datatype MixerRecord = MixerRecord(id: nat, info: TrackMixerInfo)

  /** A decoded packet: the count byte and the records that followed it. */
  datatype MixerPacket = MixerPacket(count: nat, records: seq<MixerRecord>)

  // ---------------------------------------------------------------------------
  // The wire format, as the sequence of cursor reads the handler performs

  function Prepend<T>(xs: seq<T>, r: Option<Read<seq<T>>>): Option<Read<seq<T>>>
  {
    match r
    case None => None
    case Some(rd) => Some(Read(xs + rd.value, rd.rest))
  }

  /** `n` IStrings, each one plugin name. */
  function PluginsOf(t: seq<byte>, n: nat): Option<Read<seq<MixerPlugin>>>
    decreases n
  {
    if n == 0 then Some(Read([], t))
    else match IStringOf(t)
      case None => None
      case Some(name) => Prepend([MixerPlugin(name.value)], PluginsOf(name.rest, n - 1))
  }

  /**
    u64 id, i8 pan, u8 panRule and u8 plugin count (eleven header bytes),
    then the plugin names.
  */
  function RecordOf(t: seq<byte>): Option<Read<MixerRecord>>
  {
    match BytesOf(t, 11)
    case None => None
    case Some(h) =>
      var header := h.value;
      match PluginsOf(h.rest, header[10])
      case None => None
      case Some(ps) =>
        var info := TrackMixerInfo(SignedByte(header[8]), header[9], ps.value);
        Some(Read(MixerRecord(BigEndian(header[..8]), info), ps.rest))
  }

  function RecordsOf(t: seq<byte>, n: nat): Option<Read<seq<MixerRecord>>>
    decreases n
  {
    if n == 0 then Some(Read([], t))
    else match RecordOf(t)
      case None => None
      case Some(r) => Prepend([r.value], RecordsOf(r.rest, n - 1))
  }

  /** A u8 count, then that many records. Bytes after the last record are not looked at. */
  function PacketOf(t: seq<byte>): Option<Read<MixerPacket>>
  {
    match Uint8Of(t)
    case None => None
    case Some(len) =>
      match RecordsOf(len.rest, len.value)
      case None => None
      case Some(rs) => Some(Read(MixerPacket(len.value, rs.value), rs.rest))
  }

  /**
    The record as the handler reads it, field by field: a u64 id, an i8 pan,
    a u8 pan rule and a u8 plugin count, each read from where the last ended.
  */
  lemma RecordOfFields(t: seq<byte>, id: Read<nat>, pan: Read<int>, rule: Read<nat>, size: Read<nat>)
    requires Uint64Of(t) == Some(id) && Int8Of(id.rest) == Some(pan)
    requires Uint8Of(pan.rest) == Some(rule) && Uint8Of(rule.rest) == Some(size)
    ensures RecordOf(t) == match PluginsOf(size.rest, size.value)
                           case None => None
                           case Some(ps) =>
                             Some(Read(MixerRecord(id.value, TrackMixerInfo(pan.value, rule.value, ps.value)), ps.rest))
  {
    assert pan.rest == t[9..];
    assert rule.rest == t[10..];
    assert size.rest == t[11..];
    assert pan.value == SignedByte(t[8]);
    assert rule.value == t[9];
    assert size.value == t[10];
    assert t[..11][..8] == t[..8];
  }

  // ---------------------------------------------------------------------------
  // Widths and well-formedness of decoded records

  function PluginsWidth(ps: seq<MixerPlugin>): nat
  {
    if ps == [] then 0 else 1 + |ps[0].name| + PluginsWidth(ps[1..])
  }

  /** 8 bytes of id, one each of pan, panRule and plugin count, then the names. */
  function RecordWidth(r: MixerRecord): nat
  {
    8 + 1 + 1 + 1 + PluginsWidth(r.info.plugins)
  }

  function RecordsWidth(rs: seq<MixerRecord>): nat
  {
    if rs == [] then 0 else RecordWidth(rs[0]) + RecordsWidth(rs[1..])
  }

  /** What the field widths allow: the ranges of an encodable record. */
  predicate WellFormed(r: MixerRecord)
  {
    && r.id < TWO_64
    && -128 <= r.info.pan < 128
    && r.info.panRule < 256
    && |r.info.plugins| < 256
    && forall k :: 0 <= k < |r.info.plugins| ==> |r.info.plugins[k].name| < 256
  }

  lemma {:induction false} PluginsOfWidth(t: seq<byte>, n: nat)
    requires PluginsOf(t, n).Some?
    decreases n
    ensures var rd := PluginsOf(t, n).value;
            |rd.value| == n && |t| == PluginsWidth(rd.value) + |rd.rest| &&
            forall k :: 0 <= k < n ==> |rd.value[k].name| < 256
  {
    if n > 0 {
      var name := IStringOf(t).value;
      PluginsOfWidth(name.rest, n - 1);
      var ps := PluginsOf(t, n).value.value;
      assert ps[1..] == PluginsOf(name.rest, n - 1).value.value;
    }
  }

  lemma RecordOfWidth(t: seq<byte>)
    requires RecordOf(t).Some?
    ensures var rd := RecordOf(t).value;
            WellFormed(rd.value) && |t| == RecordWidth(rd.value) + |rd.rest|
  {
    PluginsOfWidth(t[11..], t[10]);
    BigEndianBound(t[..11][..8]);
    assert Pow256(8) == TWO_64;
  }

  lemma {:induction false} RecordsOfWidth(t: seq<byte>, n: nat)
    requires RecordsOf(t, n).Some?
    decreases n
    ensures var rd := RecordsOf(t, n).value;
            |rd.value| == n && |t| == RecordsWidth(rd.value) + |rd.rest| &&
            forall k :: 0 <= k < n ==> WellFormed(rd.value[k])
  {
    if n > 0 {
      var r := RecordOf(t).value;
      RecordOfWidth(t);
      RecordsOfWidth(r.rest, n - 1);
      var rs := RecordsOf(t, n).value.value;
      assert rs[1..] == RecordsOf(r.rest, n - 1).value.value;
    }
  }

  /**
    A decoded packet holds exactly `count` records, each within the field
    ranges, and the cursor moves past exactly the count byte and the sum of
    the record widths.
  */
  lemma PacketOfWidth(t: seq<byte>)
    requires PacketOf(t).Some?
    ensures var rd := PacketOf(t).value;
            |rd.value.records| == rd.value.count < 256 &&
            |t| == 1 + RecordsWidth(rd.value.records) + |rd.rest| &&
            forall k :: 0 <= k < |rd.value.records| ==> WellFormed(rd.value.records[k])
  {
    var len := Uint8Of(t).value;
    RecordsOfWidth(len.rest, len.value);
  }

  // ---------------------------------------------------------------------------
  // The sender's side, as the reference for the decoder

  function EncodePlugins(ps: seq<MixerPlugin>): (r: seq<byte>)
    requires forall k :: 0 <= k < |ps| ==> |ps[k].name| < 256
    ensures |r| == PluginsWidth(ps)
  {
    if ps == [] then [] else EncodeIString(ps[0].name) + EncodePlugins(ps[1..])
  }

  function EncodeRecord(r: MixerRecord): (e: seq<byte>)
    requires WellFormed(r)
    ensures |e| == RecordWidth(r)
  {
    EncodeUint(r.id, 8) + (EncodeInt8(r.info.pan) + ([r.info.panRule]
      + ([|r.info.plugins|] + EncodePlugins(r.info.plugins))))
  }

  function EncodeRecords(rs: seq<MixerRecord>): (e: seq<byte>)
    requires forall k :: 0 <= k < |rs| ==> WellFormed(rs[k])
    ensures |e| == RecordsWidth(rs)
  {
    if rs == [] then [] else EncodeRecord(rs[0]) + EncodeRecords(rs[1..])
  }

  function EncodePacket(rs: seq<MixerRecord>): (e: seq<byte>)
    requires |rs| < 256 && forall k :: 0 <= k < |rs| ==> WellFormed(rs[k])
    ensures |e| == 1 + RecordsWidth(rs)
  {
    [|rs|] + EncodeRecords(rs)
  }

  lemma {:induction false} PluginsRoundTrip(ps: seq<MixerPlugin>, rest: seq<byte>)
    requires forall k :: 0 <= k < |ps| ==> |ps[k].name| < 256
    ensures PluginsOf(EncodePlugins(ps) + rest, |ps|) == Some(Read(ps, rest))
    decreases |ps|
  {
    if ps != [] {
      var name := ps[0].name;
      var more := EncodePlugins(ps[1..]) + rest;
      assert EncodePlugins(ps) + rest == EncodeIString(name) + more;
      IStringOfEncoded(name, more);
      PluginsRoundTrip(ps[1..], rest);
      assert [MixerPlugin(name)] + ps[1..] == ps;
    } else {
      assert EncodePlugins(ps) + rest == rest;
    }
  }

  lemma RecordRoundTrip(r: MixerRecord, rest: seq<byte>)
    requires WellFormed(r)
    ensures RecordOf(EncodeRecord(r) + rest) == Some(Read(r, rest))
  {
    var afterSize := EncodePlugins(r.info.plugins) + rest;
    var afterRule := [|r.info.plugins|] + afterSize;
    var afterPan := [r.info.panRule] + afterRule;
    var afterId := EncodeInt8(r.info.pan) + afterPan;
    assert EncodeRecord(r) + rest == EncodeUint(r.id, 8) + afterId;
    assert Pow256(8) == TWO_64;
    UintOfEncoded(r.id, 8, afterId);
    Int8OfEncoded(r.info.pan, afterPan);
    Uint8OfEncoded(r.info.panRule, afterRule);
    Uint8OfEncoded(|r.info.plugins|, afterSize);
    RecordOfFields(EncodeRecord(r) + rest, Read(r.id, afterId), Read(r.info.pan, afterPan),
                   Read(r.info.panRule, afterRule), Read(|r.info.plugins|, afterSize));
    PluginsRoundTrip(r.info.plugins, rest);
  }

  lemma {:induction false} RecordsRoundTrip(rs: seq<MixerRecord>, rest: seq<byte>)
    requires forall k :: 0 <= k < |rs| ==> WellFormed(rs[k])
    ensures RecordsOf(EncodeRecords(rs) + rest, |rs|) == Some(Read(rs, rest))
    decreases |rs|
  {
    if rs != [] {
      var head, tail := rs[0], rs[1..];
      assert forall k :: 0 <= k < |tail| ==> WellFormed(tail[k]) by {
        forall k | 0 <= k < |tail| ensures WellFormed(tail[k]) {
          assert tail[k] == rs[k + 1];
        }
      }
      var more := EncodeRecords(tail) + rest;
      assert EncodeRecords(rs) + rest == EncodeRecord(head) + more;
      RecordRoundTrip(head, more);
      RecordsRoundTrip(tail, rest);
      assert [head] + tail == rs;
    } else {
      assert EncodeRecords(rs) + rest == rest;
    }
  }

  lemma PacketOfStep(t: seq<byte>, n: nat, body: seq<byte>, rs: seq<MixerRecord>, rest: seq<byte>)
    requires Uint8Of(t) == Some(Read(n, body)) && RecordsOf(body, n) == Some(Read(rs, rest))
    ensures PacketOf(t) == Some(Read(MixerPacket(n, rs), rest))
  {
  }

  lemma PacketOfFail(t: seq<byte>, n: nat, body: seq<byte>)
    requires Uint8Of(t) == Some(Read(n, body)) && RecordsOf(body, n) == None
    ensures PacketOf(t) == None
  {
  }

  lemma PluginsOfStep(t: seq<byte>, n: nat, name: seq<byte>, mid: seq<byte>)
    requires n > 0 && IStringOf(t) == Some(Read(name, mid))
    ensures PluginsOf(t, n) == Prepend([MixerPlugin(name)], PluginsOf(mid, n - 1))
  {
  }

  /** The plugin loop's invariant, in the shape of `RecordsProgress`. */
  ghost predicate PluginsProgress(names: seq<byte>, size: nat, ps: seq<MixerPlugin>, cur: seq<byte>, n: nat)
  {
    PluginsOf(names, size) == Prepend(ps, PluginsOf(cur, n))
  }

  lemma PluginsLoopStep(names: seq<byte>, size: nat, ps: seq<MixerPlugin>, at: seq<byte>, n: nat,
                        name: seq<byte>, mid: seq<byte>)
    requires n > 0 && IStringOf(at) == Some(Read(name, mid))
    requires PluginsProgress(names, size, ps, at, n)
    ensures PluginsProgress(names, size, ps + [MixerPlugin(name)], mid, n - 1)
  {
    PluginsOfStep(at, n, name, mid);
    PrependTwice(ps, [MixerPlugin(name)], PluginsOf(mid, n - 1));
  }

  lemma RecordsOfStep(t: seq<byte>, n: nat, r: MixerRecord, mid: seq<byte>)
    requires n > 0 && RecordOf(t) == Some(Read(r, mid))
    ensures RecordsOf(t, n) == Prepend([r], RecordsOf(mid, n - 1))
  {
  }

  /**
    The handler's outer loop invariant: the records read so far, followed by
    decoding `len` more from `cur`, is the decoding of all `count` from `start`.
  */
  ghost predicate RecordsProgress(start: seq<byte>, count: nat, recs: seq<MixerRecord>, cur: seq<byte>, len: nat)
  {
    RecordsOf(start, count) == Prepend(recs, RecordsOf(cur, len))
  }

  /** The outer loop invariant, carried over one record. */
  lemma RecordsLoopStep(start: seq<byte>, count: nat, recs: seq<MixerRecord>, at: seq<byte>, len: nat,
                        r: MixerRecord, mid: seq<byte>)
    requires len > 0 && RecordOf(at) == Some(Read(r, mid))
    requires RecordsProgress(start, count, recs, at, len)
    ensures RecordsProgress(start, count, recs + [r], mid, len - 1)
  {
    RecordsOfStep(at, len, r, mid);
    PrependTwice(recs, [r], RecordsOf(mid, len - 1));
  }

  lemma RecordsOfFail(t: seq<byte>, n: nat)
    requires n > 0 && RecordOf(t) == None
    ensures RecordsOf(t, n) == None
  {
  }

  /**
    Decoding what a sender encoded gives back the same count and the same
    records in the same order, with every plugin name at its original
    position, and leaves the bytes that followed the packet unread.
  */
  lemma PacketRoundTrip(rs: seq<MixerRecord>, rest: seq<byte>)
    requires |rs| < 256 && forall k :: 0 <= k < |rs| ==> WellFormed(rs[k])
    ensures PacketOf(EncodePacket(rs) + rest) == Some(Read(MixerPacket(|rs|, rs), rest))
  {
    var body := EncodeRecords(rs) + rest;
    assert EncodePacket(rs) + rest == [|rs|] + body;
    Uint8OfEncoded(|rs|, body);
    RecordsRoundTrip(rs, rest);
    PacketOfStep(EncodePacket(rs) + rest, |rs|, body, rs, rest);
  }

  // ---------------------------------------------------------------------------
  // The table and the merge policy

  /** The records as a table by identifier; a later record replaces an earlier one. */
  function ToTable(rs: seq<MixerRecord>): map<nat, TrackMixerInfo>
  {
    if rs == [] then map[] else ToTable(rs[..|rs| - 1])[rs[|rs| - 1].id := rs[|rs| - 1].info]
  }

  /** A single-record packet is overlaid on the cached table; any other count replaces it. */
  function Reconcile(cached: map<nat, TrackMixerInfo>, p: MixerPacket): map<nat, TrackMixerInfo>
  {
    if p.count == 1 then cached + ToTable(p.records) else ToTable(p.records)
  }

  /** The table has an entry for exactly the identifiers that occur in the records. */
  lemma {:induction false} ToTableKeys(rs: seq<MixerRecord>, id: nat)
    ensures id in ToTable(rs) <==> exists k :: 0 <= k < |rs| && rs[k].id == id
  {
    if rs != [] {
      var init := rs[..|rs| - 1];
      ToTableKeys(init, id);
      if exists k :: 0 <= k < |rs| && rs[k].id == id {
        var k :| 0 <= k < |rs| && rs[k].id == id;
        if k < |init| {
          assert init[k].id == id;
        }
      }
      if exists k :: 0 <= k < |init| && init[k].id == id {
        var k :| 0 <= k < |init| && init[k].id == id;
        assert rs[k].id == id;
      }
    }
  }

  /** Each entry is the record that came last for its identifier. */
  lemma {:induction false} ToTableLastWins(rs: seq<MixerRecord>, j: nat)
    requires j < |rs| && forall k :: j < k < |rs| ==> rs[k].id != rs[j].id
    ensures rs[j].id in ToTable(rs) && ToTable(rs)[rs[j].id] == rs[j].info
  {
    if j < |rs| - 1 {
      var init := rs[..|rs| - 1];
      assert init[j] == rs[j];
      assert rs[|rs| - 1].id != rs[j].id;
      ToTableLastWins(init, j);
    }
  }

  lemma ToTableSingle(r: MixerRecord)
    ensures ToTable([r]) == map[r.id := r.info]
  {
    assert [r][..0] == [];
  }

  /**
    A packet whose count is 1 holds one record, and the handler changes the
    entry of that record's identifier and no other: every other identifier
    keeps its old entry, or stays absent.
  */
  lemma OverlayWhenOne(t: seq<byte>, cached: map<nat, TrackMixerInfo>)
    requires PacketOf(t).Some? && PacketOf(t).value.value.count == 1
    ensures var p := PacketOf(t).value.value;
            |p.records| == 1 &&
            var r := p.records[0];
            Reconcile(cached, p) == cached[r.id := r.info] &&
            forall id :: id != r.id ==> (id in Reconcile(cached, p) <==> id in cached) &&
                                        (id in cached ==> Reconcile(cached, p)[id] == cached[id])
  {
    PacketOfWidth(t);
    var p := PacketOf(t).value.value;
    assert p.records == [p.records[0]];
    ToTableSingle(p.records[0]);
  }

  /**
    A packet whose count is not 1 replaces the cached table: afterwards the
    table has an entry for exactly the identifiers in the packet, holding the
    last record for each; a count of 0 empties it.
  */
  lemma ReplaceWhenNotOne(t: seq<byte>, cached: map<nat, TrackMixerInfo>, id: nat)
    requires PacketOf(t).Some? && PacketOf(t).value.value.count != 1
    ensures var p := PacketOf(t).value.value;
            Reconcile(cached, p) == ToTable(p.records) &&
            (id in Reconcile(cached, p) <==> exists k :: 0 <= k < |p.records| && p.records[k].id == id) &&
            (p.count == 0 ==> Reconcile(cached, p) == map[])
  {
    PacketOfWidth(t);
    ToTableKeys(PacketOf(t).value.value.records, id);
  }

  /**
    A full snapshot followed by a one-track delta leaves every track of the
    snapshot in the table, with only the delta's track changed.
  */
  lemma SnapshotThenDelta(cached: map<nat, TrackMixerInfo>, full: MixerPacket, delta: MixerRecord)
    requires full.count != 1
    ensures var after := Reconcile(Reconcile(cached, full), MixerPacket(1, [delta]));
            after == ToTable(full.records)[delta.id := delta.info]
  {
    ToTableSingle(delta);
  }

  // ---------------------------------------------------------------------------
  // The handler, as the view runs it on each TrackMixerInfo packet

  lemma ReconcileIs(cached: map<nat, TrackMixerInfo>, p: MixerPacket, onlyOne: bool, table: map<nat, TrackMixerInfo>)
    requires onlyOne == (p.count == 1) && table == ToTable(p.records)
    ensures Reconcile(cached, p) == if onlyOne then cached + table else table
  {
  }

  lemma PrependNil<T>(r: Option<Read<seq<T>>>)
    ensures Prepend([], r) == r
  {
    if r.Some? {
      assert [] + r.value.value == r.value.value;
    }
  }

  lemma PrependTwice<T>(xs: seq<T>, ys: seq<T>, r: Option<Read<seq<T>>>)
    ensures Prepend(xs, Prepend(ys, r)) == Prepend(xs + ys, r)
  {
    if r.Some? {
      assert xs + (ys + r.value.value) == (xs + ys) + r.value.value;
    }
  }

  lemma ToTableSnoc(rs: seq<MixerRecord>, r: MixerRecord)
    ensures ToTable(rs + [r]) == ToTable(rs)[r.id := r.info]
  {
    assert (rs + [r])[..|rs|] == rs;
  }

  /** The handler's inner loop: `n` plugin names. */
  method ReadPlugins(buf: ByteCursor, size: nat) returns (plugins: Option<seq<MixerPlugin>>)
    requires buf.offset <= |buf.bytes|
    modifies buf
    ensures buf.offset <= |buf.bytes|
    ensures match PluginsOf(old(buf.Remaining()), size)
            case None => plugins == None
            case Some(rd) => plugins == Some(rd.value) && buf.Remaining() == rd.rest
  {
    ghost var names := buf.Remaining();
    var ps: seq<MixerPlugin> := [];
    var n: nat := size;
    PrependNil(PluginsOf(names, n));
    while n > 0
      invariant buf.offset <= |buf.bytes| && n <= size
      invariant PluginsProgress(names, size, ps, buf.Remaining(), n)
      decreases n
    {
      ghost var at := buf.Remaining();
      var name := buf.ReadIString();
      if name.None? {
        return None;
      }
      PluginsLoopStep(names, size, ps, at, n, name.value, buf.Remaining());
      ps := ps + [MixerPlugin(name.value)];
      n := n - 1;
    }
    assert ps + [] == ps;
    return Some(ps);
  }

  /** One record of the handler's outer loop: id, pan, pan rule, then the plugin names. */
  method ReadRecord(buf: ByteCursor) returns (r: Option<MixerRecord>)
    requires buf.offset <= |buf.bytes|
    modifies buf
    ensures buf.offset <= |buf.bytes|
    ensures match RecordOf(old(buf.Remaining()))
            case None => r == None
            case Some(rd) => r == Some(rd.value) && buf.Remaining() == rd.rest
  {
    ghost var t := buf.Remaining();
    var id := buf.ReadUint64();
    if id.None? {
      return None;
    }
    ghost var t1 := buf.Remaining();
    var pan := buf.ReadInt8();
    if pan.None? {
      return None;
    }
    ghost var t2 := buf.Remaining();
    var panRule := buf.ReadUint8();
    if panRule.None? {
      return None;
    }
    ghost var t3 := buf.Remaining();
    var size := buf.ReadUint8();
    if size.None? {
      return None;
    }
    RecordOfFields(t, Read(id.value, t1), Read(pan.value, t2), Read(panRule.value, t3), Read(size.value, buf.Remaining()));
    var plugins := ReadPlugins(buf, size.value);
    if plugins.None? {
      return None;
    }
    return Some(MixerRecord(id.value, TrackMixerInfo(pan.value, panRule.value, plugins.value)));
  }

  /**
    The handler's outer loop: `count` records, each entered into a fresh
    table as it is read, a later record for the same track replacing an
    earlier one.
  */
  method ReadRecords(buf: ByteCursor, count: nat) returns (table: Option<map<nat, TrackMixerInfo>>)
    requires buf.offset <= |buf.bytes|
    modifies buf
    ensures buf.offset <= |buf.bytes|
    ensures match RecordsOf(old(buf.Remaining()), count)
            case None => table == None
            case Some(rd) => table == Some(ToTable(rd.value)) && buf.Remaining() == rd.rest
  {
    ghost var start := buf.Remaining();
    var entries: map<nat, TrackMixerInfo> := map[];
    ghost var recs: seq<MixerRecord> := [];
    var len: nat := count;
    PrependNil(RecordsOf(start, len));
    while len > 0
      invariant buf.offset <= |buf.bytes| && len <= count
      invariant RecordsProgress(start, count, recs, buf.Remaining(), len)
      invariant entries == ToTable(recs)
      decreases len
    {
      ghost var at := buf.Remaining();
      var r := ReadRecord(buf);
      if r.None? {
        RecordsOfFail(at, len);
        return None;
      }
      RecordsLoopStep(start, count, recs, at, len, r.value, buf.Remaining());
      ToTableSnoc(recs, r.value);
      entries := entries[r.value.id := r.value.info];
      recs := recs + [r.value];
      len := len - 1;
    }
    assert recs + [] == recs;
    return Some(entries);
  }

  /** The mixer view's cached table of per-track mixer state. */
  class MixerView {
    var mixerInfo: map<nat, TrackMixerInfo>

    constructor ()
      ensures mixerInfo == map[]
    {
      mixerInfo := map[];
    }

    /**
      Decodes one TrackMixerInfo packet from `buf` and updates the table.
      A read past the end abandons the packet and leaves the table as it was.
    */
    method OnTrackMixerInfo(buf: ByteCursor)
      requires buf.offset <= |buf.bytes|
      modifies this, buf
      ensures buf.offset <= |buf.bytes|
      ensures match PacketOf(old(buf.Remaining()))
              case None => mixerInfo == old(mixerInfo)
              case Some(rd) => mixerInfo == Reconcile(old(mixerInfo), rd.value) && buf.Remaining() == rd.rest
    {
      ghost var t0 := buf.Remaining();
      var count := buf.ReadUint8();
      if count.None? {
        assert PacketOf(t0) == None;
        return;
      }
      var onlyOne := count.value == 1;
      ghost var start := buf.Remaining();
      var table := ReadRecords(buf, count.value);
      if table.None? {
        PacketOfFail(t0, count.value, start);
        return;
      }
      ghost var recs := RecordsOf(start, count.value).value.value;
      PacketOfStep(t0, count.value, start, recs, buf.Remaining());
      ReconcileIs(mixerInfo, MixerPacket(count.value, recs), onlyOne, table.value);
      mixerInfo := if onlyOne then mixerInfo + table.value else table.value;
    }
  }

  // ---------------------------------------------------------------------------
  // The pan slider: a signed pan shown as two thumbs, one of them at zero

  datatype PanPair = PanPair(low: int, high: int)

  /** The pan a pair stands for: the thumb that is not at zero. */
  function PanOf(p: PanPair): int
  {
    if p.low == 0 then p.high else p.low
  }

  /** A positive pan moves the upper thumb; zero or a negative pan moves the lower one. */
  function PanThumbs(pan: int): PanPair
  {
    if pan > 0 then PanPair(0, pan) else PanPair(pan, 0)
  }

  /** On a new pan from the table: keep the pair if it already shows that pan. */
  function SyncPan(current: PanPair, pan: int): PanPair
  {
    if PanOf(current) == pan then current else PanThumbs(pan)
  }

  /** The slider's own change: renormalise the moved pair; no command is sent. */
  function PanSliderChange(a: int, b: int): PanPair
  {
    PanThumbs(PanOf(PanPair(a, b)))
  }

  /** The thumb that is hidden: index 0 when the lower thumb is at zero, else 1. */
  function HiddenThumb(p: PanPair): nat
  {
    if p.low == 0 then 0 else 1
  }

  predicate Normal(p: PanPair)
  {
    p.low <= 0 <= p.high && (p.low == 0 || p.high == 0)
  }

  lemma PanThumbsRoundTrip(pan: int)
    ensures Normal(PanThumbs(pan)) && PanOf(PanThumbs(pan)) == pan
    ensures pan > 0 ==> PanThumbs(pan) == PanPair(0, pan)
    ensures pan <= 0 ==> PanThumbs(pan) == PanPair(pan, 0)
  {
  }

  /**
    Syncing always leaves a pair that stands for the table's pan, leaves an
    up-to-date pair untouched, and is idempotent.
  */
  lemma SyncPanShowsPan(current: PanPair, pan: int)
    ensures PanOf(SyncPan(current, pan)) == pan
    ensures PanOf(current) == pan ==> SyncPan(current, pan) == current
    ensures SyncPan(SyncPan(current, pan), pan) == SyncPan(current, pan)
    ensures Normal(current) ==> Normal(SyncPan(current, pan))
  {
  }

  /** A slider change keeps the pan the moved pair stands for, and the pair normal. */
  lemma PanSliderChangeKeepsPan(a: int, b: int)
    ensures Normal(PanSliderChange(a, b)) && PanOf(PanSliderChange(a, b)) == PanOf(PanPair(a, b))
    ensures HiddenThumb(PanSliderChange(a, b)) == (if PanOf(PanPair(a, b)) > 0 then 0 else 1)
            || PanOf(PanPair(a, b)) == 0
  {
  }

  // ---------------------------------------------------------------------------
  // Plugin buttons and mixer strips

  /** A plugin button: its caption and the command its click sends. */
  datatype PluginButton = PluginButton(caption: seq<byte>, click: Command)

  function PluginButtons(track: int, info: TrackMixerInfo): (r: seq<PluginButton>)
  {
    seq(|info.plugins|, k requires 0 <= k < |info.plugins| =>
      PluginButton(info.plugins[k].name, OpenPluginWindow(track, Some(k))))
  }

  /**
    The k-th plugin name on the wire becomes the k-th button, and clicking it
    opens plugin slot k of the strip's track.
  */
  lemma PluginSlotIsWirePosition(rs: seq<MixerRecord>, rest: seq<byte>, i: nat, k: nat, track: int)
    requires |rs| < 256 && forall j :: 0 <= j < |rs| ==> WellFormed(rs[j])
    requires i < |rs| && k < |rs[i].info.plugins|
    ensures PacketOf(EncodePacket(rs) + rest).Some?
    ensures var p := PacketOf(EncodePacket(rs) + rest).value.value;
            i < |p.records| &&
            var buttons := PluginButtons(track, p.records[i].info);
            |buttons| == |rs[i].info.plugins| &&
            buttons[k] == PluginButton(rs[i].info.plugins[k].name, OpenPluginWindow(track, Some(k)))
  {
    PacketRoundTrip(rs, rest);
  }

  /** A mixer strip: the track, its position in the global list and its mixer state. */
  datatype MixerStrip = MixerStrip(index: nat, info: TrackInfo, mixerInfo: TrackMixerInfo, active: bool)

  /**
    The strips the view renders: one per track that has an entry in the
    table, in list order, each carrying the track's position in the global
    track list.
  */
  method RenderStrips(tracks: seq<TrackInfo>, table: map<nat, TrackMixerInfo>, activeTrack: nat)
    returns (strips: seq<MixerStrip>)
    ensures forall k :: 0 <= k < |strips| ==>
              var i := strips[k].index;
              i < |tracks| && tracks[i].uuid in table &&
              strips[k] == MixerStrip(i, tracks[i], table[tracks[i].uuid], activeTrack == tracks[i].uuid)
    ensures forall k, l :: 0 <= k < l < |strips| ==> strips[k].index < strips[l].index
    ensures forall i :: 0 <= i < |tracks| && tracks[i].uuid in table ==>
              exists k :: 0 <= k < |strips| && strips[k].index == i
  {
    strips := [];
    var i := 0;
    while i < |tracks|
      invariant 0 <= i <= |tracks|
      invariant forall k :: 0 <= k < |strips| ==>
                  var j := strips[k].index;
                  j < i && tracks[j].uuid in table &&
                  strips[k] == MixerStrip(j, tracks[j], table[tracks[j].uuid], activeTrack == tracks[j].uuid)
      invariant forall k, l :: 0 <= k < l < |strips| ==> strips[k].index < strips[l].index
      invariant forall j :: 0 <= j < i && tracks[j].uuid in table ==>
                  exists k :: 0 <= k < |strips| && strips[k].index == j
    {
      var it := tracks[i];
      if it.uuid in table {
        ghost var before := strips;
        strips := strips + [MixerStrip(i, it, table[it.uuid], activeTrack == it.uuid)];
        assert forall k :: 0 <= k < |before| ==> strips[k] == before[k];
        assert strips[|strips| - 1].index == i;
      }
      i := i + 1;
    }
  }
}
