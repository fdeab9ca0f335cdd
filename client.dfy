/**
  Client-side view state and the commands the views send to the backend.

  A track is addressed by its position in the global track list (`index`,
  0 being the master track) and named by its numeric identifier (`uuid`).
  The "leave unchanged" conventions of update-track-info are explicit here:
  an absent name or color is `None`, and a volume of -1 means "keep the
  current volume".
*/
module Client {
  import opened Util

  /** A track as the client's global state holds it. */
  datatype TrackInfo = TrackInfo(
    uuid: nat,
    name: string,
    color: string,
    volume: real,
    muted: bool,
    solo: bool,
    hasInstrument: bool)

  /** The volume sentinel meaning "leave the volume as it is". */
  const VOLUME_UNCHANGED: real := -1.0

  /** Outbound commands, with the arguments the views pass. */
  datatype Command =
    | UpdateTrackInfo(index: int, name: Option<string>, color: Option<string>, volume: real, muted: bool, solo: bool)
    | CreateTrack(pluginData: string, insertAt: Option<int>, name: Option<string>)
    | LoadPlugin(track: int, pluginData: string)
    | OpenPluginWindow(track: int, slot: Option<int>)
    | GetTracksMixerInfo
    | Refresh

  /** Actions dispatched to the client's own state. */
  datatype Action = UpdateTrack(index: int, volume: real)

  /** One step a UI handler takes, in the order it takes them. */
  datatype Effect = Send(command: Command) | Dispatch(action: Action)

  /** The mute button: flip `muted`, keep `solo`, leave name, color and volume alone. */
  function MuteToggle(index: int, info: TrackInfo): seq<Effect>
  {
    [Send(UpdateTrackInfo(index, None, None, VOLUME_UNCHANGED, !info.muted, info.solo))]
  }

  /** The color picker: send `'#' + hex`, keep the other fields. */
  function ColorChange(index: int, hex: string, info: TrackInfo): seq<Effect>
  {
    [Send(UpdateTrackInfo(index, None, Some("#" + hex), VOLUME_UNCHANGED, info.muted, info.solo))]
  }

  /** The volume slider: send the command, then update the local state at once. */
  function VolumeChange(index: int, volume: real, info: TrackInfo): seq<Effect>
  {
    [Send(UpdateTrackInfo(index, None, None, volume, info.muted, info.solo)),
     Dispatch(UpdateTrack(index, volume))]
  }

  /** The "add track" button, given the current number of tracks. */
  function AddTrackClick(trackCount: nat): seq<Effect>
  {
    [Send(CreateTrack("", Some(-1), Some("轨道" + Decimal(trackCount + 1))))]
  }

  /**
    What an update-track-info command means for the track it addresses under
    the sentinel convention: absent fields and the volume sentinel keep the
    current value; `muted` and `solo` are always taken from the command.
  */
  function ApplyUpdate(info: TrackInfo, c: Command): (r: TrackInfo)
    requires c.UpdateTrackInfo?
    ensures r.uuid == info.uuid && r.hasInstrument == info.hasInstrument
    ensures r.muted == c.muted && r.solo == c.solo
    ensures c.name.None? ==> r.name == info.name
    ensures c.color.None? ==> r.color == info.color
    ensures c.volume == VOLUME_UNCHANGED ==> r.volume == info.volume
  {
    info.(
      name := if c.name.Some? then c.name.value else info.name,
      color := if c.color.Some? then c.color.value else info.color,
      volume := if c.volume == VOLUME_UNCHANGED then info.volume else c.volume,
      muted := c.muted,
      solo := c.solo)
  }

  /** The optimistic local update: the addressed track takes the new volume. */
  function Reduce(tracks: seq<TrackInfo>, a: Action): (r: seq<TrackInfo>)
    ensures |r| == |tracks|
  {
    if 0 <= a.index < |tracks| then tracks[a.index := tracks[a.index].(volume := a.volume)] else tracks
  }

  lemma MuteToggleFlipsOnlyMuted(index: int, info: TrackInfo)
    ensures |MuteToggle(index, info)| == 1 && MuteToggle(index, info)[0].Send?
    ensures var c := MuteToggle(index, info)[0].command;
            c.UpdateTrackInfo? && c.index == index &&
            c.name.None? && c.color.None? && c.volume == VOLUME_UNCHANGED &&
            c.muted == !info.muted && c.solo == info.solo &&
            ApplyUpdate(info, c) == info.(muted := !info.muted)
  {
  }

  lemma ColorChangeSetsOnlyColor(index: int, hex: string, info: TrackInfo)
    ensures |ColorChange(index, hex, info)| == 1 && ColorChange(index, hex, info)[0].Send?
    ensures var c := ColorChange(index, hex, info)[0].command;
            c.UpdateTrackInfo? && c.index == index &&
            c.name.None? && c.color == Some("#" + hex) && c.volume == VOLUME_UNCHANGED &&
            c.muted == info.muted && c.solo == info.solo &&
            ApplyUpdate(info, c) == info.(color := "#" + hex)
  {
  }

  /**
    The volume handler sends first and dispatches second, and the local state
    it produces for the addressed track is the one the command describes;
    every other track is left alone.
  */
  lemma VolumeChangeOptimisticAgrees(tracks: seq<TrackInfo>, index: int, volume: real)
    requires 0 <= index < |tracks| && volume >= 0.0
    ensures var fx := VolumeChange(index, volume, tracks[index]);
            |fx| == 2 && fx[0].Send? && fx[1].Dispatch? &&
            fx[0].command.index == fx[1].action.index == index &&
            fx[0].command.volume == volume && fx[1].action.volume == volume &&
            fx[0].command.name.None? && fx[0].command.color.None? &&
            fx[0].command.muted == tracks[index].muted && fx[0].command.solo == tracks[index].solo &&
            Reduce(tracks, fx[1].action)[index] == ApplyUpdate(tracks[index], fx[0].command) &&
            forall k :: 0 <= k < |tracks| && k != index ==> Reduce(tracks, fx[1].action)[k] == tracks[k]
  {
  }

  /** Decimal rendering, as JavaScript prints a non-negative integer. */
  function Decimal(n: nat): (r: string)
    ensures |r| >= 1
    ensures forall i :: 0 <= i < |r| ==> '0' <= r[i] <= '9'
  {
    if n < 10 then [DigitChar(n)] else Decimal(n / 10) + [DigitChar(n % 10)]
  }

  function DigitChar(d: nat): (c: char)
    requires d < 10
    ensures '0' <= c <= '9'
  {
    ('0' as int + d) as char
  }

  /** The reading of a string of decimal digits; the inverse of `Decimal`. */
  function ParseDecimal(s: string): nat
    requires forall i :: 0 <= i < |s| ==> '0' <= s[i] <= '9'
  {
    if s == [] then 0 else ParseDecimal(s[..|s| - 1]) * 10 + (s[|s| - 1] as int - '0' as int)
  }

  lemma {:induction false} ParseDecimalOfDecimal(n: nat)
    ensures ParseDecimal(Decimal(n)) == n
  {
    if n >= 10 {
      var s := Decimal(n / 10) + [DigitChar(n % 10)];
      assert s[..|s| - 1] == Decimal(n / 10);
      ParseDecimalOfDecimal(n / 10);
    }
  }

  /**
    "Add track" asks for a new track with no plugin, at no particular index,
    named "轨道" followed by the decimal rendering of the new track count.
  */
  lemma AddTrackNamesNextTrack(trackCount: nat)
    ensures var fx := AddTrackClick(trackCount);
            |fx| == 1 && fx[0].Send? && fx[0].command.CreateTrack? &&
            fx[0].command.pluginData == "" && fx[0].command.insertAt == Some(-1) &&
            fx[0].command.name.Some? &&
            var name := fx[0].command.name.value;
            |name| > 2 && name[..2] == "轨道" &&
            (forall i :: 2 <= i < |name| ==> '0' <= name[i] <= '9') &&
            ParseDecimal(name[2..]) == trackCount + 1
  {
    var name := "轨道" + Decimal(trackCount + 1);
    assert name[2..] == Decimal(trackCount + 1);
    ParseDecimalOfDecimal(trackCount + 1);
  }
}
