/**
  The track list view: its zoom levels, the per-track redraw notifiers it
  registers while a track is on screen, and the rows it lays out, one per
  track after the master.
*/
module TrackList {
  import opened Util
  import opened Client

  /** The width of a tick at each zoom level, narrowest first. */
  const NOTE_WIDTHS: seq<real> := [0.1, 0.2, 0.3, 0.4, 0.5, 0.6, 0.75, 1.0, 1.5, 2.0, 3.0, 4.5]

  /** The zoom level the view opens with. */
  const INITIAL_LEVEL: nat := 3

  /**
    One zoom step from the play ruler: down one level when `down` holds,
    up one otherwise, clamped to the levels that exist.
  */
  function ZoomStep(level: int, down: bool): (r: int)
    ensures 0 <= r < |NOTE_WIDTHS|
  {
    var stepped := level + (if down then -1 else 1);
    var capped := if stepped < |NOTE_WIDTHS| - 1 then stepped else |NOTE_WIDTHS| - 1;
    if capped > 0 then capped else 0
  }

  /** The widths grow strictly from one level to the next. */
  lemma NoteWidthsIncrease(i: nat, j: nat)
    requires i < j < |NOTE_WIDTHS|
    ensures NOTE_WIDTHS[i] < NOTE_WIDTHS[j]
  {
    var w := NOTE_WIDTHS;
    assert forall k :: 0 <= k < |w| - 1 ==> w[k] < w[k + 1];
    if j > i + 1 {
      NoteWidthsIncrease(i, j - 1);
    }
  }

  /**
    From any existing level a step moves by exactly one level unless it is
    already at the end it moves toward; a step down never widens the notes
    and a step up never narrows them.
  */
  lemma ZoomStepMovesOneLevel(level: nat, down: bool)
    requires level < |NOTE_WIDTHS|
    ensures down && level > 0 ==> ZoomStep(level, down) == level - 1
    ensures down && level == 0 ==> ZoomStep(level, down) == 0
    ensures !down && level < |NOTE_WIDTHS| - 1 ==> ZoomStep(level, down) == level + 1
    ensures !down && level == |NOTE_WIDTHS| - 1 ==> ZoomStep(level, down) == level
    ensures down ==> NOTE_WIDTHS[ZoomStep(level, down)] <= NOTE_WIDTHS[level]
    ensures !down ==> NOTE_WIDTHS[ZoomStep(level, down)] >= NOTE_WIDTHS[level]
  {
    var r := ZoomStep(level, down);
    if r < level {
      NoteWidthsIncrease(r, level);
    } else if r > level {
      NoteWidthsIncrease(level, r);
    }
  }

  // ---------------------------------------------------------------------
  // Redraw notifiers

  /** The redraw callback of one mounted track lane. */
  datatype Notifier = Redraw(lane: nat)

  /** The client's table of redraw callbacks, keyed by track uuid. */
  class NotifierRegistry {
    var notifiers: map<nat, Notifier>

    constructor ()
      ensures notifiers == map[]
    {
      notifiers := map[];
    }

    /** A lane mounting registers its callback under its track's uuid. */
    method Mount(uuid: nat, n: Notifier)
      modifies this
      ensures notifiers == old(notifiers)[uuid := n]
    {
      notifiers := notifiers[uuid := n];
    }

    /** A lane unmounting deletes the entry under its track's uuid and no other. */
    method Unmount(uuid: nat)
      modifies this
      ensures notifiers == old(notifiers) - {uuid}
    {
      notifiers := notifiers - {uuid};
    }
  }

  /**
    Mounting and then unmounting a lane leaves the table as it was when no
    lane of that track was mounted before, and every other track's entry
    is kept throughout.
  */
  lemma MountThenUnmountRestores(m: map<nat, Notifier>, uuid: nat, n: Notifier)
    ensures uuid !in m ==> m[uuid := n] - {uuid} == m
    ensures m[uuid := n] - {uuid} == m - {uuid}
    ensures forall k :: k in m && k != uuid ==> k in m[uuid := n] - {uuid} && (m[uuid := n] - {uuid})[k] == m[k]
  {
    var after := m[uuid := n] - {uuid};
    assert after.Keys == m.Keys - {uuid};
    if uuid !in m {
      assert after.Keys == m.Keys;
    }
  }

  // ---------------------------------------------------------------------
  // Track rows

  /** A note as the client keeps it for drawing: key, velocity, start and length. */
  datatype MidiNote = MidiNote(key: nat, velocity: nat, start: nat, duration: nat)

  /** The controls of one track, with its position in the global track list. */
  datatype ActionRow = ActionRow(index: nat, info: TrackInfo)

  /** The note lane of one track: its uuid, its color and its notes if any have arrived. */
  datatype Lane = Lane(uuid: nat, color: string, notes: Option<seq<MidiNote>>)

  function NotesFor(midiData: map<nat, seq<MidiNote>>, uuid: nat): Option<seq<MidiNote>>
  {
    if uuid in midiData then Some(midiData[uuid]) else None
  }

  /**
    The rows of the track list: one control row and one lane per track,
    from position 1 on, in list order; the master track at position 0 gets
    neither.
  */
  method TrackRows(tracks: seq<TrackInfo>, midiData: map<nat, seq<MidiNote>>)
    returns (actions: seq<ActionRow>, midis: seq<Lane>)
    ensures |actions| == |midis| == if |tracks| == 0 then 0 else |tracks| - 1
    ensures forall k :: 0 <= k < |actions| ==> actions[k] == ActionRow(k + 1, tracks[k + 1])
    ensures forall k :: 0 <= k < |midis| ==>
              midis[k] == Lane(tracks[k + 1].uuid, tracks[k + 1].color, NotesFor(midiData, tracks[k + 1].uuid))
    ensures forall r :: r in actions ==> 1 <= r.index < |tracks| && r.info == tracks[r.index]
  {
    actions, midis := [], [];
    var i := 1;
    while i < |tracks|
      invariant 1 <= i <= if |tracks| == 0 then 1 else |tracks|
      invariant |actions| == |midis| == i - 1
      invariant forall k :: 0 <= k < |actions| ==> actions[k] == ActionRow(k + 1, tracks[k + 1])
      invariant forall k :: 0 <= k < |midis| ==>
                  midis[k] == Lane(tracks[k + 1].uuid, tracks[k + 1].color, NotesFor(midiData, tracks[k + 1].uuid))
    {
      var it := tracks[i];
      actions := actions + [ActionRow(i, it)];
      midis := midis + [Lane(it.uuid, it.color, NotesFor(midiData, it.uuid))];
      i := i + 1;
    }
  }
}
