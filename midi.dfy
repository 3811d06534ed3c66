/**
 * The event stream of `generate_midi_file`: for every chord of the progression,
 * in order, one `note_on` per pitch of its voicing and then one `note_off` per
 * pitch, in the same pitch order. The MIDI container and the file it is saved
 * to are not modelled; the method returns the messages appended to the track.
 */
module Midi {
  import opened Wrappers
  import opened Seqs
  import opened MusicTheory

  datatype Kind = NoteOn | NoteOff

  /** A mido `Message`: its type, note, velocity and delta time in ticks. */
  datatype Message = Message(kind: Kind, note: int, velocity: nat, time: nat)

  const Velocity: nat := 64
  /** The delta time of every `note_off`. */
  const OffTicks: nat := 480

  /** The `note_on` messages for the pitches `ps`, in order, each with delta time 0. */
  function NoteOns(ps: seq<int>): (r: seq<Message>)
    ensures |r| == |ps|
    ensures forall k :: 0 <= k < |ps| ==> r[k] == Message(NoteOn, ps[k], Velocity, 0)
  {
    if ps == [] then [] else NoteOns(ps[..|ps| - 1]) + [Message(NoteOn, ps[|ps| - 1], Velocity, 0)]
  }

  /** The `note_off` messages for the pitches `ps`, in order, each with delta time 480. */
  function NoteOffs(ps: seq<int>): (r: seq<Message>)
    ensures |r| == |ps|
    ensures forall k :: 0 <= k < |ps| ==> r[k] == Message(NoteOff, ps[k], Velocity, OffTicks)
  {
    if ps == [] then [] else NoteOffs(ps[..|ps| - 1]) + [Message(NoteOff, ps[|ps| - 1], Velocity, OffTicks)]
  }

  /** What one chord appends to the track. */
  function ChordEvents(ps: seq<int>): (es: seq<Message>)
    ensures |es| == 2 * |ps|
    ensures forall k :: 0 <= k < |ps| ==>
      es[k] == Message(NoteOn, ps[k], Velocity, 0) && es[|ps| + k] == Message(NoteOff, ps[k], Velocity, OffTicks)
  {
    NoteOns(ps) + NoteOffs(ps)
  }

  /** What a sequence of voicings appends to the track, chord after chord. */
  function Events(chords: seq<seq<int>>): (es: seq<Message>)
    ensures |es| == 2 * NoteCount(chords)
  {
    if chords == [] then [] else Events(chords[..|chords| - 1]) + ChordEvents(chords[|chords| - 1])
  }

  /** The voicing of every chord of `progression` in `key`, once the key is known to `CHORD_DICT`. */
  function Voicings(key: string, progression: seq<string>): (vs: seq<seq<int>>)
    requires progression == [] || StandardKey(key) in ChordDict
    ensures |vs| == |progression|
  {
    if progression == [] then []
    else
      Voicings(key, progression[..|progression| - 1])
        + [ChordToMidi(StandardKey(key), progression[|progression| - 1]).value]
  }

  lemma VoicingsStep(key: string, progression: seq<string>, i: nat)
    requires i < |progression| && StandardKey(key) in ChordDict
    ensures Voicings(key, progression[..i + 1])
      == Voicings(key, progression[..i]) + [ChordToMidi(StandardKey(key), progression[i]).value]
  {
    assert progression[..i + 1][..i] == progression[..i];
  }

  /** The two inner loops of `generate_midi_file`: the note-ons of one chord, then its note-offs. */
  method AppendChord(track: seq<Message>, notes: seq<int>) returns (out: seq<Message>)
    ensures out == track + ChordEvents(notes)
  {
    out := track;
    var j := 0;
    while j < |notes|
      invariant 0 <= j <= |notes|
      invariant out == track + NoteOns(notes[..j])
    {
      assert notes[..j + 1][..j] == notes[..j];
      out := out + [Message(NoteOn, notes[j], Velocity, 0)];
      j := j + 1;
    }
    assert notes[..|notes|] == notes;
    j := 0;
    while j < |notes|
      invariant 0 <= j <= |notes|
      invariant out == track + NoteOns(notes) + NoteOffs(notes[..j])
    {
      assert notes[..j + 1][..j] == notes[..j];
      out := out + [Message(NoteOff, notes[j], Velocity, OffTicks)];
      j := j + 1;
    }
  }

  lemma EventsStep(key: string, progression: seq<string>, i: nat)
    requires i < |progression| && StandardKey(key) in ChordDict
    ensures Events(Voicings(key, progression[..i + 1]))
      == Events(Voicings(key, progression[..i])) + ChordEvents(ChordToMidi(StandardKey(key), progression[i]).value)
  {
    VoicingsStep(key, progression, i);
    var vs := Voicings(key, progression[..i + 1]);
    assert vs[..|vs| - 1] == Voicings(key, progression[..i]);
  }

  /**
   * `generate_midi_file(key, progression)` up to `mid.save`. The key is
   * normalised once per chord and looked up; a key missing from `CHORD_DICT`
   * raises `KeyError` at the first chord, so an empty progression never fails.
   */
  method GenerateMidiEvents(key: string, progression: seq<string>) returns (r: Result<seq<Message>, LookupError>)
    ensures r.Err? <==> progression != [] && StandardKey(key) !in ChordDict
    ensures r.Err? ==> r.error == KeyError(StandardKey(key))
    ensures r.Ok? ==> r.value == Events(Voicings(key, progression))
  {
    var track: seq<Message> := [];
    var i := 0;
    while i < |progression|
      invariant 0 <= i <= |progression|
      invariant i > 0 ==> StandardKey(key) in ChordDict
      invariant track == Events(Voicings(key, progression[..i]))
    {
      var keyStandard := StandardKey(key);
      var resolved := ChordToMidi(keyStandard, progression[i]);
      if resolved.Err? {
        return Err(resolved.error);
      }
      track := AppendChord(track, resolved.value);
      EventsStep(key, progression, i);
      i := i + 1;
    }
    assert progression[..|progression|] == progression;
    return Ok(track);
  }

  // ---------------------------------------------------------------------------
  // Properties of the event stream

  /** The number of pitches over all voicings. */
  function NoteCount(chords: seq<seq<int>>): nat
  {
    if chords == [] then 0 else NoteCount(chords[..|chords| - 1]) + |chords[|chords| - 1]|
  }

  /** The sum of the delta times: the length of the track in ticks. */
  function Ticks(events: seq<Message>): nat
  {
    if events == [] then 0 else Ticks(events[..|events| - 1]) + events[|events| - 1].time
  }

  lemma {:induction false} TicksAppend(a: seq<Message>, b: seq<Message>)
    ensures Ticks(a + b) == Ticks(a) + Ticks(b)
    decreases |b|
  {
    if b == [] {
      assert a + b == a;
    } else {
      assert (a + b)[..|a + b| - 1] == a + b[..|b| - 1];
      TicksAppend(a, b[..|b| - 1]);
    }
  }

  lemma {:induction false} NoteOnTicks(ps: seq<int>)
    ensures Ticks(NoteOns(ps)) == 0
  {
    if ps != [] {
      NoteOnTicks(ps[..|ps| - 1]);
      TicksAppend(NoteOns(ps[..|ps| - 1]), [Message(NoteOn, ps[|ps| - 1], Velocity, 0)]);
    }
  }

  lemma {:induction false} NoteOffTicks(ps: seq<int>)
    ensures Ticks(NoteOffs(ps)) == OffTicks * |ps|
  {
    if ps != [] {
      NoteOffTicks(ps[..|ps| - 1]);
      TicksAppend(NoteOffs(ps[..|ps| - 1]), [Message(NoteOff, ps[|ps| - 1], Velocity, OffTicks)]);
    }
  }

  /** A chord of `n` pitches appends `2n` messages spanning `480n` ticks: 1440 for a triad, none for `[]`. */
  lemma ChordSpan(ps: seq<int>)
    ensures |ChordEvents(ps)| == 2 * |ps|
    ensures Ticks(ChordEvents(ps)) == OffTicks * |ps|
  {
    NoteOnTicks(ps);
    NoteOffTicks(ps);
    TicksAppend(NoteOns(ps), NoteOffs(ps));
  }

  /** The stream has two messages per pitch and lasts 480 ticks per pitch. */
  lemma {:induction false} EventTotals(chords: seq<seq<int>>)
    ensures |Events(chords)| == 2 * NoteCount(chords)
    ensures Ticks(Events(chords)) == OffTicks * NoteCount(chords)
  {
    if chords != [] {
      var init, last := chords[..|chords| - 1], chords[|chords| - 1];
      EventTotals(init);
      ChordSpan(last);
      TicksAppend(Events(init), ChordEvents(last));
    }
  }

  /** The stream of a concatenation is the concatenation of the streams. */
  lemma {:induction false} EventsAppend(a: seq<seq<int>>, b: seq<seq<int>>)
    ensures Events(a + b) == Events(a) + Events(b)
    decreases |b|
  {
    if b == [] {
      assert a + b == a;
    } else {
      var init, last := b[..|b| - 1], b[|b| - 1];
      assert (a + b)[..|a + b| - 1] == a + init;
      assert (a + b)[|a + b| - 1] == last;
      EventsAppend(a, init);
      calc {
        Events(a + b);
        Events(a + init) + ChordEvents(last);
        (Events(a) + Events(init)) + ChordEvents(last);
        Events(a) + (Events(init) + ChordEvents(last));
        Events(a) + Events(b);
      }
    }
  }

  predicate Resolved(ps: seq<int>)
  {
    ps != []
  }

  /** Unresolved chords leave no trace: the stream equals the stream of the resolved chords alone. */
  lemma {:induction false} UnresolvedChordsSilent(chords: seq<seq<int>>)
    ensures Events(chords) == Events(Filter(chords, Resolved))
  {
    if chords != [] {
      var init, last := chords[..|chords| - 1], chords[|chords| - 1];
      UnresolvedChordsSilent(init);
      if Resolved(last) {
        EventsAppend(Filter(init, Resolved), [last]);
        assert [last][..0] == [];
      } else {
        assert ChordEvents(last) == [];
      }
    }
  }

  lemma EventsSingleton(ps: seq<int>)
    ensures Events([ps]) == ChordEvents(ps)
  {
    assert [ps][..0] == [];
  }

  /** The messages of chord `c` follow those of the chords before it and precede those of the chords after it. */
  lemma ChordPlacement(chords: seq<seq<int>>, c: nat)
    requires c < |chords|
    ensures Events(chords) == Events(chords[..c]) + ChordEvents(chords[c]) + Events(chords[c + 1..])
  {
    var before, chord, after := chords[..c], [chords[c]], chords[c + 1..];
    SplitAt(chords, c);
    EventsAppend(before + chord, after);
    EventsAppend(before, chord);
    EventsSingleton(chords[c]);
  }

  /** A message as `generate_midi_file` writes it: a MIDI note, velocity 64, delta 0 for `note_on` and 480 for `note_off`. */
  predicate WellFormed(m: Message)
  {
    && 0 <= m.note <= MaxMidiNote
    && m.velocity == Velocity
    && m.time == (if m.kind == NoteOn then 0 else OffTicks)
  }

  lemma {:induction false} EventsWellFormed(chords: seq<seq<int>>)
    requires forall c :: 0 <= c < |chords| ==> Within(chords[c], 0, MaxMidiNote)
    ensures forall k :: 0 <= k < |Events(chords)| ==> WellFormed(Events(chords)[k])
  {
    if chords != [] {
      var init, last := chords[..|chords| - 1], chords[|chords| - 1];
      EventsWellFormed(init);
      assert forall k :: 0 <= k < |ChordEvents(last)| ==> WellFormed(ChordEvents(last)[k]);
    }
  }

  lemma {:induction false} VoicingAt(key: string, progression: seq<string>, i: nat)
    requires StandardKey(key) in ChordDict && i < |progression|
    ensures Voicings(key, progression)[i] == ChordToMidi(StandardKey(key), progression[i]).value
  {
    if i < |progression| - 1 {
      VoicingAt(key, progression[..|progression| - 1], i);
    }
  }

  /** Every message of a generated track is well formed. */
  lemma GeneratedMessagesValid(key: string, progression: seq<string>)
    requires progression == [] || StandardKey(key) in ChordDict
    ensures var es := Events(Voicings(key, progression));
      forall k :: 0 <= k < |es| ==> WellFormed(es[k])
  {
    var vs := Voicings(key, progression);
    forall c | 0 <= c < |vs| ensures Within(vs[c], 0, MaxMidiNote) {
      VoicingAt(key, progression, c);
      ChordToMidiRange(StandardKey(key), progression[c]);
    }
    EventsWellFormed(vs);
  }

  /** `I` in C: three note-ons at delta 0, then three note-offs at delta 480, so the triad spans 1440 ticks. */
  lemma CMajorTriadExample(key: string, progression: seq<string>)
    requires key == "C" && progression == ["I"]
    ensures StandardKey(key) in ChordDict
    ensures Events(Voicings(key, progression)) == [
      Message(NoteOn, 60, 64, 0), Message(NoteOn, 64, 64, 0), Message(NoteOn, 67, 64, 0),
      Message(NoteOff, 60, 64, 480), Message(NoteOff, 64, 64, 480), Message(NoteOff, 67, 64, 480)]
    ensures Ticks(Events(Voicings(key, progression))) == 1440
  {
    CMajorTriadVoicing(key, progression);
    var vs: seq<seq<int>> := [[60, 64, 67]];
    EventsSingleton(vs[0]);
    ChordSpan(vs[0]);
  }

  lemma CMajorTriadVoicing(key: string, progression: seq<string>)
    requires key == "C" && progression == ["I"]
    ensures StandardKey(key) in ChordDict
    ensures Voicings(key, progression) == [[60, 64, 67]]
  {
    CMajorTonicExample();
    assert StandardKey(key) == "C";
    assert progression[..0] == [];
  }

  /** Two voicings follow each other: all of the first chord's messages precede the second's. */
  lemma TwoChordExample()
    ensures Events([[60, 64, 67], [65, 69, 72]]) == [
      Message(NoteOn, 60, 64, 0), Message(NoteOn, 64, 64, 0), Message(NoteOn, 67, 64, 0),
      Message(NoteOff, 60, 64, 480), Message(NoteOff, 64, 64, 480), Message(NoteOff, 67, 64, 480),
      Message(NoteOn, 65, 64, 0), Message(NoteOn, 69, 64, 0), Message(NoteOn, 72, 64, 0),
      Message(NoteOff, 65, 64, 480), Message(NoteOff, 69, 64, 480), Message(NoteOff, 72, 64, 480)]
  {
  }
}
