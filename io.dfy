/** Payloads of the Song (140) and Digits (164) commands, the loops that
    build them, and the notes of the preset songs. */
module Io {
  import opened Bytes
  import opened Protocol

  const MaxSongSlot: Byte := 4
  const MaxSongNotes: nat := 16

  /** note0, dur0, note1, dur1, ... */
  function Interleave(notes: seq<Byte>, durations: seq<Byte>): seq<Byte>
    requires |notes| == |durations|
  {
    if notes == [] then []
    else Interleave(notes[..|notes| - 1], durations[..|durations| - 1]) + [notes[|notes| - 1], durations[|durations| - 1]]
  }

  lemma {:induction false} InterleaveLayout(notes: seq<Byte>, durations: seq<Byte>)
    requires |notes| == |durations|
    ensures |Interleave(notes, durations)| == 2 * |notes|
    ensures forall i :: 0 <= i < |notes| ==>
      Interleave(notes, durations)[2 * i] == notes[i] && Interleave(notes, durations)[2 * i + 1] == durations[i]
  {
    if notes != [] {
      InterleaveLayout(notes[..|notes| - 1], durations[..|durations| - 1]);
    }
  }

  /** [slot, n, note0, dur0, ..., note(n-1), dur(n-1)] */
  function SongPayload(slot: Byte, notes: seq<Byte>, durations: seq<Byte>): (p: seq<Byte>)
    requires |notes| == |durations| <= MaxSongNotes
    ensures |p| == 2 + 2 * |notes|
    ensures p[0] == slot && p[1] == |notes|
    ensures forall i :: 0 <= i < |notes| ==> p[2 + 2 * i] == notes[i] && p[3 + 2 * i] == durations[i]
  {
    InterleaveLayout(notes, durations);
    [slot, |notes|] + Interleave(notes, durations)
  }

  /** The `push_back` loop of `song`. */
  method BuildSongPayload(slot: Byte, notes: seq<Byte>, durations: seq<Byte>) returns (data: seq<Byte>)
    requires |notes| == |durations| <= MaxSongNotes
    ensures data == SongPayload(slot, notes, durations)
  {
    data := [slot, |notes|];
    for i := 0 to |notes|
      invariant data == [slot, |notes|] + Interleave(notes[..i], durations[..i])
    {
      assert notes[..i + 1][..i] == notes[..i] && durations[..i + 1][..i] == durations[..i];
      data := data + [notes[i], durations[i]];
    }
    assert notes[..|notes|] == notes && durations[..|durations|] == durations;
  }

  /** A byte outside printable ASCII [32, 126] is shown as a space. */
  function Printable(ch: Byte): (r: Byte)
    ensures 32 <= r <= 126
    ensures 32 <= ch <= 126 ==> r == ch
  {
    if ch < 32 || ch > 126 then 32 else ch
  }

  /** The last four characters of the text, or all of it when shorter. */
  function LastFour(text: seq<Byte>): (t: seq<Byte>)
    ensures |t| <= 4
  {
    if |text| > 4 then text[|text| - 4..] else text
  }

  /** The four display bytes: the last four characters, left-aligned,
      space-padded, each sanitised. */
  function DisplayPayload(text: seq<Byte>): (p: seq<Byte>)
    ensures |p| == 4
    ensures forall i :: 0 <= i < 4 ==> 32 <= p[i] <= 126
  {
    var t := LastFour(text);
    seq(4, i requires 0 <= i < 4 => if i < |t| then Printable(t[i]) else 32)
  }

  /** The loop of `writeToDisplay` over a 4-byte array preset to spaces. */
  method BuildDisplay(text: seq<Byte>) returns (display: seq<Byte>)
    ensures display == DisplayPayload(text)
  {
    var data := new Byte[4](_ => 32);
    var startPos := 0;
    if |text| > 4 {
      startPos := |text| - 4;
    }
    var count := if |text| - startPos < 4 then |text| - startPos else 4;
    for i := 0 to count
      invariant forall k :: 0 <= k < i ==> data[k] == Printable(text[startPos + k])
      invariant forall k :: i <= k < 4 ==> data[k] == 32
    {
      var ch := text[startPos + i];
      if ch < 32 || ch > 126 {
        ch := 32;
      }
      data[i] := ch;
    }
    display := data[..];
  }

  /** A text of at least four printable characters shows exactly its last four. */
  lemma DisplayLongText(text: seq<Byte>)
    requires |text| >= 4
    requires forall i :: 0 <= i < |text| ==> 32 <= text[i] <= 126
    ensures DisplayPayload(text) == text[|text| - 4..]
  {
  }

  /** A shorter printable text is shown left-aligned and padded with spaces. */
  lemma DisplayShortText(text: seq<Byte>)
    requires |text| < 4
    requires forall i :: 0 <= i < |text| ==> 32 <= text[i] <= 126
    ensures DisplayPayload(text) == text + seq(4 - |text|, _ => 32)
  {
  }

  /** "HELLO" shows as "ELLO"; "AB" as "AB  "; a control character as a space. */
  lemma DisplayExamples()
    ensures DisplayPayload([72, 69, 76, 76, 79]) == [69, 76, 76, 79]
    ensures DisplayPayload([65, 66]) == [65, 66, 32, 32]
    ensures DisplayPayload([9, 65, 200, 66]) == [32, 65, 32, 66]
  {
    DisplayLongText([72, 69, 76, 76, 79]);
    DisplayShortText([65, 66]);
  }

  // Preset songs
  const CrowdPleaserNotes: seq<Byte> := [81, 0, 83, 0, 85, 0, 88, 0, 90, 92, 90, 0, 88, 0, 85, 83]
  const CrowdPleaser2Notes: seq<Byte> := [69, 0, 71, 0, 73, 0, 76, 0, 78, 80, 78, 0, 76, 0, 73, 71]
  const CrowdPleaserDurations: seq<Byte> := [16, 16, 16, 16, 16, 16, 16, 16, 32, 16, 16, 16, 16, 16, 144, 128]
  const DaftPunkNotes1: seq<Byte> := [54, 57, 66, 69, 85, 69, 66, 69, 52, 64, 69, 64, 71, 69, 68, 69]
  const DaftPunkNotes2: seq<Byte> := [38, 38, 66, 50, 71, 69, 66, 50, 38, 38, 54, 57, 42, 42, 42, 42]
  const DaftPunkDurations: seq<Byte> := [16, 16, 16, 16, 16, 16, 16, 16, 16, 16, 16, 16, 16, 16, 16, 16]
  const InTheEndNotes: seq<Byte> := [63, 70, 70, 66, 65, 65, 65, 65, 66]
  const InTheEndDurations: seq<Byte> := [64, 64, 64, 64, 64, 64, 64, 32, 32]

  /** Length of the spans `playInTheEnd` passes to `song`. */
  const InTheEndSpan: nat := 16

  /** The memory a 16-element span covers past the end of a 9-element array. */
  type Overrun = s: seq<Byte> | |s| == 7 witness [0, 0, 0, 0, 0, 0, 0]

  /** The notes `playInTheEnd` actually uploads: its 9 notes followed by the
      7 bytes that lie past the array. */
  function InTheEndSpanOver(declared: seq<Byte>, beyond: Overrun): (s: seq<Byte>)
    requires |declared| == 9
    ensures |s| == InTheEndSpan && s[..9] == declared && s[9..] == beyond
  {
    declared + beyond
  }

  /** The spans of `playInTheEnd` are longer than the arrays they cover. */
  lemma InTheEndSpansOverrun()
    ensures |InTheEndNotes| == 9 && |InTheEndDurations| == 9 && InTheEndSpan > 9
  {
  }
}
