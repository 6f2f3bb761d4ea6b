/** Reading a long source part by part: the parts of a text in UTF-16, none of which splits a surrogate pair. */
module SourceChunks {
  import opened Wrappers
  import opened InputWindows

  type Text = seq<nat>

  predicate IsHigh(unit: nat) { 0xD800 <= unit <= 0xDBFF }

  predicate IsLow(unit: nat) { 0xDC00 <= unit <= 0xDFFF }

  datatype Chunk = Chunk(text: Text, next: Option<nat>) | SOURCE_RESYNC_REQUIRED

  /** Where the part that begins at offset ends. */
  function End(text: Text, offset: nat): nat
    requires offset <= |text|
  {
    var through := Min(|text|, offset + CHUNK);
    if through < |text| && IsHigh(text[through - 1]) then through - 1 else through
  }

  /** A part of the present version; a cursor of another version, or one that leads nowhere, is refused. */
  function Part(text: Text, version: nat, cursor: Option<(nat, nat)>): Chunk {
    if cursor.Some? && (cursor.value.0 != version || cursor.value.1 >= |text|) then SOURCE_RESYNC_REQUIRED
    else
      var offset := if cursor.Some? then cursor.value.1 else 0;
      if 0 < offset && IsLow(text[offset]) then SOURCE_RESYNC_REQUIRED
      else Chunk(text[offset..End(text, offset)], if End(text, offset) < |text| then Some(End(text, offset)) else None)
  }

  /** The texts of the parts that a reader gets who follows the cursors from an offset; None if a cursor is refused. */
  function Parts(text: Text, version: nat, offset: nat): Option<seq<Text>>
    requires offset < |text| || offset == 0
    decreases |text| - offset
  {
    match Part(text, version, if offset == 0 then None else Some((version, offset)))
    case SOURCE_RESYNC_REQUIRED => None
    case Chunk(part, next) =>
      if next.None? then Some([part])
      else
        PartEnds(text, offset);
        var rest := Parts(text, version, next.value);
        if rest.None? then None else Some([part] + rest.value)
  }

  function Joined(parts: seq<Text>): Text { if parts == [] then [] else parts[0] + Joined(parts[1..]) }

  /** A low surrogate that follows no high one. */
  predicate Lone(text: Text, i: nat) { 0 < i < |text| && IsLow(text[i]) && !IsHigh(text[i - 1]) }

  lemma PartEnds(text: Text, offset: nat)
    requires offset < |text|
    ensures offset < End(text, offset) <= |text| && End(text, offset) - offset <= CHUNK
    ensures var t := End(text, offset); t < |text| ==> (IsLow(text[t]) ==> Lone(text, t))
  {
  }

  lemma NoText(offset: nat)
    requires offset == 0
    ensures End([], offset) == 0
  {
  }

  /** Following the cursors yields the rest of the text in parts of bounded length, unless a low surrogate without its high one stands at the
      end of a part. */
  lemma {:induction false} PartsCoverTheText(text: Text, version: nat, offset: nat)
    requires offset < |text| || offset == 0
    ensures var parts := Parts(text, version, offset);
      if parts.Some? then Joined(parts.value) == text[offset..] && (forall p :: p in parts.value ==> |p| <= CHUNK)
      else exists i :: offset <= i < |text| && IsLow(text[i]) && (i == offset || Lone(text, i))
    decreases |text| - offset
  {
    hide End;
    if text != [] { PartEnds(text, offset); } else { NoText(offset); }
    if offset == 0 || !IsLow(text[offset]) {
      var end := End(text, offset);
      if end < |text| {
        PartsCoverTheText(text, version, end);
        assert text[offset..] == text[offset..end] + text[end..];
        var parts := Parts(text, version, offset);
        if parts.Some? {
          assert parts.value[1..] == Parts(text, version, end).value;
        } else {
          var i :| end <= i < |text| && IsLow(text[i]) && (i == end || Lone(text, i));
          assert Lone(text, i);
        }
      } else {
        assert text[offset..end] == text[offset..];
      }
    }
  }

  /** A text in which every low surrogate follows a high one is read whole. */
  lemma WellFormedIsReadWhole(text: Text, version: nat)
    requires forall i :: 0 <= i < |text| && IsLow(text[i]) ==> i > 0 && IsHigh(text[i - 1])
    ensures Parts(text, version, 0).Some? && Joined(Parts(text, version, 0).value) == text
  {
    PartsCoverTheText(text, version, 0);
    assert text[0..] == text;
  }

  /** No part of such a text begins or ends inside a pair. */
  lemma PairsStayTogether(text: Text, version: nat, cursor: Option<(nat, nat)>)
    requires forall i :: 0 <= i < |text| && IsLow(text[i]) ==> i > 0 && IsHigh(text[i - 1])
    requires Part(text, version, cursor).Chunk? && Part(text, version, cursor).text != []
    ensures var part := Part(text, version, cursor).text; !IsLow(part[0]) && (Part(text, version, cursor).next.Some? ==> !IsHigh(part[|part| - 1]) || !IsLow(text[Part(text, version, cursor).next.value]))
  {
  }
}
