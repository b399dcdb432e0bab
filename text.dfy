/** String helpers shared by the C++ core: byte lengths and the "sender: content" label. */
module Text {
  import opened Wrappers

  /** Number of bytes the UTF-8 encoding of `c` takes. */
  function CharWidth(c: char): nat {
    if c as int < 0x80 then 1
    else if c as int < 0x800 then 2
    else if c as int < 0x10000 then 3
    else 4
  }

  /**
   * The byte length of `s` as std::string::length reports it for UTF-8 text.
   * Dafny characters are Unicode scalar values, so a character may take up to four bytes.
   */
  function Utf8Length(s: string): (n: nat)
    ensures |s| <= n <= 4 * |s|
  {
    if s == [] then 0 else CharWidth(s[0]) + Utf8Length(s[1..])
  }

  /** A text is shorter than two bytes exactly when it is empty or one ASCII character. */
  lemma {:induction false} ShorterThanTwoBytes(s: string)
    ensures Utf8Length(s) < 2 <==> s == [] || (|s| == 1 && s[0] as int < 0x80)
  {
    if s != [] {
      assert Utf8Length(s) == CharWidth(s[0]) + Utf8Length(s[1..]);
      if |s| > 1 {
        assert Utf8Length(s[1..]) >= 1;
      } else {
        assert s[1..] == [];
      }
    }
  }

  /** The "sender: content" line under which a message is embedded and quoted. */
  function Labelled(sender: string, content: string): string {
    sender + ": " + content
  }

  /** The two-character separator ": " starts at position `i` of `t`. */
  predicate SeparatorAt(t: string, i: nat) {
    i + 1 < |t| && t[i] == ':' && t[i + 1] == ' '
  }

  /** A sender name in which ": " does not occur. */
  predicate NoSeparator(s: string) {
    forall i :: 0 <= i < |s| ==> !SeparatorAt(s, i)
  }

  /** The first position at or after `from` where ": " starts, or |t| if there is none. */
  function FindSeparator(t: string, from: nat): (i: nat)
    requires from <= |t|
    ensures from <= i <= |t|
    ensures i < |t| ==> SeparatorAt(t, i)
    ensures forall j :: from <= j < i ==> !SeparatorAt(t, j)
    decreases |t| - from
  {
    if from == |t| then |t|
    else if SeparatorAt(t, from) then from
    else FindSeparator(t, from + 1)
  }

  /** Splits a labelled line into its sender and its content, at the first ": ". */
  function SplitLabelled(t: string): Option<(string, string)> {
    var i := FindSeparator(t, 0);
    if i < |t| then Some((t[..i], t[i + 2..])) else None
  }

  /** Labelling is undone by splitting, whenever the sender does not itself contain ": ". */
  lemma LabelledRoundTrip(sender: string, content: string)
    requires NoSeparator(sender)
    ensures SplitLabelled(Labelled(sender, content)) == Some((sender, content))
  {
    var t := Labelled(sender, content);
    assert SeparatorAt(t, |sender|);
    forall j | 0 <= j < |sender| ensures !SeparatorAt(t, j) {
      assert t[j] == sender[j];
      if j + 1 < |sender| {
        assert t[j + 1] == sender[j + 1];
        assert !SeparatorAt(sender, j);
      } else {
        assert t[j + 1] == ':';
      }
    }
    var i := FindSeparator(t, 0);
    assert i == |sender|;
    assert t[..i] == sender;
    assert t[i + 2..] == content;
  }
}
