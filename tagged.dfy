/**
 * Reading a factory line back: the text both factories produce starts with
 * the timestamp and the slot's tag in brackets. Decoding it is the partner
 * used to show that a line determines the slot and the text after the tag.
 */
module Tagged {
  import opened Wrappers
  import opened LogTypes

  /** The index of the first `c` in `s`, or `|s|` when there is none. */
  function IndexOf(s: string, c: char): (r: nat)
    ensures r <= |s|
    ensures r < |s| ==> s[r] == c
    ensures forall i :: 0 <= i < r ==> s[i] != c
  {
    if s == [] then 0
    else if s[0] == c then 0
    else 1 + IndexOf(s[1..], c)
  }

  /** The part of a factory line before the tag. */
  function Head(instant: string): string {
    "~[" + instant + "] ["
  }

  /**
   * Splits `TAG + "] " + body` into the slot of TAG and `body`; None for any
   * text not of that shape.
   */
  function ParseTag(rest: string): Option<(Slot, string)> {
    var j := IndexOf(rest, ']');
    if j + 2 > |rest| || rest[j + 1] != ' ' then None
    else match SlotOfTag(rest[..j])
      case None => None
      case Some(s) => Some((s, rest[j + 2..]))
  }

  /**
   * Splits `"~[" + instant + "] [" + TAG + "] " + body` into the slot of TAG
   * and `body`; None for any text not of that shape.
   */
  function ParseTagged(instant: string, text: string): Option<(Slot, string)> {
    var head := Head(instant);
    if |text| < |head| || text[..|head|] != head then None
    else ParseTag(text[|head|..])
  }

  /** A tag, `] ` and a body decode to the tag's slot and the body. */
  lemma ParseTagRoundTrip(s: Slot, body: string)
    ensures ParseTag(s.Tag() + "] " + body) == Some((s, body))
  {
    var rest := s.Tag() + "] " + body;
    assert forall i :: 0 <= i < |s.Tag()| ==> rest[i] == s.Tag()[i] != ']';
    assert rest[|s.Tag()|] == ']';
    assert IndexOf(rest, ']') == |s.Tag()|;
    assert rest[..|s.Tag()|] == s.Tag();
    TagRoundTrip(s);
    assert rest[|s.Tag()| + 2..] == body;
  }

  /** The tagged line of slot `s` and `body` decodes to `s` and `body`. */
  lemma ParseTaggedRoundTrip(instant: string, s: Slot, body: string)
    ensures ParseTagged(instant, Head(instant) + s.Tag() + "] " + body) == Some((s, body))
  {
    var head := Head(instant);
    var rest := s.Tag() + "] " + body;
    var text := head + s.Tag() + "] " + body;
    assert text == head + rest;
    assert text[..|head|] == head;
    assert text[|head|..] == rest;
    ParseTagRoundTrip(s, body);
  }

  /** A string is its part before `j`, the two characters at `j`, and the rest. */
  lemma SplitAround(r: string, j: nat)
    requires j + 2 <= |r|
    ensures r == r[..j] + [r[j], r[j + 1]] + r[j + 2..]
  {
    assert r[..j + 2] == r[..j] + [r[j], r[j + 1]];
  }

  /** A string is its part before `n` followed by its part from `n`. */
  lemma SplitAt(r: string, n: nat)
    requires n <= |r|
    ensures r == r[..n] + r[n..]
  {
  }

  /** Concatenation regrouped around the `] ` after a tag. */
  lemma Regroup(head: string, tag: string, body: string)
    ensures head + (tag + "] " + body) == head + tag + "] " + body
  {
  }

  /** Every text `ParseTag` accepts is a tag, `] ` and the body it gives back. */
  lemma ParseTagSound(rest: string, s: Slot, body: string)
    requires ParseTag(rest) == Some((s, body))
    ensures rest == s.Tag() + "] " + body
  {
    var j := IndexOf(rest, ']');
    assert j + 2 <= |rest| && rest[j] == ']' && rest[j + 1] == ' ';
    assert SlotOfTag(rest[..j]) == Some(s) && rest[j + 2..] == body;
    SplitAround(rest, j);
  }

  /** Every text `ParseTagged` accepts is the tagged line of what it gives back. */
  lemma ParseTaggedSound(instant: string, text: string, s: Slot, body: string)
    requires ParseTagged(instant, text) == Some((s, body))
    ensures text == Head(instant) + s.Tag() + "] " + body
  {
    var head := Head(instant);
    var rest := text[|head|..];
    assert |head| <= |text| && text[..|head|] == head;
    assert ParseTag(rest) == Some((s, body));
    ParseTagSound(rest, s, body);
    SplitAt(text, |head|);
    Regroup(head, s.Tag(), body);
  }
}
