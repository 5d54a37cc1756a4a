/** Identifier generation: `nanoid()` in eventa.ts and index.ts draws 16 symbols from a
    62-symbol alphanumeric alphabet. The random draws are a parameter of the model; only the
    shape of the result is a property (never its uniqueness). */
module Identifiers {

  const Alphabet: string := "0123456789ABCDEFGHIJKLMNOPQRSTUVWXYZabcdefghijklmnopqrstuvwxyz"
  const Size: nat := 16

  /** A string of the shape `nanoid()` produces. */
  predicate IsNanoid(s: string) {
    |s| == Size && forall i :: 0 <= i < |s| ==> s[i] in Alphabet
  }

  /** `customAlphabet(Alphabet, 16)()`: symbol `i` is chosen by the `i`-th draw; missing draws
      count as 0. */
  function Nanoid(picks: seq<nat>): (id: string)
    ensures IsNanoid(id)
    ensures |Alphabet| == 62
    ensures forall i :: 0 <= i < |picks| && i < Size ==> id[i] == Alphabet[picks[i] % 62]
  {
    seq(Size, i requires 0 <= i < Size => Alphabet[(if i < |picks| then picks[i] else 0) % 62])
  }

  /** The position of an alphabet symbol. */
  ghost function IndexOf(c: char): (k: nat)
    requires c in Alphabet
    ensures k < |Alphabet| && Alphabet[k] == c
  {
    var k :| 0 <= k < |Alphabet| && Alphabet[k] == c; k
  }

  /** The draws that make `Nanoid` produce `s`. */
  ghost function PicksFor(s: string): (picks: seq<nat>)
    requires forall i :: 0 <= i < |s| ==> s[i] in Alphabet
    ensures |picks| == |s|
    ensures forall i :: 0 <= i < |s| ==> picks[i] < 62 && Alphabet[picks[i]] == s[i]
  {
    seq(|s|, i requires 0 <= i < |s| => IndexOf(s[i]))
  }

  /** Every identifier of the right shape is a possible result of `nanoid()`: the shape
      predicate describes exactly the generator's range. */
  lemma {:induction false} NanoidCoversShape(s: string)
    requires IsNanoid(s)
    ensures Nanoid(PicksFor(s)) == s
  {
    var picks := PicksFor(s);
    var id := Nanoid(picks);
    forall i | 0 <= i < Size
      ensures id[i] == s[i]
    {
      assert picks[i] % 62 == picks[i];
    }
  }

  /** A generated identifier is a non-empty string, so the `!tag` and `!invokeId` checks of
      the source never reject it. */
  lemma NanoidNonEmpty(picks: seq<nat>)
    ensures Nanoid(picks) != ""
  {
    assert |Nanoid(picks)| == 16;
  }
}
