/** `generateShortCode(length = 6)`: "OI-" followed by `length`
    characters drawn from the 62 ASCII letters and digits.  The
    randomness is a parameter: `draw(i)` is the alphabet position picked for
    the `i`-th character (`Math.floor(Math.random() * 62)`). */
module ShortCode {
  import opened Wrappers

  const Prefix: string := "OI-"
  const DefaultLength: int := 6

  /** The 62 characters, in the order of the generator's alphabet string:
      lower-case letters, upper-case letters, digits. */
  function Alphabet(): (a: string)
    ensures |a| == 62
  {
    Run('a', 26) + Run('A', 26) + Run('0', 10)
  }

  /** `n` consecutive characters starting at `first`. */
  function Run(first: char, n: nat): (r: string)
    requires (first as int) + n <= 0x80
    ensures |r| == n
    ensures forall i :: 0 <= i < n ==> r[i] == ((first as int) + i) as char
  {
    seq(n, i requires 0 <= i < n => ((first as int) + i) as char)
  }

  /** A position in the alphabet. */
  type CharIndex = i: int | 0 <= i < 62

  /** An ASCII letter or digit, independently of the alphabet string. */
  predicate IsAlphanumeric(c: char) {
    ('a' <= c <= 'z') || ('A' <= c <= 'Z') || ('0' <= c <= '9')
  }

  /** The alphabet is exactly the 62 letters and digits. */
  lemma AlphabetIsAlphanumeric()
    ensures |Alphabet()| == 62
    ensures forall i :: 0 <= i < |Alphabet()| ==> IsAlphanumeric(Alphabet()[i])
    ensures forall c :: IsAlphanumeric(c) ==> c in Alphabet()
  {
    forall c | IsAlphanumeric(c)
      ensures c in Alphabet()
    {
      if 'a' <= c <= 'z' {
        assert Alphabet()[(c as int) - ('a' as int)] == c;
      } else if 'A' <= c <= 'Z' {
        assert Alphabet()[26 + (c as int) - ('A' as int)] == c;
      } else {
        assert Alphabet()[52 + (c as int) - ('0' as int)] == c;
      }
    }
  }

  /** The code `generateShortCode(length)` returns for the draws `draw`;
      a length that is not positive takes no draw. */
  function Code(length: int, draw: nat -> CharIndex): string {
    Prefix + seq(if length < 0 then 0 else length, i requires 0 <= i => Alphabet()[draw(i)])
  }

  /** The shape of every code: "OI-", then `length` letters or digits. */
  lemma CodeShape(length: nat, draw: nat -> CharIndex)
    ensures |Code(length, draw)| == 3 + length
    ensures Code(length, draw)[..3] == "OI-"
    ensures forall i :: 3 <= i < |Code(length, draw)| ==> IsAlphanumeric(Code(length, draw)[i])
  {
    AlphabetIsAlphanumeric();
    var c := Code(length, draw);
    forall i | 3 <= i < |c|
      ensures IsAlphanumeric(c[i])
    {
      assert c[i] == Alphabet()[draw(i - 3)];
    }
  }

  /** Any letters-and-digits suffix is some code: every code of the
      shape can be drawn. */
  lemma EveryShapeIsDrawable(suffix: string)
    requires forall i :: 0 <= i < |suffix| ==> IsAlphanumeric(suffix[i])
    ensures exists draw: nat -> CharIndex :: Code(|suffix|, draw) == Prefix + suffix
  {
    AlphabetIsAlphanumeric();
    var pos := seq(|suffix|, i requires 0 <= i < |suffix| =>
                      var k :| 0 <= k < |Alphabet()| && Alphabet()[k] == suffix[i]; k as CharIndex);
    var draw: nat -> CharIndex := (i: nat) => if i < |pos| then pos[i] else 0;
    assert Code(|suffix|, draw) == Prefix + suffix;
  }

  /** The default length gives nine characters; length 0 gives the bare
      prefix. */
  lemma DefaultAndEmpty(draw: nat -> CharIndex)
    ensures |Code(DefaultLength, draw)| == 9
    ensures Code(0, draw) == "OI-"
  {
  }

  /** `generateShortCode(length)`; `None` is the omitted argument. */
  method GenerateShortCode(length: Option<int>, draw: nat -> CharIndex) returns (code: string)
    ensures code == Code(length.GetOr(DefaultLength), draw)
  {
    var n := length.GetOr(DefaultLength);
    var body := "";
    for i := 0 to (if n < 0 then 0 else n)
      invariant body == seq(i, k requires 0 <= k => Alphabet()[draw(k)])
    {
      body := body + [Alphabet()[draw(i)]];
    }
    code := Prefix + body;
  }
}
