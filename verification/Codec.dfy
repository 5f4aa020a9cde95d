/**
 How a value becomes a line and back. JSON itself is abstract: a codec is a pair of
 functions, and `Lawful` lists what the log relies on. `TallyCodecIsLawful` shows that
 the laws can be met for any type whose values can be numbered.
 */
module Codecs {
  import opened Models
  import opened LineFiles

  datatype Codec<!T> = Codec(encode: T -> string, decode: string -> Option<T>)

  /** An encoded value fills one line and has no white space at its ends. */
  predicate Framed(s: string) {
    s != "" && !IsSpace(s[0]) && !IsSpace(s[|s| - 1]) && '\n' !in s
  }

  /**
   Text `t` left by an earlier torn write, followed by the first `k` characters of an
   encoded value, does not decode, unless it is exactly the encoded value.
   */
  predicate RejectsTorn<T>(c: Codec<T>, x: T, t: string, k: nat) {
    var line := c.encode(x);
    && (t == "" || !IsSpace(t[0]))
    && 1 <= k <= |line|
    && (t == "" ==> k < |line|)
    ==> c.decode(t + line[..k]) == None
  }

  ghost predicate Lawful<T(!new)>(c: Codec<T>) {
    && (forall x: T :: Framed(c.encode(x)))
    && (forall x: T :: c.decode(c.encode(x)) == Some(x))
    && (forall x: T, t: string, k: nat :: RejectsTorn(c, x, t, k))
  }

  /** What a scan makes of one line. */
  datatype Reading<+T> = Blank | Good(value: T) | Bad(raw: string)

  function Read<T>(c: Codec<T>, line: string): Reading<T> {
    var s := Strip(line);
    if s == "" then Blank
    else match c.decode(s)
      case Some(v) => Good(v)
      case None => Bad(s)
  }

  lemma StripOfVisible(t: string, p: string)
    requires p != "" && !IsSpace(p[0])
    ensures Strip(t + p) == StripLeft(t) + StripRight(p)
  {
    StripLeftBlank(t);
    if Visible(t) {
      StripLeftOfVisible(t, p);
    } else {
      StripLeftOfBlank(t, p);
      assert StripLeft(t) + p == p;
    }
    StripRightAfter(StripLeft(t), p);
  }

  lemma StripTorn(line: string, t: string, k: nat) returns (j: nat)
    requires Framed(line) && 1 <= k <= |line|
    ensures 1 <= j <= k && Strip(t + line[..k]) == StripLeft(t) + line[..j]
    ensures k == |line| ==> j == k
  {
    var p := line[..k];
    StripRightKeepsVisible(p);
    StripOfVisible(t, p);
    j := |StripRight(p)|;
    assert StripRight(p) == line[..j];
    assert k == |line| ==> p == line;
  }

  /** A whole encoded line reads back, white space before it aside, and is spoiled by anything else before it. */
  lemma ReadAfter<T(!new)>(c: Codec<T>, t: string, x: T)
    requires Lawful(c)
    ensures !Visible(t) ==> Read(c, t + c.encode(x)) == Good(x)
    ensures Visible(t) ==> Read(c, t + c.encode(x)).Bad?
    ensures Visible(t + c.encode(x))
  {
    var line := c.encode(x);
    assert Framed(line);
    var j := StripTorn(line, t, |line|);
    assert line[..|line|] == line;
    StripLeftBlank(t);
    assert "" + line == line;
    assert RejectsTorn(c, x, StripLeft(t), |line|);
    assert !IsSpace((t + line)[|t|]);
  }

  /** A torn write leaves a line that does not decode, unless only its '\n' is missing. */
  lemma ReadTorn<T(!new)>(c: Codec<T>, t: string, x: T, k: nat)
    requires Lawful(c)
    requires 1 <= k <= |c.encode(x)|
    requires !Visible(t) ==> k < |c.encode(x)|
    ensures Read(c, t + c.encode(x)[..k]).Bad?
    ensures Visible(t + c.encode(x)[..k])
  {
    var line := c.encode(x);
    assert Framed(line);
    var j := StripTorn(line, t, k);
    StripLeftBlank(t);
    assert RejectsTorn(c, x, StripLeft(t), j);
    assert !IsSpace((t + line[..k])[|t|]);
  }

  // ---- The laws can be met ----

  function Tally(n: nat): string {
    seq(n, i => '1')
  }

  /** Numbers written as "{111}". */
  function TallyCodec<T>(number: T -> nat, value: nat -> T): Codec<T> {
    Codec(
      x => "{" + Tally(number(x)) + "}",
      (s: string) => if |s| >= 2 && s == "{" + Tally(|s| - 2) + "}" then Some(value(|s| - 2)) else None)
  }

  lemma TallyCodecIsLawful<T(!new)>(number: T -> nat, value: nat -> T)
    requires forall x: T :: value(number(x)) == x
    ensures Lawful(TallyCodec(number, value))
  {
    var c := TallyCodec(number, value);
    forall x: T
      ensures Framed(c.encode(x)) && c.decode(c.encode(x)) == Some(x)
    {
      assert |c.encode(x)| - 2 == number(x);
    }
    forall x: T, t: string, k: nat
      ensures RejectsTorn(c, x, t, k)
    {
      var line := c.encode(x);
      if 1 <= k <= |line| {
        var s := t + line[..k];
        if t != "" {
          assert s[|t|] == '{';
          if |s| >= 2 {
            var w := "{" + Tally(|s| - 2) + "}";
            assert w[|t|] != '{';
          }
        } else if k < |line| {
          assert s[k - 1] != '}';
        }
      }
    }
  }
}
