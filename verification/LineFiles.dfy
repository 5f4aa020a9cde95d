/**
 Text files as the log reads and extends them: split into lines at '\n', a last line
 without '\n' counting as a line, and stripped of surrounding white space.
 */
module LineFiles {

  /** White space as Python's `str.strip` understands it. */
  predicate IsSpace(ch: char) {
    var c := ch as int;
    || 0x09 <= c <= 0x0d || 0x1c <= c <= 0x20 || c == 0x85 || c == 0xa0 || c == 0x1680
    || 0x2000 <= c <= 0x200a || c == 0x2028 || c == 0x2029 || c == 0x202f || c == 0x205f || c == 0x3000
  }

  lemma Assoc<T>(a: seq<T>, b: seq<T>, c: seq<T>)
    ensures a + b + c == a + (b + c)
  {
  }

  function StripLeft(s: string): (r: string)
    ensures r == "" || !IsSpace(r[0])
  {
    if s != "" && IsSpace(s[0]) then StripLeft(s[1..]) else s
  }

  function StripRight(s: string): (r: string)
    ensures r == "" || !IsSpace(r[|r| - 1])
    ensures r <= s
  {
    if s != "" && IsSpace(s[|s| - 1]) then StripRight(s[..|s| - 1]) else s
  }

  function Strip(s: string): string {
    StripRight(StripLeft(s))
  }

  /** Some character of `s` is not white space. */
  ghost predicate Visible(s: string) {
    exists i :: 0 <= i < |s| && !IsSpace(s[i])
  }

  lemma {:induction false} StripLeftBlank(s: string)
    ensures StripLeft(s) == "" <==> !Visible(s)
  {
    if s != "" {
      StripLeftBlank(s[1..]);
      if IsSpace(s[0]) && Visible(s) {
        VisibleTail(s);
      }
      if Visible(s[1..]) {
        var i :| 0 <= i < |s[1..]| && !IsSpace(s[1..][i]);
        assert s[i + 1] == s[1..][i];
      }
    }
  }

  lemma {:induction false} StripRightKeepsVisible(s: string)
    requires s != "" && !IsSpace(s[0])
    ensures StripRight(s) != "" && StripRight(s)[0] == s[0]
  {
    if IsSpace(s[|s| - 1]) {
      StripRightKeepsVisible(s[..|s| - 1]);
    }
  }

  lemma StripBlank(s: string)
    ensures Strip(s) == "" <==> !Visible(s)
  {
    StripLeftBlank(s);
    if StripLeft(s) != "" {
      StripRightKeepsVisible(StripLeft(s));
    }
  }

  lemma VisibleTail(t: string)
    requires Visible(t) && IsSpace(t[0])
    ensures Visible(t[1..])
  {
    var i :| 0 <= i < |t| && !IsSpace(t[i]);
    assert t[1..][i - 1] == t[i];
  }

  /** Once a visible character stands first, only trailing white space is stripped. */
  lemma {:induction false} StripLeftOfVisible(t: string, rest: string)
    requires Visible(t)
    ensures StripLeft(t + rest) == StripLeft(t) + rest
    ensures StripLeft(t) != ""
  {
    assert (t + rest)[0] == t[0];
    if IsSpace(t[0]) {
      VisibleTail(t);
      StripLeftOfVisible(t[1..], rest);
      assert (t + rest)[1..] == t[1..] + rest;
    }
  }

  lemma {:induction false} StripLeftOfBlank(t: string, rest: string)
    requires !Visible(t)
    ensures StripLeft(t + rest) == StripLeft(rest)
  {
    if t == "" {
      assert t + rest == rest;
    } else {
      assert !Visible(t[1..]) by {
        forall i | 0 <= i < |t[1..]| ensures IsSpace(t[1..][i]) {
          assert t[1..][i] == t[i + 1];
        }
      }
      StripLeftOfBlank(t[1..], rest);
      assert (t + rest)[1..] == t[1..] + rest;
    }
  }

  lemma {:induction false} StripRightAfter(front: string, s: string)
    requires s != "" && !IsSpace(s[0])
    ensures StripRight(front + s) == front + StripRight(s)
  {
    if IsSpace(s[|s| - 1]) {
      StripRightAfter(front, s[..|s| - 1]);
      assert (front + s)[..|front + s| - 1] == front + s[..|s| - 1];
    }
  }

  /** Index of the first '\n', or the length of the text. */
  function LineEnd(text: string): (n: nat)
    ensures n <= |text|
    ensures n < |text| ==> text[n] == '\n'
    ensures forall i :: 0 <= i < n ==> text[i] != '\n'
  {
    if text == "" || text[0] == '\n' then 0 else 1 + LineEnd(text[1..])
  }

  /** The lines a reader of the file sees, without their '\n'. */
  function Lines(text: string): seq<string> {
    if text == "" then []
    else
      var n := LineEnd(text);
      if n == |text| then [text] else [text[..n]] + Lines(text[n + 1..])
  }

  /** Every line is ended by '\n'. */
  predicate Whole(text: string) {
    text == "" || text[|text| - 1] == '\n'
  }

  /** The unterminated last line. */
  function Tail(text: string): (t: string)
    ensures |t| <= |text|
    ensures t == "" <==> Whole(text)
  {
    if Whole(text) then "" else Tail(text[..|text| - 1]) + [text[|text| - 1]]
  }

  function Body(text: string): string {
    text[..|text| - |Tail(text)|]
  }

  /** A text is its ended lines followed by its tail. */
  lemma {:induction false} BodyAndTail(text: string)
    ensures Body(text) + Tail(text) == text
    ensures Whole(Body(text)) && '\n' !in Tail(text)
    decreases |text|
  {
    if !Whole(text) {
      var front, ch := text[..|text| - 1], text[|text| - 1];
      assert text == front + [ch] && Tail(text) == Tail(front) + [ch];
      BodyAndTail(front);
      assert Body(text) == Body(front);
      Assoc(Body(front), Tail(front), [ch]);
    }
  }

  lemma TailGrows(text: string, ch: char)
    requires ch != '\n'
    ensures Tail(text + [ch]) == Tail(text) + [ch]
  {
    assert (text + [ch])[..|text + [ch]| - 1] == text;
  }

  lemma {:induction false} TailOf(body: string, tail: string)
    requires Whole(body) && '\n' !in tail
    ensures Tail(body + tail) == tail
  {
    if tail == "" {
      assert body + tail == body;
    } else {
      var front, ch := tail[..|tail| - 1], tail[|tail| - 1];
      assert tail == front + [ch];
      assert ch in tail;
      TailOf(body, front);
      Assoc(body, front, [ch]);
      TailGrows(body + front, ch);
    }
  }

  lemma {:induction false} LineEndIs(text: string, n: nat)
    requires n <= |text| && '\n' !in text[..n]
    requires n < |text| ==> text[n] == '\n'
    ensures LineEnd(text) == n
  {
    if n > 0 {
      assert text[0] == text[..n][0];
      assert text[1..][..n - 1] == text[..n][1..];
      LineEndIs(text[1..], n - 1);
    }
  }

  lemma SingleLine(line: string)
    requires '\n' !in line
    ensures Lines(line + "\n") == [line]
    ensures line != "" ==> Lines(line) == [line]
  {
    var text := line + "\n";
    assert text[..|line|] == line && text[|line| + 1..] == "";
    LineEndIs(text, |line|);
    assert line[..|line|] == line;
    LineEndIs(line, |line|);
  }

  lemma WholeHasLineEnd(text: string)
    requires Whole(text) && text != ""
    ensures LineEnd(text) < |text|
  {
  }

  lemma FirstLineEnd(a: string, b: string, n: nat)
    requires n == LineEnd(a) && n < |a|
    ensures LineEnd(a + b) == n
  {
    assert (a + b)[..n] == a[..n];
    LineEndIs(a + b, n);
  }

  lemma WholeAfterLine(a: string, n: nat)
    requires Whole(a) && n == LineEnd(a) && n < |a|
    ensures Whole(a[n + 1..]) && |a[n + 1..]| < |a|
  {
    var rest := a[n + 1..];
    if rest != "" {
      assert rest[|rest| - 1] == a[|a| - 1];
    }
  }

  lemma {:induction false} LinesUnfold(a: string, n: nat)
    requires n == LineEnd(a) && n < |a|
    ensures Lines(a) == [a[..n]] + Lines(a[n + 1..])
  {
  }

  lemma {:induction false} FirstLine(a: string, b: string, n: nat)
    requires n == LineEnd(a) && n < |a|
    ensures Lines(a + b) == [a[..n]] + Lines(a[n + 1..] + b)
  {
    FirstLineEnd(a, b, n);
    LinesUnfold(a + b, n);
    assert (a + b)[..n] == a[..n];
    assert (a + b)[n + 1..] == a[n + 1..] + b;
  }

  lemma {:induction false} LinesConcat(a: string, b: string)
    requires Whole(a)
    ensures Lines(a + b) == Lines(a) + Lines(b)
    decreases |a|
  {
    if a == "" {
      assert a + b == b;
    } else {
      WholeHasLineEnd(a);
      var n := LineEnd(a);
      WholeAfterLine(a, n);
      LinesUnfold(a, n);
      FirstLine(a, b, n);
      LinesConcat(a[n + 1..], b);
      Assoc([a[..n]], Lines(a[n + 1..]), Lines(b));
    }
  }

  /** What a reader sees of a text is its ended lines and, if it is not empty, its tail. */
  lemma {:induction false} LinesOfBodyAndTail(text: string)
    ensures Lines(text) == Lines(Body(text)) + (if Whole(text) then [] else [Tail(text)])
  {
    BodyAndTail(text);
    LinesConcat(Body(text), Tail(text));
    if !Whole(text) {
      SingleLine(Tail(text));
    }
  }

  /** Appending a line glues it to whatever tail the file has. */
  lemma LinesAfterAppend(text: string, line: string)
    requires '\n' !in line
    ensures Lines(text + (line + "\n")) == Lines(Body(text)) + [Tail(text) + line]
    ensures Whole(text + (line + "\n"))
  {
    var b, t := Body(text), Tail(text);
    BodyAndTail(text);
    Assoc(b, t, line + "\n");
    Assoc(t, line, "\n");
    LinesConcat(b, (t + line) + "\n");
    SingleLine(t + line);
  }
}
