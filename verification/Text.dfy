/** Text rules every agent-state component shares: trimming, bounded fields, and
    the byte order that both SQL collation and Go string comparison use. */
module Text {

  predicate IsSpace(c: char) {
    || '\t' <= c <= '\r'
    || c == ' '
    || c == '\U{85}'
    || c == '\U{A0}'
    || c == '\U{1680}'
    || '\U{2000}' <= c <= '\U{200A}'
    || c == '\U{2028}'
    || c == '\U{2029}'
    || c == '\U{202F}'
    || c == '\U{205F}'
    || c == '\U{3000}'
  }

  function TrimLeft(s: string): (t: string)
    ensures |t| <= |s|
  {
    if s != "" && IsSpace(s[0]) then TrimLeft(s[1..]) else s
  }

  function TrimRight(s: string): (t: string)
    ensures |t| <= |s|
  {
    if s != "" && IsSpace(s[|s| - 1]) then TrimRight(s[..|s| - 1]) else s
  }

  function Trim(s: string): (t: string)
    ensures |t| <= |s|
  {
    TrimRight(TrimLeft(s))
  }

  /** A text with nothing but space around nothing. */
  predicate Blank(s: string) {
    Trim(s) == ""
  }

  /** A required field: not blank, and at most maximum characters once trimmed. */
  predicate Bounded(s: string, maximum: nat) {
    !Blank(s) && |Trim(s)| <= maximum
  }

  lemma TightIsBounded(s: string, maximum: nat)
    requires 0 < |s| <= maximum && !IsSpace(s[0]) && !IsSpace(s[|s| - 1])
    ensures Trim(s) == s && Bounded(s, maximum)
  {
  }

  /** An optional field: blank, or at most maximum characters untrimmed. */
  predicate OptionalBounded(s: string, maximum: nat) {
    Blank(s) || |s| <= maximum
  }

  /** How many bytes UTF-8 takes for a text. */
  function ByteLength(s: string): nat {
    if s == "" then 0 else ByteLength(s[1..]) + CharBytes(s[0])
  }

  function CharBytes(c: char): nat {
    if c < '\U{80}' then 1 else if c < '\U{800}' then 2 else if c < '\U{10000}' then 3 else 4
  }

  /** A text without the mark can be told from what follows the mark. */
  lemma BeforeMark(mark: char, a: string, b: string, c: string, d: string)
    requires mark !in a && mark !in c && a + [mark] + b == c + [mark] + d
    ensures a == c && b == d
  {
    var x, y := a + [mark] + b, c + [mark] + d;
    assert x[|a|] == mark && x[..|a|] == a && x[|a| + 1..] == b;
    assert y[|c|] == mark && y[..|c|] == c && y[|c| + 1..] == d;
    assert forall i :: 0 <= i < |a| ==> x[i] == a[i];
    assert forall i :: 0 <= i < |c| ==> y[i] == c[i];
  }

  /** A marked prefix names what is marked. */
  lemma PrefixBeforeMark(mark: char, head: string, a: string, b: string, rest: string)
    requires mark !in a && mark !in b
    ensures head + a + [mark] <= head + b + [mark] + rest <==> a == b
  {
    var prefix, whole := head + a + [mark], head + b + [mark] + rest;
    assert whole[|head|..] == b + [mark] + rest;
    if prefix <= whole {
      assert whole == prefix + whole[|prefix|..];
      assert whole[|head|..] == a + [mark] + whole[|prefix|..];
      BeforeMark(mark, a, whole[|prefix|..], b, rest);
    }
  }

  /** A text with no colon left in it, from which the text can be read back. */
  function Escaped(s: string): (t: string)
    ensures ':' !in t
  {
    if s == "" then "" else EscapedChar(s[0]) + Escaped(s[1..])
  }

  function EscapedChar(c: char): (t: string)
    ensures ':' !in t && t != ""
  {
    if c == ':' then "%." else if c == '%' then "%%" else [c]
  }

  lemma {:induction false} EscapedApart(a: string, b: string)
    requires Escaped(a) == Escaped(b)
    ensures a == b
  {
    if a != "" && b != "" {
      var x, y := EscapedChar(a[0]), EscapedChar(b[0]);
      assert Escaped(a)[..|x|] == x && Escaped(a)[|x|..] == Escaped(a[1..]);
      assert Escaped(b)[..|y|] == y && Escaped(b)[|y|..] == Escaped(b[1..]);
      assert x[0] == Escaped(a)[0] == y[0];
      if x[0] == '%' {
        assert x[1] == Escaped(a)[1] == y[1];
      }
      assert x == y && a[0] == b[0];
      EscapedApart(a[1..], b[1..]);
      assert a == [a[0]] + a[1..] && b == [b[0]] + b[1..];
    }
  }

  /** Texts written one after another so that each can be read back. */
  function Line(fields: seq<string>): string {
    if fields == [] then "" else Escaped(fields[0]) + ":" + Line(fields[1..])
  }

  lemma {:induction false} LineApart(a: seq<string>, b: seq<string>)
    requires |a| == |b| && Line(a) == Line(b)
    ensures a == b
  {
    if a != [] {
      BeforeMark(':', Escaped(a[0]), Line(a[1..]), Escaped(b[0]), Line(b[1..]));
      EscapedApart(a[0], b[0]);
      LineApart(a[1..], b[1..]);
      assert a == [a[0]] + a[1..] && b == [b[0]] + b[1..];
    }
  }

  /** Strict lexicographic order. */
  predicate Before(a: string, b: string)
    decreases |a|
  {
    b != "" && (a == "" || a[0] < b[0] || (a[0] == b[0] && Before(a[1..], b[1..])))
  }

  lemma {:induction false} BeforeIrreflexive(a: string)
    ensures !Before(a, a)
  {
    if a != "" {
      BeforeIrreflexive(a[1..]);
    }
  }

  lemma {:induction false} BeforeTransitive(a: string, b: string, c: string)
    requires Before(a, b) && Before(b, c)
    ensures Before(a, c)
    decreases |a|
  {
    if a != "" && a[0] == b[0] && b[0] == c[0] {
      BeforeTransitive(a[1..], b[1..], c[1..]);
    }
  }

  lemma {:induction false} BeforeTotal(a: string, b: string)
    ensures a == b || Before(a, b) || Before(b, a)
    decreases |a|
  {
    if a != "" && b != "" && a[0] == b[0] {
      BeforeTotal(a[1..], b[1..]);
      assert a == [a[0]] + a[1..] && b == [b[0]] + b[1..];
    }
  }

  lemma BeforeIsOrder()
    ensures forall a :: !Before(a, a)
    ensures forall a, b :: a == b || Before(a, b) || Before(b, a)
    ensures forall a, b, c :: Before(a, b) && Before(b, c) ==> Before(a, c)
  {
    forall a, b, c
      ensures !Before(a, a) && (a == b || Before(a, b) || Before(b, a))
      ensures Before(a, b) && Before(b, c) ==> Before(a, c)
    {
      BeforeIrreflexive(a);
      BeforeTotal(a, b);
      if Before(a, b) && Before(b, c) {
        BeforeTransitive(a, b, c);
      }
    }
  }

  /** Order of a pair of texts compared field by field, as in ORDER BY first, second. */
  predicate PairBefore(a: (string, string), b: (string, string)) {
    Before(a.0, b.0) || (a.0 == b.0 && Before(a.1, b.1))
  }

  lemma PairBeforeIsOrder(a: (string, string), b: (string, string), c: (string, string))
    ensures !PairBefore(a, a)
    ensures PairBefore(a, b) && PairBefore(b, c) ==> PairBefore(a, c)
    ensures a == b || PairBefore(a, b) || PairBefore(b, a)
  {
    BeforeIrreflexive(a.0);
    BeforeIrreflexive(a.1);
    BeforeTotal(a.0, b.0);
    BeforeTotal(a.1, b.1);
    if Before(a.0, b.0) && Before(b.0, c.0) {
      BeforeTransitive(a.0, b.0, c.0);
    }
    if Before(a.1, b.1) && Before(b.1, c.1) {
      BeforeTransitive(a.1, b.1, c.1);
    }
  }

  lemma PairsBeforeIsOrder()
    ensures forall a :: !PairBefore(a, a)
    ensures forall a, b :: a == b || PairBefore(a, b) || PairBefore(b, a)
    ensures forall a, b, c :: PairBefore(a, b) && PairBefore(b, c) ==> PairBefore(a, c)
  {
    forall a, b, c
      ensures !PairBefore(a, a) && (a == b || PairBefore(a, b) || PairBefore(b, a))
      ensures PairBefore(a, b) && PairBefore(b, c) ==> PairBefore(a, c)
    {
      PairBeforeIsOrder(a, b, c);
    }
  }

  lemma {:induction false} TrimRightKeepsHead(s: string)
    requires s != "" && !IsSpace(s[0])
    ensures TrimRight(s) != "" && TrimRight(s)[0] == s[0]
    ensures TrimRight(TrimRight(s)) == TrimRight(s)
  {
    if IsSpace(s[|s| - 1]) {
      TrimRightKeepsHead(s[..|s| - 1]);
    }
  }

  lemma {:induction false} TrimLeftStops(s: string)
    ensures TrimLeft(s) == "" || !IsSpace(TrimLeft(s)[0])
  {
    if s != "" && IsSpace(s[0]) {
      TrimLeftStops(s[1..]);
    }
  }

  lemma TrimIdempotent(s: string)
    ensures Trim(Trim(s)) == Trim(s)
  {
    TrimLeftStops(s);
    if TrimLeft(s) != "" {
      TrimRightKeepsHead(TrimLeft(s));
    }
  }

  ghost predicate AllSpace(s: string) {
    forall i :: 0 <= i < |s| ==> IsSpace(s[i])
  }

  /** Nothing, or a text that neither starts nor ends with space. */
  predicate Tight(s: string) {
    s == "" || (!IsSpace(s[0]) && !IsSpace(s[|s| - 1]))
  }

  /** Trimming takes the space off both ends and nothing else: there is one tight text
      with only space around it. */
  lemma {:induction false} TrimIs(a: string, t: string, b: string)
    requires AllSpace(a) && Tight(t) && AllSpace(b)
    ensures Trim(a + t + b) == t
  {
    if a != "" {
      assert (a + t + b)[0] == a[0] && (a + t + b)[1..] == a[1..] + t + b;
      TrimIs(a[1..], t, b);
    } else if t != "" {
      assert a + t + b == t + b && TrimLeft(t + b) == t + b;
      TrimRightIs(t, b);
    } else {
      assert a + t + b == b;
      BlankIs(b);
    }
  }

  lemma {:induction false} TrimRightIs(t: string, b: string)
    requires t != "" && Tight(t) && AllSpace(b)
    ensures TrimRight(t + b) == t
  {
    if b != "" {
      var whole := t + b;
      assert whole[|whole| - 1] == b[|b| - 1] && whole[..|whole| - 1] == t + b[..|b| - 1];
      TrimRightIs(t, b[..|b| - 1]);
    } else {
      assert t + b == t;
    }
  }

  lemma {:induction false} BlankIs(b: string)
    requires AllSpace(b)
    ensures TrimLeft(b) == ""
  {
    if b != "" {
      BlankIs(b[1..]);
    }
  }

  /** Every text is such a text with space around it. */
  lemma {:induction false} TrimCuts(s: string) returns (a: string, b: string)
    ensures AllSpace(a) && Tight(Trim(s)) && AllSpace(b) && s == a + Trim(s) + b
  {
    if s != "" && IsSpace(s[0]) {
      a, b := TrimCuts(s[1..]);
      a := [s[0]] + a;
    } else if s != "" {
      b := TrimRightCuts(s);
      a := "";
    } else {
      a, b := "", "";
    }
  }

  lemma {:induction false} TrimRightCuts(s: string) returns (b: string)
    requires s != "" && !IsSpace(s[0])
    ensures Tight(TrimRight(s)) && AllSpace(b) && s == TrimRight(s) + b
  {
    b := "";
    if IsSpace(s[|s| - 1]) {
      b := TrimRightCuts(s[..|s| - 1]);
      b := b + [s[|s| - 1]];
    }
  }

  /** Lengths add up, and plain text takes a byte a character. */
  lemma {:induction false} ByteLengthAdds(a: string, b: string)
    ensures ByteLength(a + b) == ByteLength(a) + ByteLength(b)
    ensures |a| <= ByteLength(a) <= 4 * |a|
    ensures ByteLength(a) == |a| <==> forall i :: 0 <= i < |a| ==> a[i] < '\U{80}'
  {
    if a != "" {
      ByteLengthAdds(a[1..], b);
      assert (a + b)[0] == a[0] && (a + b)[1..] == a[1..] + b;
      assert forall i :: 0 < i < |a| ==> a[i] == a[1..][i - 1];
    } else {
      assert a + b == b;
    }
  }
}
