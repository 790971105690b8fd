/** The windows a document is embedded through: at most eight of two thousand
    runes. The arithmetic decides which runes no window sees. */
module Windows {
  import opened Text

  const CHUNK: nat := 2000
  const OVERLAP: nat := 200
  const MOST: nat := 8
  /** What eight overlapping windows reach: 2000 + 7 * 1800. */
  const REACH: nat := CHUNK + (MOST - 1) * (CHUNK - OVERLAP)

  datatype Window = Window(start: nat, end: nat)

  /** The i-th window of n runes; past REACH the starts are spread evenly instead. */
  function WindowAt(n: nat, i: nat): Window
    requires n > REACH ==> i < MOST
  {
    var start := if n > REACH then i * (n - CHUNK) / (MOST - 1) else i * (CHUNK - OVERLAP);
    Window(start, if start + CHUNK > n then n else start + CHUNK)
  }

  /** Windows follow one another until the first that reaches the end. */
  ghost predicate Tiling(n: nat, ws: seq<Window>) {
    && |ws| <= MOST && (n == 0 <==> ws == [])
    && (forall i :: 0 <= i < |ws| ==> ws[i] == WindowAt(n, i))
    && (forall i :: 0 <= i < |ws| - 1 ==> ws[i].end < n)
    && (ws != [] ==> ws[|ws| - 1].end == n)
  }

  predicate Covered(ws: seq<Window>, rune: nat) {
    exists i :: 0 <= i < |ws| && ws[i].start <= rune < ws[i].end
  }

  /** The texts the windows show, trimmed, without the blank ones. */
  ghost function Texts(text: string, ws: seq<Window>): seq<string>
    requires forall i :: 0 <= i < |ws| ==> ws[i].start <= ws[i].end <= |text|
  {
    if ws == [] then []
    else
      var w := ws[|ws| - 1];
      var rest := Texts(text, ws[..|ws| - 1]);
      if Trim(text[w.start..w.end]) == "" then rest else rest + [Trim(text[w.start..w.end])]
  }

  lemma InBounds(n: nat, i: nat)
    requires 0 < n && i < MOST
    requires i > 0 ==> WindowAt(n, i - 1).end < n
    ensures WindowAt(n, i).start < WindowAt(n, i).end <= n && WindowAt(n, i).end - WindowAt(n, i).start <= CHUNK
    ensures n > REACH ==> WindowAt(n, i).end == WindowAt(n, i).start + CHUNK
    ensures i == MOST - 1 ==> WindowAt(n, i).end == n
    ensures n > REACH && i < MOST - 1 ==> WindowAt(n, i).end < n
  {
    if n > REACH {
      Spread(n - CHUNK, i);
    }
  }

  lemma Spread(d: nat, i: nat)
    requires i < 8
    ensures 0 <= i * d / 7 <= d && (i == 7 ==> i * d / 7 == d) && (i < 7 && d >= 7 ==> i * d / 7 < d)
  {
    Times(i, d);
  }

  lemma Times(i: nat, d: nat)
    requires i < 8
    ensures 0 <= i * d <= 7 * d && (i < 7 ==> i * d <= 6 * d) && (i == 7 ==> i * d == 7 * d)
  {
  }

  lemma ShortText(n: nat)
    requires n <= CHUNK
    ensures WindowAt(n, 0) == Window(0, n)
  {
  }

  method WindowBounds(n: nat, index: nat) returns (start: nat, end: nat)
    requires n > CHUNK && index < MOST
    ensures Window(start, end) == WindowAt(n, index)
  {
    start := index * (CHUNK - OVERLAP);
    if n > REACH {
      start := index * (n - CHUNK) / (MOST - 1);
    }
    end := start + CHUNK;
    if end > n {
      end := n;
    }
  }

  /** How many windows n runes take. */
  function Count(n: nat): nat {
    if n == 0 then 0 else if n <= CHUNK then 1 else if n > REACH then MOST else (n + 1599) / 1800
  }

  ghost function WindowsOf(n: nat): seq<Window> {
    seq(Count(n), i requires 0 <= i < Count(n) => WindowAt(n, i))
  }

  /** There is one way to cut a text into windows, and it has that many. */
  lemma TilingIff(n: nat, ws: seq<Window>)
    ensures Tiling(n, ws) <==> ws == WindowsOf(n)
    ensures forall i :: 0 <= i < |WindowsOf(n)| ==> WindowsOf(n)[i].start < WindowsOf(n)[i].end <= n
  {
    WindowsTile(n);
    var all := WindowsOf(n);
    if n > 0 {
      Shape(n, all);
    }
    if Tiling(n, ws) {
      NotLonger(n, ws, all);
      NotLonger(n, all, ws);
    }
  }

  lemma NotLonger(n: nat, ws: seq<Window>, vs: seq<Window>)
    requires Tiling(n, ws) && Tiling(n, vs)
    ensures |ws| <= |vs|
  {
    hide WindowAt;
    assert vs != [] ==> vs[|vs| - 1] == WindowAt(n, |vs| - 1);
  }

  lemma WindowsTile(n: nat)
    ensures Tiling(n, WindowsOf(n))
  {
    forall i | 0 <= i < Count(n) - 1 ensures WindowAt(n, i).end < n {
      if n > REACH {
        Spread(n - CHUNK, i);
      }
    }
    if n > REACH {
      Spread(n - CHUNK, 7);
    }
  }

  /** The texts embedded for a document: its windows, trimmed, the blank ones left out. */
  ghost function ChunkTexts(value: string): seq<string> {
    TilingIff(|Trim(value)|, []);
    Texts(Trim(value), WindowsOf(|Trim(value)|))
  }

  /** embeddingChunks */
  method EmbeddingChunks(value: string) returns (chunks: seq<string>)
    ensures chunks == ChunkTexts(value)
  {
    ghost var ws;
    chunks, ws := Cut(value);
    TilingIff(|Trim(value)|, ws);
  }

  /** The same, with the windows it cut. */
  method Cut(value: string) returns (chunks: seq<string>, ghost ws: seq<Window>)
    ensures Tiling(|Trim(value)|, ws)
    ensures forall i :: 0 <= i < |ws| ==> ws[i].start < ws[i].end <= |Trim(value)|
    ensures chunks == Texts(Trim(value), ws)
  {
    TrimIdempotent(value);
    hide Trim, Texts, WindowAt, Tiling, Started;
    var runes := Trim(value);
    chunks, ws := [], [];
    TextsExtend(runes, [], Window(0, |runes|));
    if |runes| == 0 {
      TilingOf(0, []);
      return;
    }
    if |runes| <= CHUNK {
      ws := [Window(0, |runes|)];
      ShortText(|runes|);
      TilingOf(|runes|, ws);
      assert runes[0..|runes|] == runes && [] + [Window(0, |runes|)] == ws;
      return [runes], ws;
    }
    var index := 0;
    NoneStarted(|runes|);
    while index < MOST
      invariant index < MOST && |ws| == index && Started(|runes|, ws)
      invariant forall i :: 0 <= i < |ws| ==> ws[i].start < ws[i].end <= |runes|
      invariant chunks == Texts(runes, ws)
    {
      var start, end := WindowBounds(|runes|, index);
      NextWindow(|runes|, ws, Window(start, end));
      var chunk := Trim(runes[start..end]);
      if chunk != "" {
        chunks := chunks + [chunk];
      }
      TextsExtend(runes, ws, Window(start, end));
      ws := ws + [Window(start, end)];
      if end >= |runes| {
        break;
      }
      index := index + 1;
    }
  }

  /** Windows so far, none of them reaching the end. */
  ghost predicate Started(n: nat, ws: seq<Window>) {
    && |ws| < MOST
    && forall i :: 0 <= i < |ws| ==> ws[i] == WindowAt(n, i) && ws[i].start < ws[i].end < n
  }

  lemma NoneStarted(n: nat)
    ensures Started(n, [])
  {
  }

  lemma NextWindow(n: nat, ws: seq<Window>, w: Window)
    requires n > 0 && Started(n, ws) && w == WindowAt(n, |ws|)
    ensures w.start < w.end <= n
    ensures forall i :: 0 <= i < |ws| ==> ws[i].start < ws[i].end <= n
    ensures w.end == n ==> Tiling(n, ws + [w])
    ensures w.end < n ==> |ws| < MOST - 1 && Started(n, ws + [w])
  {
    InBounds(n, |ws|);
    hide WindowAt;
  }

  lemma TilingOf(n: nat, ws: seq<Window>)
    requires |ws| <= MOST && (n == 0 <==> ws == [])
    requires forall i :: 0 <= i < |ws| ==> ws[i] == WindowAt(n, i)
    requires forall i :: 0 <= i < |ws| - 1 ==> ws[i].end < n
    requires ws != [] ==> ws[|ws| - 1].end == n
    ensures Tiling(n, ws)
  {
    hide WindowAt;
  }

  lemma TextsExtend(text: string, ws: seq<Window>, w: Window)
    requires forall i :: 0 <= i < |ws| ==> ws[i].start <= ws[i].end <= |text|
    requires w.start <= w.end <= |text|
    ensures Texts(text, []) == []
    ensures Texts(text, ws + [w]) ==
              Texts(text, ws) + if Trim(text[w.start..w.end]) == "" then [] else [Trim(text[w.start..w.end])]
  {
    hide Trim;
    assert (ws + [w])[..|ws|] == ws;
  }

  /** Consecutive starts differ by the even share, rounded down or up. */
  lemma Step(n: nat, i: nat)
    requires n > REACH && i < MOST - 1
    ensures var step := WindowAt(n, i + 1).start - WindowAt(n, i).start;
            (n - CHUNK) / 7 <= step <= (n - CHUNK + 6) / 7
  {
    assert (i + 1) * (n - CHUNK) == i * (n - CHUNK) + (n - CHUNK);
  }

  lemma StartsAscend(n: nat, i: nat, j: nat)
    requires i <= j < MOST
    ensures WindowAt(n, i).start <= WindowAt(n, j).start
    decreases j
  {
    if i < j {
      StartsAscend(n, i, j - 1);
      if n > REACH {
        Step(n, j - 1);
      }
    }
  }

  /** At most eight windows, in bounds, starting at zero and ending at the end. */
  lemma Shape(n: nat, ws: seq<Window>)
    requires Tiling(n, ws) && n > 0
    ensures 1 <= |ws| <= 8 && ws[0].start == 0 && ws[|ws| - 1].end == n
    ensures forall i :: 0 <= i < |ws| ==> ws[i].start < ws[i].end <= n && ws[i].end - ws[i].start <= 2000
    ensures forall i, j :: 0 <= i <= j < |ws| ==> ws[i].start <= ws[j].start
    ensures n <= 2000 <==> |ws| == 1
  {
    forall i | 0 <= i < |ws| ensures ws[i].start < ws[i].end <= n && ws[i].end - ws[i].start <= 2000 {
      InBounds(n, i);
    }
    forall i, j | 0 <= i <= j < |ws| ensures ws[i].start <= ws[j].start {
      StartsAscend(n, i, j);
    }
    if |ws| > 1 {
      assert ws[0].end < n;
    }
  }

  /** Up to 14600 runes neighbours share exactly 200 of them. */
  lemma ExactOverlap(n: nat, ws: seq<Window>, i: nat)
    requires Tiling(n, ws) && n <= 14600 && i + 1 < |ws|
    ensures ws[i].end - ws[i + 1].start == 200
  {
    assert ws[i].end < n;
  }

  /** Beyond 14600 there are exactly eight full windows, evenly spread. */
  lemma EvenSpread(n: nat, ws: seq<Window>)
    requires Tiling(n, ws) && n > 14600
    ensures |ws| == 8 && forall i :: 0 <= i < 8 ==> ws[i].end - ws[i].start == 2000
    ensures forall i, j {:trigger ws[i], ws[j]} :: 0 <= i < 7 && 0 <= j < 7 ==>
              (ws[i + 1].start - ws[i].start) - (ws[j + 1].start - ws[j].start) <= 1
  {
    var last := |ws| - 1;
    InBounds(n, last);
    assert WindowAt(n, last).end == n;
    forall i | 0 <= i < 8 ensures ws[i].end - ws[i].start == 2000 {
      InBounds(n, i);
    }
    forall i | 0 <= i < 7 ensures (n - CHUNK) / 7 <= ws[i + 1].start - ws[i].start <= (n - CHUNK + 6) / 7 {
      Step(n, i);
    }
  }

  lemma CoveredUpTo(n: nat, ws: seq<Window>, rune: nat, k: nat)
    requires Tiling(n, ws) && 0 < n <= 16000 && k < |ws| && rune < ws[k].end
    ensures Covered(ws, rune)
  {
    Shape(n, ws);
    if rune >= ws[k].start {
    } else {
      if n > REACH {
        Step(n, k - 1);
      } else {
        ExactOverlap(n, ws, k - 1);
      }
      InBounds(n, k - 1);
      CoveredUpTo(n, ws, rune, k - 1);
    }
  }

  /** With more than 16000 runes some step is longer than a window. */
  lemma SomeGap(n: nat, ws: seq<Window>) returns (i: nat)
    requires Tiling(n, ws) && n > 16000
    ensures |ws| == 8 && i < 7 && ws[i].end < ws[i + 1].start
  {
    EvenSpread(n, ws);
    i := 0;
    while i < 7 && ws[i].end >= ws[i + 1].start
      invariant i <= 7 && ws[i].start <= i * 2000
    {
      i := i + 1;
    }
  }

  /** Every rune is in some window exactly when there are at most 16000 of them. */
  lemma CoverageExact(n: nat, ws: seq<Window>)
    requires Tiling(n, ws)
    ensures (forall rune :: 0 <= rune < n ==> Covered(ws, rune)) <==> n <= 16000
  {
    if n <= 16000 {
      forall rune | 0 <= rune < n ensures Covered(ws, rune) {
        CoveredUpTo(n, ws, rune, |ws| - 1);
      }
    } else {
      var i := SomeGap(n, ws);
      Shape(n, ws);
      var rune := ws[i].end;
      forall j | 0 <= j < |ws| ensures !(ws[j].start <= rune < ws[j].end) {
        if j > i {
          assert ws[i + 1].start <= ws[j].start;
        } else {
          assert ws[j].start <= ws[i].start && ws[j].end - ws[j].start == 2000 by {
            EvenSpread(n, ws);
          }
          assert ws[i].end == ws[i].start + 2000 by {
            EvenSpread(n, ws);
          }
        }
      }
      assert !Covered(ws, rune) && 0 <= rune < n;
    }
  }
}
