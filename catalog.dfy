/** The values the meme generator works on, and the pure part of its
    pagination: which prefix of the template catalog is visible. */
module Catalog {

  /** A meme template as the catalog service delivers it. */
  datatype Meme = Meme(id: string, name: string, url: string)

  /** The caption's offset relative to the template image. The browser
      reports floating-point pixels; only replacement is observable, so
      whole numbers stand in for them. */
  datatype Position = Position(x: int, y: int)

  /** A value that may be absent (`Meme | null`). */
  datatype Option<T> = None | Some(value: T)

  /** Number of templates revealed initially and by each "Load More". */
  const MemesPerLoad: nat := 4

  function Min(a: int, b: int): int
  {
    if a <= b then a else b
  }

  /** `p` is a prefix of `s`: same entries, same order, no gaps. */
  predicate IsPrefix<T(==)>(p: seq<T>, s: seq<T>)
  {
    |p| <= |s| && forall i :: 0 <= i < |p| ==> p[i] == s[i]
  }

  /** JavaScript's `s.slice(0, end)` for a non-negative `end`: taking past
      the end yields the whole sequence. */
  function Take<T>(s: seq<T>, end: nat): (r: seq<T>)
    ensures |r| == Min(end, |s|)
    ensures IsPrefix(r, s)
  {
    if end <= |s| then s[..end] else s
  }

  /** The entries visible after one more page is revealed: up to one page
      more than before, still a prefix of the catalog, and, when the strip
      was a prefix, with the old strip kept in front. */
  function NextVisible(memes: seq<Meme>, visible: seq<Meme>): (r: seq<Meme>)
    ensures |r| == Min(|visible| + MemesPerLoad, |memes|)
    ensures IsPrefix(r, memes)
    ensures IsPrefix(visible, memes) ==> IsPrefix(visible, r)
  {
    Take(memes, |visible| + MemesPerLoad)
  }

  /** The visible entries after the catalog arrived and `n` pages were
      added to it. */
  function Pages(memes: seq<Meme>, n: nat): seq<Meme>
  {
    if n == 0 then Take(memes, MemesPerLoad) else NextVisible(memes, Pages(memes, n - 1))
  }

  /** Once everything is visible another page changes nothing. */
  lemma LoadMoreAtEnd(memes: seq<Meme>, visible: seq<Meme>)
    requires IsPrefix(visible, memes)
    requires |visible| == |memes|
    ensures NextVisible(memes, visible) == visible
  {
  }

  /** Revealing a page changes the visible entries exactly when some
      catalog entry is still hidden. */
  lemma LoadMoreChangesIff(memes: seq<Meme>, visible: seq<Meme>)
    requires IsPrefix(visible, memes)
    ensures NextVisible(memes, visible) != visible <==> |visible| < |memes|
  {
  }

  /** After `n` pages the visible entries are the first
      `min(4 * (n + 1), |memes|)` templates of the catalog, in order. */
  lemma {:induction false} PagesIsTake(memes: seq<Meme>, n: nat)
    ensures Pages(memes, n) == Take(memes, MemesPerLoad * (n + 1))
    ensures |Pages(memes, n)| == Min(MemesPerLoad * (n + 1), |memes|)
    ensures IsPrefix(Pages(memes, n), memes)
  {
    if n > 0 {
      PagesIsTake(memes, n - 1);
      var k := MemesPerLoad * n;
      assert Pages(memes, n) == Take(memes, |Take(memes, k)| + MemesPerLoad);
      if k > |memes| {
        assert Take(memes, k) == memes;
      }
    }
  }

  /** Pages only ever grow: the page shown after `n` steps stays in front
      of the one shown after `n + 1`. */
  lemma {:induction false} PagesGrow(memes: seq<Meme>, n: nat, m: nat)
    requires n <= m
    ensures IsPrefix(Pages(memes, n), Pages(memes, m))
  {
    if n < m {
      PagesGrow(memes, n, m - 1);
      PagesIsTake(memes, m - 1);
    }
  }
}
