/**
 * String helpers the error messages are built from: `join` on a list of
 * strings, and predicates saying where a string sits inside another.
 */
module Text {

  predicate StartsWith(s: string, prefix: string) {
    |prefix| <= |s| && forall k :: 0 <= k < |prefix| ==> s[k] == prefix[k]
  }

  predicate EndsWith(s: string, suffix: string) {
    |suffix| <= |s| && forall k :: 0 <= k < |suffix| ==> s[|s| - |suffix| + k] == suffix[k]
  }

  /** `needle` is the slice of `hay` that starts at index `at`. */
  predicate OccursAt(needle: string, hay: string, at: nat) {
    at + |needle| <= |hay| && forall k :: 0 <= k < |needle| ==> hay[at + k] == needle[k]
  }

  /** `needle` is a substring of `hay`. */
  ghost predicate Contains(hay: string, needle: string) {
    exists at: nat :: OccursAt(needle, hay, at)
  }

  lemma ContainsAt(hay: string, needle: string, at: nat)
    requires OccursAt(needle, hay, at)
    ensures Contains(hay, needle)
  {
  }

  /** The middle part of a three-part concatenation sits right after the first part. */
  lemma MiddleOccurs(a: string, b: string, c: string)
    ensures OccursAt(b, a + b + c, |a|)
    ensures StartsWith(a + b + c, a) && EndsWith(a + b + c, c)
  {
  }

  /** What sits at `at` in `m` still sits at `|p| + at` once `p` is put in front and `s` behind. */
  lemma OccursShift(needle: string, m: string, at: nat, p: string, s: string)
    requires OccursAt(needle, m, at)
    ensures OccursAt(needle, p + m + s, |p| + at)
  {
  }

  /** What sits at `at` in `m` sits at `pos == |p| + at` in `whole == p + m`. */
  lemma OccursAfter(needle: string, m: string, at: nat, p: string, whole: string, pos: nat)
    requires OccursAt(needle, m, at)
    requires whole == p + m && pos == |p| + at
    ensures OccursAt(needle, whole, pos)
  {
  }

  lemma OccursSelf(s: string)
    ensures OccursAt(s, s, 0)
  {
  }

  lemma AfterPrefix(a: string, b: string)
    ensures OccursAt(b, a + b, |a|)
  {
  }

  /** A lead followed by the rest starts with the lead, ends with the rest, and drops back to the rest. */
  lemma LeadThenRest(lead: string, rest: string)
    ensures StartsWith(lead + rest, lead) && EndsWith(lead + rest, rest)
    ensures (lead + rest)[|lead|..] == rest
  {
  }

  /** A slice of the text occurs at its start. */
  lemma SliceOccurs(needle: string, hay: string, at: nat)
    requires at + |needle| <= |hay| && hay[at..at + |needle|] == needle
    ensures OccursAt(needle, hay, at)
  {
    forall k | 0 <= k < |needle|
      ensures hay[at + k] == needle[k]
    {
      assert hay[at..at + |needle|][k] == hay[at + k];
    }
  }

  /** An occurrence is the slice of the text at its position. */
  lemma OccursSlice(needle: string, hay: string, at: nat)
    requires OccursAt(needle, hay, at)
    ensures hay[at..at + |needle|] == needle
  {
  }

  lemma OccursExtend(needle: string, m: string, at: nat, s: string)
    requires OccursAt(needle, m, at)
    ensures OccursAt(needle, m + s, at)
  {
  }

  lemma StartsWithExtend(m: string, prefix: string, s: string)
    requires StartsWith(m, prefix)
    ensures StartsWith(m + s, prefix)
  {
  }

  /** Rust's `[String]::join(sep)`: the parts in order, `sep` between neighbours. */
  function Join(parts: seq<string>, sep: string): string
    decreases |parts|
  {
    if |parts| == 0 then ""
    else if |parts| == 1 then parts[0]
    else parts[0] + sep + Join(parts[1..], sep)
  }

  /** Where the `i`-th part starts inside `Join(parts, sep)`. */
  function JoinOffset(parts: seq<string>, sep: string, i: nat): nat
    requires i < |parts|
    decreases i
  {
    if i == 0 then 0 else |parts[0]| + |sep| + JoinOffset(parts[1..], sep, i - 1)
  }

  /** Every part of a joined list can be found in the result, at its offset. */
  lemma {:induction false} JoinContainsPart(parts: seq<string>, sep: string, i: nat)
    requires i < |parts|
    ensures OccursAt(parts[i], Join(parts, sep), JoinOffset(parts, sep, i))
    decreases i
  {
    if |parts| == 1 {
      assert Join(parts, sep) == parts[0];
      OccursSelf(parts[0]);
    } else {
      var rest := Join(parts[1..], sep);
      assert Join(parts, sep) == parts[0] + sep + rest;
      if i == 0 {
        OccursSelf(parts[0]);
        OccursExtend(parts[0], parts[0], 0, sep);
        OccursExtend(parts[0], parts[0] + sep, 0, rest);
      } else {
        JoinContainsPart(parts[1..], sep, i - 1);
        assert parts[1..][i - 1] == parts[i];
        OccursAfter(parts[i], rest, JoinOffset(parts[1..], sep, i - 1), parts[0] + sep,
          Join(parts, sep), JoinOffset(parts, sep, i));
      }
    }
  }

  /** The `i`-th part of a joined list, framed as `whole == p + Join(parts, sep) + s`, sits `base == |p|` further on. */
  lemma JoinPartFramed(parts: seq<string>, sep: string, p: string, s: string, base: nat, whole: string, i: nat)
    requires base == |p| && whole == p + Join(parts, sep) + s
    requires i < |parts|
    ensures OccursAt(parts[i], whole, base + JoinOffset(parts, sep, i))
  {
    JoinContainsPart(parts, sep, i);
    OccursShift(parts[i], Join(parts, sep), JoinOffset(parts, sep, i), p, s);
  }

  /**
   * Every part of `parts` occurs in `whole`, at `base` plus its offset in
   * `Join(parts, sep)`: `whole` shows the joined list from index `base` on.
   */
  ghost predicate ListedFrom(parts: seq<string>, sep: string, whole: string, base: nat) {
    forall i :: 0 <= i < |parts| ==> OccursAt(parts[i], whole, base + JoinOffset(parts, sep, i))
  }

  /** A part of a listed sequence is a substring of the whole. */
  lemma ListedContains(parts: seq<string>, sep: string, whole: string, base: nat, i: nat)
    requires ListedFrom(parts, sep, whole, base) && i < |parts|
    ensures Contains(whole, parts[i])
  {
    ContainsAt(whole, parts[i], base + JoinOffset(parts, sep, i));
  }

  lemma JoinedListFramed(parts: seq<string>, sep: string, p: string, s: string, base: nat, whole: string)
    requires base == |p| && whole == p + Join(parts, sep) + s
    ensures ListedFrom(parts, sep, whole, base)
  {
    forall i | 0 <= i < |parts|
      ensures OccursAt(parts[i], whole, base + JoinOffset(parts, sep, i))
    {
      JoinPartFramed(parts, sep, p, s, base, whole, i);
    }
  }

  /** Where the separator after the `i`-th part starts inside `Join(parts, sep)`. */
  function SepOffset(parts: seq<string>, sep: string, i: nat): nat
    requires i + 1 < |parts|
  {
    JoinOffset(parts, sep, i) + |parts[i]|
  }

  /**
   * Between neighbouring parts of `parts`, `whole` shows `sep`, at `base`
   * plus where the earlier part ends in `Join(parts, sep)`.
   */
  ghost predicate SeparatedFrom(parts: seq<string>, sep: string, whole: string, base: nat) {
    forall i :: 0 <= i < |parts| - 1 ==> OccursAt(sep, whole, base + SepOffset(parts, sep, i))
  }

  /** The separator after the `i`-th part, framed as in `JoinPartFramed`. */
  lemma JoinSepFramed(parts: seq<string>, sep: string, p: string, s: string, base: nat, whole: string, i: nat)
    requires base == |p| && whole == p + Join(parts, sep) + s
    requires i + 1 < |parts|
    ensures OccursAt(sep, whole, base + SepOffset(parts, sep, i))
  {
    JoinKeepsOrder(parts, sep, i);
    OccursShift(sep, Join(parts, sep), SepOffset(parts, sep, i), p, s);
  }

  lemma JoinedSeparatedFramed(parts: seq<string>, sep: string, p: string, s: string, base: nat, whole: string)
    requires base == |p| && whole == p + Join(parts, sep) + s
    ensures SeparatedFrom(parts, sep, whole, base)
  {
    forall i | 0 <= i < |parts| - 1
      ensures OccursAt(sep, whole, base + SepOffset(parts, sep, i))
    {
      JoinSepFramed(parts, sep, p, s, base, whole, i);
    }
  }

  /** The next part starts right after this part and one separator. */
  lemma {:induction false} JoinOffsetStep(parts: seq<string>, sep: string, i: nat)
    requires i + 1 < |parts|
    ensures JoinOffset(parts, sep, i) + |parts[i]| + |sep| == JoinOffset(parts, sep, i + 1)
    decreases i
  {
    if i > 0 {
      JoinOffsetStep(parts[1..], sep, i - 1);
      assert parts[1..][i - 1] == parts[i];
    }
  }

  /** Neighbouring parts are separated by exactly `sep`, so parts appear in list order. */
  lemma {:induction false} JoinKeepsOrder(parts: seq<string>, sep: string, i: nat)
    requires i + 1 < |parts|
    ensures OccursAt(sep, Join(parts, sep), SepOffset(parts, sep, i))
    decreases i
  {
    var rest := Join(parts[1..], sep);
    if i == 0 {
      MiddleOccurs(parts[0], sep, rest);
    } else {
      JoinKeepsOrder(parts[1..], sep, i - 1);
      assert parts[1..][i - 1] == parts[i];
      OccursAfter(sep, rest, SepOffset(parts[1..], sep, i - 1), parts[0] + sep,
        Join(parts, sep), SepOffset(parts, sep, i));
    }
  }

  /** A later part starts after an earlier one ends. */
  lemma {:induction false} JoinOffsetIncreasing(parts: seq<string>, sep: string, i: nat, j: nat)
    requires i < j < |parts|
    ensures JoinOffset(parts, sep, i) + |parts[i]| + |sep| <= JoinOffset(parts, sep, j)
    decreases j
  {
    JoinOffsetStep(parts, sep, j - 1);
    if i < j - 1 {
      JoinOffsetIncreasing(parts, sep, i, j - 1);
    }
  }

  function TotalLength(parts: seq<string>): nat {
    if parts == [] then 0 else |parts[0]| + TotalLength(parts[1..])
  }

  /** The parts plus one separator per gap between neighbours. */
  function JoinedLength(parts: seq<string>, sep: string): nat {
    if parts == [] then 0 else TotalLength(parts) + (|parts| - 1) * |sep|
  }

  /** The joined string holds the parts and one separator per gap, nothing else. */
  lemma {:induction false} JoinLength(parts: seq<string>, sep: string)
    ensures |Join(parts, sep)| == JoinedLength(parts, sep)
    decreases |parts|
  {
    if |parts| > 1 {
      JoinLength(parts[1..], sep);
      assert TotalLength(parts) == |parts[0]| + TotalLength(parts[1..]);
      assert (|parts| - 1) * |sep| == (|parts| - 2) * |sep| + |sep|;
    } else if |parts| == 1 {
      assert TotalLength(parts) == |parts[0]| + TotalLength([]);
    }
  }

  /** Listing and separation carry over to the tail, one part and one separator further on. */
  lemma JoinedTail(parts: seq<string>, sep: string, whole: string, base: nat)
    requires |parts| > 1
    requires ListedFrom(parts, sep, whole, base) && SeparatedFrom(parts, sep, whole, base)
    ensures ListedFrom(parts[1..], sep, whole, base + |parts[0]| + |sep|)
    ensures SeparatedFrom(parts[1..], sep, whole, base + |parts[0]| + |sep|)
  {
    var tail := parts[1..];
    var next := base + |parts[0]| + |sep|;
    forall i | 0 <= i < |tail|
      ensures OccursAt(tail[i], whole, next + JoinOffset(tail, sep, i))
    {
      assert tail[i] == parts[i + 1];
      assert JoinOffset(parts, sep, i + 1) == |parts[0]| + |sep| + JoinOffset(tail, sep, i);
      assert OccursAt(parts[i + 1], whole, base + JoinOffset(parts, sep, i + 1));
    }
    forall i | 0 <= i < |tail| - 1
      ensures OccursAt(sep, whole, next + SepOffset(tail, sep, i))
    {
      assert tail[i] == parts[i + 1];
      assert JoinOffset(parts, sep, i + 1) == |parts[0]| + |sep| + JoinOffset(tail, sep, i);
      assert OccursAt(sep, whole, base + SepOffset(parts, sep, i + 1));
    }
  }

  lemma ListedHead(parts: seq<string>, sep: string, whole: string, base: nat)
    requires ListedFrom(parts, sep, whole, base) && |parts| > 0
    ensures OccursAt(parts[0], whole, base)
  {
    assert OccursAt(parts[0], whole, base + JoinOffset(parts, sep, 0));
  }

  lemma SeparatedHead(parts: seq<string>, sep: string, whole: string, base: nat)
    requires SeparatedFrom(parts, sep, whole, base) && |parts| > 1
    ensures OccursAt(sep, whole, base + |parts[0]|)
  {
    assert OccursAt(sep, whole, base + SepOffset(parts, sep, 0));
  }

  /** Three slices that follow one another make up the slice of their concatenation. */
  lemma SliceOfThree(a: string, b: string, c: string, whole: string, base: nat)
    requires OccursAt(a, whole, base) && OccursAt(b, whole, base + |a|)
    requires base + |a| + |b| + |c| <= |whole|
    requires whole[base + |a| + |b|..base + |a| + |b| + |c|] == c
    ensures whole[base..base + |a + b + c|] == a + b + c
  {
    OccursSlice(a, whole, base);
    OccursSlice(b, whole, base + |a|);
    var mid := base + |a|;
    var next := mid + |b|;
    assert whole[base..next + |c|] == whole[base..mid] + whole[mid..next] + whole[next..next + |c|];
  }

  /**
   * Listing every part and every separator at its offset pins the text down:
   * the span is exactly the joined list, so nothing is missing or added.
   */
  lemma {:induction false} JoinedFromExact(parts: seq<string>, sep: string, whole: string, base: nat)
    requires ListedFrom(parts, sep, whole, base) && SeparatedFrom(parts, sep, whole, base)
    requires base + |Join(parts, sep)| <= |whole|
    ensures whole[base..base + |Join(parts, sep)|] == Join(parts, sep)
    decreases |parts|
  {
    if |parts| == 1 {
      ListedHead(parts, sep, whole, base);
      OccursSlice(parts[0], whole, base);
    } else if |parts| > 1 {
      var rest := Join(parts[1..], sep);
      assert Join(parts, sep) == parts[0] + sep + rest;
      ListedHead(parts, sep, whole, base);
      SeparatedHead(parts, sep, whole, base);
      JoinedTail(parts, sep, whole, base);
      JoinedFromExact(parts[1..], sep, whole, base + |parts[0]| + |sep|);
      SliceOfThree(parts[0], sep, rest, whole, base);
    }
  }

  /**
   * A text that starts with `lead`, shows `subject` and `mid` after it, then
   * lists `parts` joined by `sep`, ends with `tail` and has no room for
   * anything else, is exactly `lead + subject + mid + Join(parts, sep) + tail`.
   */
  lemma FramedListExact(lead: string, subject: string, mid: string, parts: seq<string>, sep: string,
                        tail: string, r: string)
    requires StartsWith(r, lead) && OccursAt(subject, r, |lead|)
    requires OccursAt(mid, r, |lead| + |subject|)
    requires ListedFrom(parts, sep, r, |lead| + |subject| + |mid|)
    requires SeparatedFrom(parts, sep, r, |lead| + |subject| + |mid|)
    requires EndsWith(r, tail)
    requires |r| == |lead| + |subject| + |mid| + JoinedLength(parts, sep) + |tail|
    ensures r == lead + subject + mid + Join(parts, sep) + tail
  {
    var list := Join(parts, sep);
    var at := |lead| + |subject| + |mid|;
    JoinLength(parts, sep);
    JoinedFromExact(parts, sep, r, at);
    SliceOccurs(list, r, at);
    Spells5Exact(r, lead, subject, mid, list, tail);
  }

  /** `r` is `a` then `b`, nothing else. */
  predicate Spells2(r: string, a: string, b: string) {
    StartsWith(r, a) && EndsWith(r, b) && |r| == |a| + |b|
  }

  /** `r` is `a`, `b` and `c` in order, nothing else. */
  predicate Spells3(r: string, a: string, b: string, c: string) {
    StartsWith(r, a) && OccursAt(b, r, |a|) && EndsWith(r, c) && |r| == |a| + |b| + |c|
  }

  /** `r` is `a`, `b`, `c` and `d` in order, nothing else. */
  predicate Spells4(r: string, a: string, b: string, c: string, d: string) {
    && StartsWith(r, a) && OccursAt(b, r, |a|) && OccursAt(c, r, |a| + |b|) && EndsWith(r, d)
    && |r| == |a| + |b| + |c| + |d|
  }

  /** `r` is `a`, `b`, `c`, `d` and `e` in order, nothing else. */
  predicate Spells5(r: string, a: string, b: string, c: string, d: string, e: string) {
    && StartsWith(r, a) && OccursAt(b, r, |a|) && OccursAt(c, r, |a| + |b|)
    && OccursAt(d, r, |a| + |b| + |c|) && EndsWith(r, e)
    && |r| == |a| + |b| + |c| + |d| + |e|
  }

  lemma SpellsConcat2(a: string, b: string)
    ensures Spells2(a + b, a, b)
  {
  }

  lemma SpellsConcat3(a: string, b: string, c: string)
    ensures Spells3(a + b + c, a, b, c)
  {
  }

  lemma SpellsConcat4(a: string, b: string, c: string, d: string)
    ensures Spells4(a + b + c + d, a, b, c, d)
  {
  }

  lemma SpellsConcat5(a: string, b: string, c: string, d: string, e: string)
    ensures Spells5(a + b + c + d + e, a, b, c, d, e)
  {
  }

  /** `Spells2` leaves no freedom: it holds of the concatenation only. */
  lemma Spells2Exact(r: string, a: string, b: string)
    requires Spells2(r, a, b)
    ensures r == a + b
  {
    assert r[..|a|] == a;
    assert r[|a|..] == b;
    assert r == r[..|a|] + r[|a|..];
  }

  /** `Spells3` leaves no freedom: it holds of the concatenation only. */
  lemma Spells3Exact(r: string, a: string, b: string, c: string)
    requires Spells3(r, a, b, c)
    ensures r == a + b + c
  {
    var i := |a|;
    var j := i + |b|;
    assert r[..i] == a;
    OccursSlice(b, r, i);
    assert r[j..] == c;
    assert r == r[..i] + r[i..j] + r[j..];
  }

  /** `Spells4` leaves no freedom: it holds of the concatenation only. */
  lemma Spells4Exact(r: string, a: string, b: string, c: string, d: string)
    requires Spells4(r, a, b, c, d)
    ensures r == a + b + c + d
  {
    var i := |a|;
    var j := i + |b|;
    var k := j + |c|;
    assert r[..i] == a;
    OccursSlice(b, r, i);
    OccursSlice(c, r, j);
    assert r[k..] == d;
    assert r[..j] == r[..i] + r[i..j];
    assert r[..k] == r[..j] + r[j..k];
    assert r == r[..k] + r[k..];
  }

  /** `Spells5` leaves no freedom: it holds of the concatenation only. */
  lemma Spells5Exact(r: string, a: string, b: string, c: string, d: string, e: string)
    requires Spells5(r, a, b, c, d, e)
    ensures r == a + b + c + d + e
  {
    var i := |a|;
    var j := i + |b|;
    var k := j + |c|;
    var l := k + |d|;
    assert r[..i] == a;
    OccursSlice(b, r, i);
    OccursSlice(c, r, j);
    OccursSlice(d, r, k);
    assert r[l..] == e;
    assert r[..j] == r[..i] + r[i..j];
    assert r[..k] == r[..j] + r[j..k];
    assert r[..l] == r[..k] + r[k..l];
    assert r == r[..l] + r[l..];
  }
}
