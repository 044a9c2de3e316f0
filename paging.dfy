/**
 * Client-side pagination as both ledger views write it: pages of ten entries, numbered from 1,
 * `entries.slice((page - 1) * 10, page * 10)` and `Math.ceil(entries.length / 10)` pages.
 */
module Paging {

  const EntriesPerPage: nat := 10

  function Min(a: int, b: int): int { if a <= b then a else b }

  function Max(a: int, b: int): int { if a <= b then b else a }

  /** How `Array.prototype.slice` reads one of its bounds: negative counts from the end, then clamp to `[0, n]`. */
  function ClampIndex(i: int, n: nat): (k: nat)
    ensures k <= n
    ensures 0 <= i <= n ==> k == i
    ensures i > n ==> k == n
  {
    if i < 0 then Max(n + i, 0) else Min(i, n)
  }

  /** `s.slice(start, end)`. */
  function JsSlice<T>(s: seq<T>, start: int, end: int): (r: seq<T>)
    ensures 0 <= start <= end <= |s| ==> r == s[start..end]
    ensures 0 <= start && |s| <= start ==> r == []
    ensures 0 <= start <= |s| <= end ==> r == s[start..]
  {
    var a := ClampIndex(start, |s|);
    var b := ClampIndex(end, |s|);
    if a < b then s[a..b] else []
  }

  /** `Math.ceil(n / 10)`: the fewest pages of ten that hold `n` entries. */
  function TotalPages(n: nat): (t: nat)
    ensures t * EntriesPerPage >= n
    ensures t == 0 || (t - 1) * EntriesPerPage < n
    ensures t == 0 <==> n == 0
  {
    (n + EntriesPerPage - 1) / EntriesPerPage
  }

  /** `currentEntries` for page `page`: indexOfFirstEntry = page * 10 - 10, indexOfLastEntry = page * 10. */
  function PageOf<T>(s: seq<T>, page: int): (r: seq<T>)
    ensures |r| <= EntriesPerPage
    ensures 1 <= page <= TotalPages(|s|) ==>
      0 < |r| && r == s[(page - 1) * EntriesPerPage .. Min(page * EntriesPerPage, |s|)]
    ensures page > TotalPages(|s|) ==> r == []
  {
    JsSlice(s, page * EntriesPerPage - EntriesPerPage, page * EntriesPerPage)
  }

  /** Pages 1 through `k`, laid end to end. */
  function PagesUpTo<T>(s: seq<T>, k: nat): seq<T> {
    if k == 0 then [] else PagesUpTo(s, k - 1) + PageOf(s, k)
  }

  /** The first `k` pages are exactly the first `k * 10` entries (or all of them). */
  lemma {:induction false} PagesUpToPrefix<T>(s: seq<T>, k: nat)
    ensures PagesUpTo(s, k) == s[..Min(k * EntriesPerPage, |s|)]
  {
    if k > 0 {
      PagesUpToPrefix(s, k - 1);
      var lo := Min((k - 1) * EntriesPerPage, |s|);
      var hi := Min(k * EntriesPerPage, |s|);
      assert PageOf(s, k) == s[lo..hi];
      assert s[..lo] + s[lo..hi] == s[..hi];
    }
  }

  /** Paging loses and repeats nothing: pages 1 to `TotalPages` together are the whole list. */
  lemma PagesCoverAll<T>(s: seq<T>)
    ensures PagesUpTo(s, TotalPages(|s|)) == s
  {
    PagesUpToPrefix(s, TotalPages(|s|));
  }
}
