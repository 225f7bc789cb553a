/** How many candidate rows one downloaded page carries. */
module SyncLimits {
  const MAX_DOWNLOAD_PAGE_BYTES := 24_000_000

  function Size<T>(row: T, bytesOf: T -> int): nat {
    if bytesOf(row) < 0 then 0 else bytesOf(row)
  }

  function TotalSize<T>(rows: seq<T>, bytesOf: T -> int): nat {
    if rows == [] then 0 else TotalSize(rows[..|rows| - 1], bytesOf) + Size(rows[|rows| - 1], bytesOf)
  }

  /** A page is a prefix within both limits, except that a first row always travels, and it
      stops only where the next row would break a limit. */
  ghost predicate IsPage<T>(rows: seq<T>, page: seq<T>, countLimit: int, byteLimit: int, bytesOf: T -> int) {
    && page <= rows
    && (page != [] ==> |page| <= countLimit)
    && (|page| >= 2 ==> TotalSize(page, bytesOf) <= byteLimit)
    && (|page| < |rows| && |page| < countLimit ==>
          page != [] && TotalSize(page, bytesOf) + Size(rows[|page|], bytesOf) > byteLimit)
  }

  method FitDownloadPage<T>(rows: seq<T>, countLimit: int, byteLimit: int, bytesOf: T -> int)
    returns (page: seq<T>, hasMore: bool)
    ensures IsPage(rows, page, countLimit, byteLimit, bytesOf)
    ensures hasMore <==> |page| < |rows|
    ensures rows != [] && countLimit >= 1 ==> page != []
  {
    page := [];
    var used := 0;
    var i := 0;
    while i < |rows|
      invariant 0 <= i <= |rows| && page == rows[..i]
      invariant used == TotalSize(page, bytesOf)
      invariant page != [] ==> |page| <= countLimit
      invariant |page| >= 2 ==> used <= byteLimit
    {
      if |page| >= countLimit { break; }
      var bytes := Size(rows[i], bytesOf);
      if |page| > 0 && used + bytes > byteLimit { break; }
      page := page + [rows[i]];
      assert page[..|page| - 1] == rows[..i];
      used := used + bytes;
      i := i + 1;
    }
    hasMore := |rows| > |page|;
  }

  lemma {:induction false} TotalSizeGrows<T>(rows: seq<T>, m: nat, n: nat, bytesOf: T -> int)
    requires m <= n <= |rows|
    ensures TotalSize(rows[..m], bytesOf) <= TotalSize(rows[..n], bytesOf)
  {
    if m < n {
      assert rows[..n][..n - 1] == rows[..n - 1];
      TotalSizeGrows(rows, m, n - 1, bytesOf);
    }
  }

  /** The limits determine the page. */
  lemma PageUnique<T>(rows: seq<T>, p: seq<T>, q: seq<T>, countLimit: int, byteLimit: int, bytesOf: T -> int)
    requires IsPage(rows, p, countLimit, byteLimit, bytesOf)
    requires IsPage(rows, q, countLimit, byteLimit, bytesOf)
    ensures p == q
  {
    assert p == rows[..|p|] && q == rows[..|q|];
    if |p| < |q| {
      LongerPage(rows, p, q, countLimit, byteLimit, bytesOf);
    } else if |q| < |p| {
      LongerPage(rows, q, p, countLimit, byteLimit, bytesOf);
    }
  }

  lemma LongerPage<T>(rows: seq<T>, p: seq<T>, q: seq<T>, countLimit: int, byteLimit: int, bytesOf: T -> int)
    requires IsPage(rows, p, countLimit, byteLimit, bytesOf)
    requires IsPage(rows, q, countLimit, byteLimit, bytesOf)
    ensures |p| >= |q|
  {
    if |p| < |q| {
      var n := |p|;
      assert p == rows[..n] && q == rows[..|q|];
      assert rows[..n + 1][..n] == rows[..n];
      TotalSizeGrows(rows, n + 1, |q|, bytesOf);
      assert false;
    }
  }
}
