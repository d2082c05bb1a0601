/**
 * The paging callback of the pinned status message (pkg/tg/callbacks.go):
 * which page the data behind a pressed button asks for.
 */
module TgCallbacks {
  import opened Wrappers
  import opened GoStrings
  import opened GoStrconv
  import TgApi

  const RefreshArg := "refresh"
  const GetArg := "get"

  /**
   * `CallbackQueryStat`: the page to rebuild for the callback `parts` (the
   * data split at its first '.'), or `None` when the chunk it reads is 0, in
   * which case `UpdateStatMessage` is not called. A number that does not
   * parse gives what `Atoi` returns with its error: 0 for bad syntax, the
   * clamped value when out of range.
   */
  function StatCallback(parts: seq<string>): (page: Option<int>)
    requires |parts| >= 1
    ensures |parts| == 1 ==> page == None
    ensures page.Some? ==> page.value != 0 && IsInt64(page.value)
  {
    if |parts| == 1 then None
    else
      var args := SplitOn(parts[1], '#');
      var chunk :=
        if |args| == 1 && args[0] == RefreshArg then 1
        else if |args| == 2 && args[0] == GetArg then Atoi(args[1]).value
        else 0;
      if chunk != 0 then Some(chunk) else None
  }

  /**
   * Only the two shapes of page data open a page: "refresh", and "get#"
   * followed by text without '#'. Anything else ("foo", "get#1#2") opens none.
   */
  lemma StatCallbackShapes(parts: seq<string>)
    requires |parts| >= 2
    ensures StatCallback(parts).Some? ==>
      parts[1] == RefreshArg || exists n :: '#' !in n && parts[1] == GetArg + "#" + n
  {
    var args := SplitOn(parts[1], '#');
    if StatCallback(parts).Some? && parts[1] != RefreshArg {
      assert |args| == 2 && args[0] == GetArg;
      assert JoinWith(args, '#') == GetArg + "#" + args[1];
      assert args[1] in args;
    }
  }

  /** "refresh" asks for the first page. */
  lemma RefreshIsFirstPage(head: string)
    ensures StatCallback([head, RefreshArg]) == Some(1)
  {
    SplitOnAbsent(RefreshArg, '#');
  }

  /** "get#N" with a decimal N that parses asks for page N, unless N is 0. */
  lemma GetParsedPage(head: string, n: string)
    requires '#' !in n && Atoi(n).err == NoError
    ensures StatCallback([head, GetArg + "#" + n]) == (if Atoi(n).value == 0 then None else Some(Atoi(n).value))
  {
    SplitOnPair(GetArg, n, '#');
  }

  /** "get#N" with an N that is not a number asks for nothing. */
  lemma GetUnparseableIgnored(head: string, n: string)
    requires '#' !in n && Atoi(n).err == ErrSyntax
    ensures StatCallback([head, GetArg + "#" + n]) == None
  {
    SplitOnPair(GetArg, n, '#');
  }

  lemma FormatIntNoHash(x: int)
    ensures '#' !in FormatInt(x) && '.' !in FormatInt(x)
  {
    var s := FormatInt(x);
    var d := if x < 0 then Digits(-x) else Digits(x);
    assert forall i :: 0 <= i < |d| ==> IsDigit(d[i]);
    assert x < 0 ==> s == "-" + d;
    assert x >= 0 ==> s == d;
  }

  /**
   * The data of a page button, split at its first '.' as the callback
   * handler does, asks for exactly that page: the buttons and the parser
   * are inverse.
   */
  lemma PageDataRoundTrip(chunk: int)
    requires IsInt64(chunk) && chunk != 0
    ensures SplitN2(TgApi.PageData(chunk), '.') == ["stat", "get#" + FormatInt(chunk)]
    ensures StatCallback(SplitN2(TgApi.PageData(chunk), '.')) == Some(chunk)
  {
    var n := FormatInt(chunk);
    PageDataSplits(chunk);
    FormatIntNoHash(chunk);
    FormatParseRoundTrip(chunk);
    assert GetArg + "#" + n == "get#" + n;
    GetParsedPage("stat", n);
  }

  /** A page button's data splits into the handler name and "get#N". */
  lemma PageDataSplits(chunk: int)
    ensures SplitN2(TgApi.PageData(chunk), '.') == ["stat", "get#" + FormatInt(chunk)]
  {
    var digits := FormatInt(chunk);
    var rest := "get#" + digits;
    assert TgApi.PagePrefix == "stat" + ['.'] + "get#";
    assert TgApi.PageData(chunk) == ("stat" + ['.']) + rest by {
      assert ("stat" + ['.'] + "get#") + digits == ("stat" + ['.']) + ("get#" + digits);
    }
    SplitN2Pair("stat", rest, '.');
  }

  /** The refresh button asks for the first page. */
  lemma RefreshDataRoundTrip()
    ensures SplitN2(TgApi.RefreshData, '.') == ["stat", RefreshArg]
    ensures StatCallback(SplitN2(TgApi.RefreshData, '.')) == Some(1)
  {
    assert TgApi.RefreshData == "stat" + ['.'] + RefreshArg;
    SplitN2Pair("stat", RefreshArg, '.');
    RefreshIsFirstPage("stat");
  }

  /**
   * Every button of the navigation row of a page (`chunk` >= 1) leads back
   * to a page: refresh to the first, "previous" to `chunk` - 1, "next" to
   * `chunk` + 1 (wrapping at the 64-bit edge).
   */
  lemma {:induction false} NavRowRoundTrip(chunk: int, total: int, clock: string, b: TgApi.Button)
    requires 1 <= chunk <= MaxInt64 && b in TgApi.NavRow(chunk, total, clock)
    ensures var page := StatCallback(SplitN2(b.data, '.'));
      page == Some(1) || (chunk > 1 && page == Some(chunk - 1)) || page == Some(Wrap64(chunk + 1))
  {
    var row := TgApi.NavRow(chunk, total, clock);
    var prevPage, nextPage := Wrap64(chunk - 1), Wrap64(chunk + 1);
    assert b.data == TgApi.RefreshData || (chunk > 1 && b.data == TgApi.PageData(prevPage))
      || b.data == TgApi.PageData(nextPage);
    if b.data == TgApi.RefreshData {
      RefreshDataRoundTrip();
    } else if chunk > 1 && b.data == TgApi.PageData(prevPage) {
      PageDataRoundTrip(prevPage);
    } else {
      assert nextPage != 0;
      PageDataRoundTrip(nextPage);
    }
  }
}
