/**
 * The argument handling of the `/join` command (pkg/tg/commands.go).
 * `prepareArgs` splits the command's arguments into a client and a main-group
 * name with the first of four anchored regular expressions that matches;
 * `prepareClient` turns a written phone number into the digits WhatsApp uses,
 * and passes a group id ("<digits>-<digits>") through.
 */
module TgCommandArgs {
  import opened GoStrings
  import opened GoStrconv

  predicate NoLetter(s: string)
  {
    forall i :: 0 <= i < |s| ==> !IsAsciiLetter(s[i])
  }

  predicate NoSpace(s: string)
  {
    forall i :: 0 <= i < |s| ==> !IsRegexSpace(s[i])
  }

  predicate AllSpace(s: string)
  {
    forall i :: 0 <= i < |s| ==> IsRegexSpace(s[i])
  }

  // Left-to-right scans over the argument text.

  /** The first position at or after `i` holding an ASCII letter, or `|s|`. */
  function LetterFrom(s: string, i: nat): (k: nat)
    requires i <= |s|
    ensures i <= k <= |s|
    ensures forall j :: i <= j < k ==> !IsAsciiLetter(s[j])
    ensures k < |s| ==> IsAsciiLetter(s[k])
    decreases |s| - i
  {
    if i == |s| || IsAsciiLetter(s[i]) then i else LetterFrom(s, i + 1)
  }

  /** The first position at or after `i` holding `\s`, or `|s|`. */
  function SpaceFrom(s: string, i: nat): (k: nat)
    requires i <= |s|
    ensures i <= k <= |s|
    ensures forall j :: i <= j < k ==> !IsRegexSpace(s[j])
    ensures k < |s| ==> IsRegexSpace(s[k])
    decreases |s| - i
  {
    if i == |s| || IsRegexSpace(s[i]) then i else SpaceFrom(s, i + 1)
  }

  /** The first position at or after `i` holding `\S`, or `|s|`. */
  function NonSpaceFrom(s: string, i: nat): (k: nat)
    requires i <= |s|
    ensures i <= k <= |s|
    ensures forall j :: i <= j < k ==> IsRegexSpace(s[j])
    ensures k < |s| ==> !IsRegexSpace(s[k])
    decreases |s| - i
  {
    if i == |s| || !IsRegexSpace(s[i]) then i else NonSpaceFrom(s, i + 1)
  }

  /** The first position at or after `i` holding a newline, or `|s|`. */
  function NewlineFrom(s: string, i: nat): (k: nat)
    requires i <= |s|
    ensures i <= k <= |s|
    ensures forall j :: i <= j < k ==> s[j] != '\n'
    ensures k < |s| ==> s[k] == '\n'
    decreases |s| - i
  {
    if i == |s| || s[i] == '\n' then i else NewlineFrom(s, i + 1)
  }

  // The four patterns of `prepareArgs`.

  /** The patterns `prepareArgs` tries, in this order. */
  datatype Pattern =
    | NonLetters          // one group: text without an ASCII letter
    | NonLettersThenWord  // two groups: non-letters, then a letter and the rest of the line
    | OneToken            // one group: text without white space
    | TwoTokens           // two groups: a token, white space, a token

  const Patterns: seq<Pattern> := [NonLetters, NonLettersThenWord, OneToken, TwoTokens]

  /** `s` is non-letters up to `k`, then a letter, then no line break. */
  predicate LetterSplit(s: string, k: int)
  {
    && 0 < k < |s|
    && (forall i :: 0 <= i < k ==> !IsAsciiLetter(s[i]))
    && IsAsciiLetter(s[k])
    && (forall i :: k <= i < |s| ==> s[i] != '\n')
  }

  /** `s` is a token up to `j`, white space up to `e`, then a token. */
  predicate TokenSplit(s: string, j: int, e: int)
  {
    && 0 <= j <= e <= |s|
    && (forall i :: 0 <= i < j ==> !IsRegexSpace(s[i]))
    && (forall i :: j <= i < e ==> IsRegexSpace(s[i]))
    && (forall i :: e <= i < |s| ==> !IsRegexSpace(s[i]))
  }

  /**
   * `FindStringSubmatch` of one pattern: `[]` when it does not match, else
   * the whole text followed by the groups. Go's RE2 matches leftmost-first
   * with greedy repetition, so the first group of `NonLettersThenWord` ends at
   * the first letter and the tokens of `TwoTokens` are split by the first run
   * of white space; `.` does not match a newline and `\s` is `[\t\n\f\r ]`.
   */
  function FindSubmatch(p: Pattern, s: string): (m: seq<string>)
    ensures p.NonLetters? ==> (m != [] <==> s != [] && NoLetter(s))
    ensures p.NonLetters? && m != [] ==> m == [s, s]
    ensures p.NonLettersThenWord? ==> (m != [] <==> exists k :: LetterSplit(s, k))
    ensures p.NonLettersThenWord? ==>
      forall k :: LetterSplit(s, k) ==> m == [s, s[..k], s[k..]]
    ensures p.OneToken? ==> (m != [] <==> NoSpace(s))
    ensures p.OneToken? && m != [] ==> m == [s, s]
    ensures p.TwoTokens? ==> (m != [] <==> exists j, e :: TokenSplit(s, j, e))
    ensures p.TwoTokens? && !NoSpace(s) ==>
      forall j, e :: TokenSplit(s, j, e) ==> m == [s, s[..j], s[e..]]
    ensures p.TwoTokens? && NoSpace(s) ==> m == [s, s, ""]
  {
    match p
    case NonLetters =>
      if s != [] && LetterFrom(s, 0) == |s| then [s, s] else []
    case NonLettersThenWord =>
      var k := LetterFrom(s, 0);
      if 0 < k < |s| && NewlineFrom(s, k) == |s| then
        assert LetterSplit(s, k);
        LetterSplitUnique(s, k);
        [s, s[..k], s[k..]]
      else
        NoLetterSplit(s, k);
        []
    case OneToken =>
      if SpaceFrom(s, 0) == |s| then [s, s] else []
    case TwoTokens =>
      var j := SpaceFrom(s, 0);
      var e := NonSpaceFrom(s, j);
      if SpaceFrom(s, e) == |s| then
        assert TokenSplit(s, j, e);
        assert NoSpace(s) ==> j == |s| && s[..j] == s && s[e..] == [];
        TokenSplitGreedy(s);
        [s, s[..j], s[e..]]
      else
        NoTokenSplit(s, j, e);
        []
  }

  /** A letter split is at the first letter. */
  lemma LetterSplitUnique(s: string, k: int)
    requires LetterSplit(s, k)
    ensures forall k' :: LetterSplit(s, k') ==> k' == k
  {
  }

  lemma NoLetterSplit(s: string, k: nat)
    requires k == LetterFrom(s, 0)
    requires !(0 < k < |s| && NewlineFrom(s, k) == |s|)
    ensures forall k' :: !LetterSplit(s, k')
  {
  }

  lemma NoTokenSplit(s: string, j: nat, e: nat)
    requires j == SpaceFrom(s, 0) && j <= |s| && e == NonSpaceFrom(s, j)
    requires SpaceFrom(s, e) != |s|
    ensures forall j', e' :: !TokenSplit(s, j', e')
  {
    var f := SpaceFrom(s, e);
    assert j < e < f < |s|;
    forall j', e' | TokenSplit(s, j', e')
      ensures false
    {
      // The spaces at `j` and `f` lie in the split's white space, and so
      // does the non-space at `e` between them.
      TokenSplitCovers(s, j', e', j);
      TokenSplitCovers(s, j', e', f);
    }
  }

  /** The results a match sets: its first group and its second, when there are such. */
  function Groups(m: seq<string>): (string, string)
  {
    (if |m| > 1 then m[1] else "", if |m| > 2 then m[2] else "")
  }

  /**
   * The results of `prepareArgs`: all of a letter-free text; else the
   * non-letters before the first letter and the rest; else a whole token;
   * else the tokens around the one run of white space; else two empty texts.
   */
  function ArgsOf(s: string): (r: (string, string))
    ensures s != [] && NoLetter(s) ==> r == (s, "")
    ensures !(s != [] && NoLetter(s)) ==>
      forall k :: LetterSplit(s, k) ==> r == (s[..k], s[k..])
    ensures !(s != [] && NoLetter(s)) && (forall k :: !LetterSplit(s, k)) && NoSpace(s) ==>
      r == (s, "")
    ensures !(s != [] && NoLetter(s)) && (forall k :: !LetterSplit(s, k)) && !NoSpace(s) ==>
      forall j, e :: TokenSplit(s, j, e) ==> r == (s[..j], s[e..])
    ensures (!(s != [] && NoLetter(s)) && (forall k :: !LetterSplit(s, k)) && !NoSpace(s)
      && (forall j, e :: !TokenSplit(s, j, e))) ==> r == ("", "")
  {
    var m1 := FindSubmatch(NonLetters, s);
    var m2 := FindSubmatch(NonLettersThenWord, s);
    var m3 := FindSubmatch(OneToken, s);
    var m4 := FindSubmatch(TwoTokens, s);
    if |m1| > 1 then Groups(m1)
    else if |m2| > 1 then Groups(m2)
    else if |m3| > 1 then Groups(m3)
    else Groups(m4)
  }

  /** The only token split of a text with white space is at its first run of it. */
  lemma TokenSplitGreedy(s: string)
    ensures !NoSpace(s) ==> forall j, e :: TokenSplit(s, j, e) ==>
      j == SpaceFrom(s, 0) && e == NonSpaceFrom(s, SpaceFrom(s, 0))
  {
    if !NoSpace(s) {
      var w :| 0 <= w < |s| && IsRegexSpace(s[w]);
      forall j, e | TokenSplit(s, j, e)
        ensures j == SpaceFrom(s, 0) && e == NonSpaceFrom(s, SpaceFrom(s, 0))
      {
        TokenSplitCovers(s, j, e, w);
        FirstSpaceAt(s, j);
        FirstNonSpaceAt(s, j, e);
      }
    }
  }

  lemma FirstSpaceAt(s: string, j: nat)
    requires j < |s| && IsRegexSpace(s[j])
    requires forall i :: 0 <= i < j ==> !IsRegexSpace(s[i])
    ensures SpaceFrom(s, 0) == j
  {
  }

  lemma FirstNonSpaceAt(s: string, j: nat, e: nat)
    requires j <= e <= |s|
    requires forall i :: j <= i < e ==> IsRegexSpace(s[i])
    requires e < |s| ==> !IsRegexSpace(s[e])
    ensures NonSpaceFrom(s, j) == e
  {
  }

  /** A white-space position lies in the white space of every token split. */
  lemma TokenSplitCovers(s: string, j: int, e: int, w: int)
    requires TokenSplit(s, j, e) && 0 <= w < |s| && IsRegexSpace(s[w])
    ensures j <= w < e
  {
  }

  /** `prepareArgs`: try the patterns in order and stop at the first that matches. */
  method PrepareArgs(args: string) returns (arg1: string, arg2: string)
    ensures (arg1, arg2) == ArgsOf(args)
  {
    arg1, arg2 := "", "";
    var i := 0;
    assert Patterns[0] == NonLetters && Patterns[1] == NonLettersThenWord;
    assert Patterns[2] == OneToken && Patterns[3] == TwoTokens;
    while i < |Patterns|
      invariant 0 <= i <= |Patterns|
      invariant forall k :: 0 <= k < i ==> |FindSubmatch(Patterns[k], args)| <= 1
      invariant arg1 == "" && arg2 == ""
    {
      var m := FindSubmatch(Patterns[i], args);
      if |m| > 1 {
        arg1 := m[1];
      }
      if |m| > 2 {
        arg2 := m[2];
      }
      if |m| > 1 {
        assert (arg1, arg2) == Groups(m);
        break;
      }
      i := i + 1;
    }
  }

  // `prepareClient`.

  /** Exactly one '-', with a 64-bit integer on both sides of it. */
  predicate IsGroupID(client: string)
  {
    CountChar(client, '-') == 1
    && var parts := SplitOn(client, '-');
    ParseInt(parts[0]).err == NoError && ParseInt(parts[1]).err == NoError
  }

  /** The characters `prepareClient` drops from a phone number. */
  predicate Punctuation(c: char)
  {
    c == ' ' || c == '(' || c == ')' || c == '-' || c == '+'
  }

  /** The text without its punctuation, the other characters in order. */
  function Unpunctuated(s: string): string
  {
    if s == [] then []
    else (if Punctuation(s[0]) then [] else [s[0]]) + Unpunctuated(s[1..])
  }

  /** What is left is exactly the characters of `s` that are not punctuation. */
  lemma {:induction false} UnpunctuatedChars(s: string)
    ensures forall c :: c in Unpunctuated(s) ==> !Punctuation(c)
    ensures forall c :: !Punctuation(c) ==> (c in Unpunctuated(s) <==> c in s)
  {
    if s != [] {
      UnpunctuatedChars(s[1..]);
      assert s == [s[0]] + s[1..];
    }
  }

  lemma {:induction false} UnpunctuatedAppend(a: string, b: string)
    ensures Unpunctuated(a + b) == Unpunctuated(a) + Unpunctuated(b)
  {
    if a != [] {
      assert (a + b)[1..] == a[1..] + b;
      UnpunctuatedAppend(a[1..], b);
    } else {
      assert a + b == b;
    }
  }

  /** Removing the five characters one after another is removing them all at once. */
  lemma {:induction false} RemovalsUnpunctuate(s: string)
    ensures RemoveChar(RemoveChar(RemoveChar(RemoveChar(RemoveChar(s, ' '), '('), ')'), '-'), '+')
      == Unpunctuated(s)
  {
    if s != [] {
      RemovalsUnpunctuate(s[1..]);
      var h, t := [s[0]], s[1..];
      assert s == h + t;
      var r1 := RemoveChar(t, ' ');
      var r2 := RemoveChar(r1, '(');
      var r3 := RemoveChar(r2, ')');
      var r4 := RemoveChar(r3, '-');
      RemoveCharAppend(h, t, ' ');
      var h1 := RemoveChar(h, ' ');
      RemoveCharAppend(h1, r1, '(');
      var h2 := RemoveChar(h1, '(');
      RemoveCharAppend(h2, r2, ')');
      var h3 := RemoveChar(h2, ')');
      RemoveCharAppend(h3, r3, '-');
      var h4 := RemoveChar(h3, '-');
      RemoveCharAppend(h4, r4, '+');
      assert RemoveChar(h4, '+') == if Punctuation(s[0]) then [] else [s[0]];
    }
  }

  /** Dropping spaces keeps the number of dashes. */
  lemma {:induction false} DashesWithoutSpaces(s: string)
    ensures CountChar(RemoveChar(s, ' '), '-') == CountChar(s, '-')
  {
    if s != [] {
      DashesWithoutSpaces(s[1..]);
      assert s == [s[0]] + s[1..];
      RemoveCharAppend([s[0]], s[1..], ' ');
      CountCharAppend(RemoveChar([s[0]], ' '), RemoveChar(s[1..], ' '), '-');
    }
  }

  /**
   * `prepareClient`: spaces are dropped; a group id is then returned as it is,
   * and anything else also loses its brackets, dashes and plus signs, keeping
   * every other character in order.
   */
  function PrepareClient(arg: string): (client: string)
    ensures ' ' !in client
    ensures IsGroupID(RemoveChar(arg, ' ')) ==> client == RemoveChar(arg, ' ')
    ensures !IsGroupID(RemoveChar(arg, ' ')) ==> client == Unpunctuated(arg)
    ensures CountChar(arg, '-') != 1 ==> client == Unpunctuated(arg)
  {
    var client := RemoveChar(arg, ' ');
    RemovalsUnpunctuate(arg);
    DashesWithoutSpaces(arg);
    if IsGroupID(client) then client
    else RemoveChar(RemoveChar(RemoveChar(RemoveChar(client, '('), ')'), '-'), '+')
  }

  /** A normalised client is normalised again to itself. */
  lemma PrepareClientIdempotent(arg: string)
    ensures PrepareClient(PrepareClient(arg)) == PrepareClient(arg)
  {
    var client := PrepareClient(arg);
    UnpunctuatedChars(arg);
    RemoveCharAbsent(client, ' ');
    if !IsGroupID(RemoveChar(arg, ' ')) {
      assert !IsGroupID(client) by {
        assert CountChar(client, '-') == 0;
      }
      RemoveCharAbsent(client, '(');
      RemoveCharAbsent(client, ')');
      RemoveCharAbsent(client, '-');
      RemoveCharAbsent(client, '+');
    }
  }

  // The shapes of the `/join` arguments.

  /** A number, a space and a word: the word names the main group. */
  lemma NumberThenWord(p: string, n: string)
    requires NoLetter(p) && n != [] && IsAsciiLetter(n[0]) && '\n' !in n
    ensures ArgsOf(p + " " + n) == (p + " ", n)
  {
    var s, k := p + " " + n, |p| + 1;
    assert s[k] == n[0];
    assert forall i :: k <= i < |s| ==> s[i] == n[i - k];
    assert LetterSplit(s, k);
    assert s[..k] == p + " " && s[k..] == n;
  }

  /** Two words: the first is the client (an alias), the second the main group. */
  lemma WordThenWord(a: string, b: string)
    requires a != [] && IsAsciiLetter(a[0]) && NoSpace(a) && NoSpace(b)
    ensures ArgsOf(a + " " + b) == (a, b)
  {
    var s, j := a + " " + b, |a|;
    assert s[0] == a[0];
    assert s[j] == ' ';
    assert forall i :: j + 1 <= i < |s| ==> s[i] == b[i - j - 1];
    assert TokenSplit(s, j, j + 1);
    assert s[..j] == a && s[j + 1..] == b;
  }

  /** One word: the client alone. */
  lemma OneWord(a: string)
    requires a != [] && IsAsciiLetter(a[0]) && NoSpace(a)
    ensures ArgsOf(a) == (a, "")
  {
    assert a[0] == a[0];
  }

  /**
   * `c` has no letter, its characters other than punctuation are `digits`,
   * and it holds `dashes` dashes.
   */
  predicate NumberText(c: string, digits: string, dashes: nat)
  {
    NoLetter(c) && Unpunctuated(c) == digits && CountChar(c, '-') == dashes
  }

  lemma NumberTextAppend(a: string, da: string, na: nat, b: string, db: string, nb: nat)
    requires NumberText(a, da, na) && NumberText(b, db, nb)
    ensures NumberText(a + b, da + db, na + nb)
  {
    UnpunctuatedAppend(a, b);
    CountCharAppend(a, b, '-');
    NoLetterAppend(a, b);
  }

  lemma NoLetterAppend(a: string, b: string)
    requires NoLetter(a) && NoLetter(b)
    ensures NoLetter(a + b)
  {
    assert forall i :: |a| <= i < |a + b| ==> (a + b)[i] == b[i - |a|];
  }

  /** A text with no punctuation is its own unpunctuated form. */
  lemma {:induction false} UnpunctuatedKeeps(s: string)
    requires forall i :: 0 <= i < |s| ==> !Punctuation(s[i])
    ensures Unpunctuated(s) == s
  {
    if s != [] {
      UnpunctuatedKeeps(s[1..]);
      assert [s[0]] + s[1..] == s;
    }
  }

  lemma DigitsKept(s: string)
    requires forall i :: 0 <= i < |s| ==> IsDigit(s[i])
    ensures NumberText(s, s, 0)
  {
    UnpunctuatedKeeps(s);
  }

  lemma Separators()
    ensures NumberText("+", "", 0) && NumberText("(", "", 0) && NumberText(")", "", 0)
    ensures NumberText(" ", "", 0) && NumberText(") ", "", 0) && NumberText("-", "", 1)
  {
    assert NumberText("+", "", 0);
    assert NumberText("(", "", 0);
    assert NumberText(")", "", 0);
    assert NumberText(" ", "", 0);
    assert NumberText(") ", "", 0);
  }

  lemma AppendSeparator(x: string, dx: string, nx: nat, sep: string, ns: nat)
    requires NumberText(x, dx, nx) && NumberText(sep, "", ns)
    ensures NumberText(x + sep, dx, nx + ns)
  {
    NumberTextAppend(x, dx, nx, sep, "", ns);
    assert dx + "" == dx;
  }

  /** The spaced spelling "+A(B) C D E" of the digit runs A to E. */
  lemma SpacedPhone(a: string, b: string, c: string, d: string, e: string)
    requires IsDecimal(a) && IsDecimal(b) && IsDecimal(c) && IsDecimal(d) && IsDecimal(e)
    ensures NumberText("+" + a + "(" + b + ") " + c + " " + d + " " + e, a + b + c + d + e, 0)
  {
    Separators();
    DigitsKept(a); DigitsKept(b); DigitsKept(c); DigitsKept(d); DigitsKept(e);
    NumberTextAppend("+", "", 0, a, a, 0);
    assert "" + a == a;
    AppendSeparator("+" + a, a, 0, "(", 0);
    NumberTextAppend("+" + a + "(", a, 0, b, b, 0);
    AppendSeparator("+" + a + "(" + b, a + b, 0, ") ", 0);
    NumberTextAppend("+" + a + "(" + b + ") ", a + b, 0, c, c, 0);
    AppendSeparator("+" + a + "(" + b + ") " + c, a + b + c, 0, " ", 0);
    NumberTextAppend("+" + a + "(" + b + ") " + c + " ", a + b + c, 0, d, d, 0);
    AppendSeparator("+" + a + "(" + b + ") " + c + " " + d, a + b + c + d, 0, " ", 0);
    NumberTextAppend("+" + a + "(" + b + ") " + c + " " + d + " ", a + b + c + d, 0, e, e, 0);
  }

  /** The dashed spelling "+A(B)C-D-E": two dashes, so not a group id. */
  lemma DashedPhone(a: string, b: string, c: string, d: string, e: string)
    requires IsDecimal(a) && IsDecimal(b) && IsDecimal(c) && IsDecimal(d) && IsDecimal(e)
    ensures NumberText("+" + a + "(" + b + ")" + c + "-" + d + "-" + e, a + b + c + d + e, 2)
  {
    Separators();
    DigitsKept(d); DigitsKept(e);
    BracketedPhone(a, b, c);
    AppendSeparator("+" + a + "(" + b + ")" + c, a + b + c, 0, "-", 1);
    NumberTextAppend("+" + a + "(" + b + ")" + c + "-", a + b + c, 1, d, d, 0);
    AppendSeparator("+" + a + "(" + b + ")" + c + "-" + d, a + b + c + d, 1, "-", 1);
    NumberTextAppend("+" + a + "(" + b + ")" + c + "-" + d + "-", a + b + c + d, 2, e, e, 0);
  }

  /** The head "+A(B)C" of a written phone number. */
  lemma BracketedPhone(a: string, b: string, c: string)
    requires IsDecimal(a) && IsDecimal(b) && IsDecimal(c)
    ensures NumberText("+" + a + "(" + b + ")" + c, a + b + c, 0)
  {
    Separators();
    DigitsKept(a); DigitsKept(b); DigitsKept(c);
    NumberTextAppend("+", "", 0, a, a, 0);
    assert "" + a == a;
    AppendSeparator("+" + a, a, 0, "(", 0);
    NumberTextAppend("+" + a + "(", a, 0, b, b, 0);
    AppendSeparator("+" + a + "(" + b, a + b, 0, ")", 0);
    NumberTextAppend("+" + a + "(" + b + ")", a + b, 0, c, c, 0);
  }

  /** The international spelling "+N" and the bare digits "N". */
  lemma PlainPhone(n: string)
    requires IsDecimal(n)
    ensures NumberText("+" + n, n, 0) && NumberText(n, n, 0)
  {
    Separators();
    DigitsKept(n);
    NumberTextAppend("+", "", 0, n, n, 0);
    assert "" + n == n;
  }

  /**
   * A written phone number, with or without the space `prepareArgs` leaves
   * before a main-group name, becomes its digits, unless it holds exactly
   * one dash.
   */
  lemma PhoneNumber(s: string, digits: string, dashes: nat)
    requires NumberText(s, digits, dashes) && dashes != 1
    ensures PrepareClient(s) == digits && PrepareClient(s + " ") == digits
  {
    assert NumberText(" ", "", 0);
    AppendSeparator(s, digits, dashes, " ", 0);
  }

  /** What `/join` makes of its arguments: the normalised client and the main-group name. */
  function JoinArgs(s: string): (r: (string, string))
    ensures r.1 == ArgsOf(s).1
    ensures r.0 == PrepareClient(ArgsOf(s).0)
  {
    var (arg1, arg2) := ArgsOf(s);
    (PrepareClient(arg1), arg2)
  }

  /** A phone number alone, or followed by a main-group name. */
  lemma PhoneArgs(s: string, digits: string, dashes: nat, name: string)
    requires s != [] && NumberText(s, digits, dashes) && dashes != 1
    requires name != [] && IsAsciiLetter(name[0]) && '\n' !in name
    ensures JoinArgs(s) == (digits, "")
    ensures JoinArgs(s + " " + name) == (digits, name)
  {
    PhoneNumber(s, digits, dashes);
    NumberThenWord(s, name);
  }

  /** An alias alone, or followed by a main-group name. */
  lemma AliasArgs(alias: string, name: string)
    requires alias != [] && IsAsciiLetter(alias[0]) && NoSpace(alias) && NoSpace(name)
    requires forall i :: 0 <= i < |alias| ==> !Punctuation(alias[i])
    ensures JoinArgs(alias) == (alias, "")
    ensures JoinArgs(alias + " " + name) == (alias, name)
  {
    OneWord(alias);
    WordThenWord(alias, name);
    RemoveCharAbsent(alias, ' ');
    assert '-' !in alias;
    UnpunctuatedKeeps(alias);
  }

  /** Two decimal 64-bit integers around a dash are a group id. */
  lemma DecimalsAreGroupID(a: string, b: string)
    requires IsDecimal(a) && IsDecimal(b) && |a| <= 18 && |b| <= 18
    ensures IsGroupID(a + "-" + b)
  {
    var s := a + "-" + b;
    assert '-' !in a && '-' !in b;
    SplitOnPair(a, b, '-');
    CountCharAppend(a, "-", '-');
    CountCharAppend(a + "-", b, '-');
    ParseUintDecimal(a);
    ParseUintDecimal(b);
    DecimalBelow(a);
    DecimalBelow(b);
  }

  /** A group id, with or without a trailing space, is kept as it is. */
  lemma GroupID(a: string, b: string)
    requires IsDecimal(a) && IsDecimal(b) && |a| <= 18 && |b| <= 18
    ensures NoLetter(a + "-" + b)
    ensures PrepareClient(a + "-" + b) == a + "-" + b
    ensures PrepareClient(a + "-" + b + " ") == a + "-" + b
  {
    var s := a + "-" + b;
    DecimalsAreGroupID(a, b);
    DigitsKept(a);
    DigitsKept(b);
    NoLetterAppend(a, "-");
    NoLetterAppend(a + "-", b);
    assert ' ' !in a && ' ' !in b;
    RemoveCharAbsent(s, ' ');
    RemoveCharAppend(s, " ", ' ');
    assert RemoveChar(s + " ", ' ') == s;
  }

  /** A group id, alone or followed by a main-group name. */
  lemma GroupArgs(a: string, b: string, name: string)
    requires IsDecimal(a) && IsDecimal(b) && |a| <= 18 && |b| <= 18
    requires name != [] && IsAsciiLetter(name[0]) && '\n' !in name
    ensures JoinArgs(a + "-" + b) == (a + "-" + b, "")
    ensures JoinArgs(a + "-" + b + " " + name) == (a + "-" + b, name)
  {
    GroupID(a, b);
    NumberThenWord(a + "-" + b, name);
  }

  function Power10(n: nat): (p: nat)
    ensures p >= 1
  {
    if n == 0 then 1 else 10 * Power10(n - 1)
  }

  lemma Power10Of18()
    ensures Power10(18) == 1_000_000_000_000_000_000
  {
    assert Power10(3) == 1000;
    assert Power10(6) == 1000_000;
    assert Power10(9) == 1000_000_000;
    assert Power10(12) == 1000_000_000_000;
    assert Power10(15) == 1000_000_000_000_000;
  }

  lemma {:induction false} Power10Monotone(m: nat, n: nat)
    requires m <= n
    ensures Power10(m) <= Power10(n)
  {
    if m < n {
      Power10Monotone(m, n - 1);
    }
  }

  /** A numeral of `k` digits is below 10^k, so one of at most 18 digits fits in 64 bits. */
  lemma {:induction false} DecimalBelow(s: string)
    requires forall i :: 0 <= i < |s| ==> IsDigit(s[i])
    ensures DecimalValue(s) < Power10(|s|)
    ensures |s| <= 18 ==> DecimalValue(s) <= MaxInt64
  {
    if s != [] {
      DecimalBelow(s[..|s| - 1]);
    }
    if |s| <= 18 {
      Power10Monotone(|s|, 18);
      Power10Of18();
    }
  }
}
