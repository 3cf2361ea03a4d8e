/** The console command tokenizer (UI/CommandParser.cs): a command word and
    an optional amount, taken from the first two space-separated tokens.
    `string.ToLower` and `decimal.TryParse` are culture-dependent library
    calls; they are parameters here. A null input takes the same branch as
    an empty one and is modelled by "". */
module CommandParsing {
  import opened Common

  /** `char.IsWhiteSpace`: the Unicode space separators, the line and
      paragraph separators, U+0009 to U+000D, U+0085 and U+00A0. */
  predicate IsWhiteSpace(c: char) {
    c == ' ' || '\t' <= c <= '\r' || c == '\U{0085}' || c == '\U{00A0}' || c == '\U{1680}'
    || '\U{2000}' <= c <= '\U{200A}' || c == '\U{2028}' || c == '\U{2029}' || c == '\U{202F}'
    || c == '\U{205F}' || c == '\U{3000}'
  }

  /** `string.IsNullOrWhiteSpace`. */
  predicate IsNullOrWhiteSpace(s: string) {
    forall i :: 0 <= i < |s| ==> IsWhiteSpace(s[i])
  }

  /** A token of a split: non-empty and free of the separator. */
  predicate IsToken(t: string) {
    t != [] && forall i :: 0 <= i < |t| ==> t[i] != ' '
  }

  predicate AllTokens(ts: seq<string>) {
    forall i :: 0 <= i < |ts| ==> IsToken(ts[i])
  }

  /** The number of characters before the first space of `s`, or all of them. */
  function TokenLength(s: string): (n: nat)
    ensures n <= |s|
    ensures forall i :: 0 <= i < n ==> s[i] != ' '
    ensures n < |s| ==> s[n] == ' '
  {
    if s == [] || s[0] == ' ' then 0 else 1 + TokenLength(s[1..])
  }

  /** `s.Split(' ', StringSplitOptions.RemoveEmptyEntries)`: the maximal runs
      of non-space characters, in order. */
  function Split(s: string): (ts: seq<string>)
    ensures AllTokens(ts)
    decreases |s|
  {
    if s == [] then []
    else if s[0] == ' ' then Split(s[1..])
    else
      var n := TokenLength(s);
      [s[..n]] + Split(s[n..])
  }

  /** Tokens written out with one space between each two. */
  function Join(ts: seq<string>): string {
    if ts == [] then ""
    else if |ts| == 1 then ts[0]
    else ts[0] + " " + Join(ts[1..])
  }

  /** Characters after the first token do not change its length once a space
      ends it. */
  lemma {:induction false} TokenLengthAppend(a: string, c: string)
    requires TokenLength(a) < |a| || (c != [] && c[0] == ' ')
    ensures TokenLength(a + c) == TokenLength(a)
  {
    if a != [] && a[0] != ' ' {
      assert (a + c)[1..] == a[1..] + c;
      TokenLengthAppend(a[1..], c);
    }
  }

  /** Splitting around a space splits each side on its own: leading,
      trailing and repeated spaces make no difference to the tokens. */
  lemma {:induction false} SplitAroundSpace(a: string, b: string)
    ensures Split(a + " " + b) == Split(a) + Split(b)
    decreases |a|
  {
    var s := a + " " + b;
    if a == [] {
      assert s[1..] == b;
    } else if a[0] == ' ' {
      assert s[1..] == a[1..] + " " + b;
      SplitAroundSpace(a[1..], b);
    } else {
      var n := TokenLength(a);
      TokenLengthAppend(a, " " + b);
      assert a + " " + b == a + (" " + b);
      assert s[..n] == a[..n];
      assert s[n..] == a[n..] + " " + b;
      SplitAroundSpace(a[n..], b);
    }
  }

  /** Text without a space is one token, or none when it is empty. */
  lemma {:induction false} TokenLengthNoSpace(s: string)
    requires forall i :: 0 <= i < |s| ==> s[i] != ' '
    ensures TokenLength(s) == |s|
  {
    if s != [] {
      TokenLengthNoSpace(s[1..]);
    }
  }

  /** A token splits into itself. */
  lemma SplitSingle(t: string)
    requires IsToken(t)
    ensures Split(t) == [t]
  {
    TokenLengthNoSpace(t);
    assert t[..|t|] == t && t[|t|..] == [];
  }

  /** A token followed by a space splits off as the first token. */
  lemma SplitToken(t: string, rest: string)
    requires IsToken(t)
    ensures Split(t + " " + rest) == [t] + Split(rest)
  {
    SplitAroundSpace(t, rest);
    SplitSingle(t);
  }

  /** Splitting undoes joining: tokens joined with single spaces come back
      unchanged. */
  lemma {:induction false} SplitJoin(ts: seq<string>)
    requires AllTokens(ts)
    ensures Split(Join(ts)) == ts
  {
    if ts == [] {
    } else if |ts| == 1 {
      assert IsToken(ts[0]);
      SplitSingle(ts[0]);
    } else {
      assert IsToken(ts[0]);
      SplitJoin(ts[1..]);
      SplitToken(ts[0], Join(ts[1..]));
      assert [ts[0]] + ts[1..] == ts;
    }
  }

  /** Any input splits exactly as its tokens joined with single spaces do. */
  lemma SplitNormalizes(s: string)
    ensures Split(Join(Split(s))) == Split(s)
  {
    SplitJoin(Split(s));
  }

  /** An input with a character other than a space has at least one token. */
  lemma {:induction false} SplitNonEmpty(s: string, i: nat)
    requires i < |s| && s[i] != ' '
    ensures Split(s) != []
    decreases |s|
  {
    if s[0] == ' ' {
      SplitNonEmpty(s[1..], i - 1);
    }
  }

  /** An input that is not blank has at least one token. */
  lemma SplitNonBlank(s: string)
    requires !IsNullOrWhiteSpace(s)
    ensures Split(s) != []
  {
    var i :| 0 <= i < |s| && !IsWhiteSpace(s[i]);
    SplitNonEmpty(s, i);
  }

  /** Text is blank exactly when both of its parts are. */
  lemma BlankConcat(a: string, b: string)
    ensures IsNullOrWhiteSpace(a + b) <==> IsNullOrWhiteSpace(a) && IsNullOrWhiteSpace(b)
  {
    if IsNullOrWhiteSpace(a + b) {
      forall i | 0 <= i < |a| ensures IsWhiteSpace(a[i]) {
        assert a[i] == (a + b)[i];
      }
      forall i | 0 <= i < |b| ensures IsWhiteSpace(b[i]) {
        assert b[i] == (a + b)[|a| + i];
      }
    } else if IsNullOrWhiteSpace(a) {
      var i :| 0 <= i < |a + b| && !IsWhiteSpace((a + b)[i]);
      assert !IsWhiteSpace(b[i - |a|]);
    }
  }

  /** The command word and the amount, if one was given and parsed. */
  datatype Parsed = Parsed(command: string, amount: Option<real>)

  /** `CommandParser.Parse(input)`. */
  function Parse(input: string, toLower: string -> string, tryParse: string -> Option<real>): Parsed {
    if IsNullOrWhiteSpace(input) then Parsed("", None)
    else
      SplitNonBlank(input);
      var parts := Split(input);
      Parsed(toLower(parts[0]), if |parts| > 1 then tryParse(parts[1]) else None)
  }

  /** Blank input gives an empty command and no amount; otherwise the command
      is the first token lowercased, and the amount is the parse of the second
      token when there is one and nothing when there is not. */
  lemma ParseTokens(input: string, toLower: string -> string, tryParse: string -> Option<real>)
    ensures IsNullOrWhiteSpace(input) ==> Parse(input, toLower, tryParse) == Parsed("", None)
    ensures !IsNullOrWhiteSpace(input) ==>
      var ts := Split(input);
      |ts| >= 1 &&
      Parse(input, toLower, tryParse).command == toLower(ts[0]) &&
      (|ts| == 1 ==> Parse(input, toLower, tryParse).amount == None) &&
      (|ts| >= 2 ==> Parse(input, toLower, tryParse).amount == tryParse(ts[1]))
  {
  }

  /** An extra space anywhere in the input, including before or after it,
      does not change the parse. */
  lemma ParseIgnoresExtraSpaces(a: string, b: string, toLower: string -> string, tryParse: string -> Option<real>)
    ensures Parse(a + "  " + b, toLower, tryParse) == Parse(a + " " + b, toLower, tryParse)
    ensures Parse(" " + a, toLower, tryParse) == Parse(a, toLower, tryParse)
    ensures Parse(a + " ", toLower, tryParse) == Parse(a, toLower, tryParse)
  {
    assert a + "  " + b == a + " " + (" " + b);
    assert a + " " + b == a + (" " + b);
    assert a + "  " + b == a + ("  " + b);
    BlankConcat(a, " " + b);
    BlankConcat(a, "  " + b);
    BlankConcat(" ", b);
    BlankConcat("  ", b);
    assert "  " + b == " " + (" " + b);
    BlankConcat(" ", " " + b);
    SplitAroundSpace(a, b);
    SplitAroundSpace(a, " " + b);
    SplitAroundSpace("", b);
    SplitAroundSpace("", a);
    assert "" + " " + a == " " + a;
    BlankConcat(" ", a);
    SplitAroundSpace(a, "");
    BlankConcat(a, " ");
    assert a + " " + "" == a + " ";
    assert Split(a) + [] == Split(a);
  }

  /** Once a non-blank prefix has two tokens, anything after it is ignored. */
  lemma ParseIgnoresLaterTokens(a: string, b: string, toLower: string -> string, tryParse: string -> Option<real>)
    requires !IsNullOrWhiteSpace(a) && |Split(a)| >= 2
    ensures Parse(a + " " + b, toLower, tryParse) == Parse(a, toLower, tryParse)
  {
    assert a + " " + b == a + (" " + b);
    BlankConcat(a, " " + b);
    SplitAroundSpace(a, b);
  }

  /** A command word followed by an amount, as in "deposit 100": the word
      lowercased and the amount parsed. */
  lemma ParseCommandAmount(c: string, n: string, toLower: string -> string, tryParse: string -> Option<real>)
    requires IsToken(c) && IsToken(n) && !IsNullOrWhiteSpace(c)
    ensures Parse(c + " " + n, toLower, tryParse) == Parsed(toLower(c), tryParse(n))
    ensures Parse(c, toLower, tryParse) == Parsed(toLower(c), None)
  {
    BlankConcat(c, " " + n);
    assert c + " " + n == c + (" " + n);
    SplitToken(c, n);
    SplitSingle(n);
    SplitSingle(c);
  }

  /** Later tokens can matter when the first two consist of white space
      other than the space character: such a prefix is blank and parses to
      the empty command, but followed by a real word it parses to its first
      token, lowercased. */
  lemma ParseBlankTokens(t1: string, t2: string, x: string, toLower: string -> string, tryParse: string -> Option<real>)
    requires IsToken(t1) && IsToken(t2) && IsNullOrWhiteSpace(t1) && IsNullOrWhiteSpace(t2)
    requires !IsNullOrWhiteSpace(x)
    ensures Parse(t1 + " " + t2, toLower, tryParse) == Parsed("", None)
    ensures Parse(t1 + " " + t2 + " " + x, toLower, tryParse) == Parsed(toLower(t1), tryParse(t2))
  {
    BlankConcat(t1, " " + t2);
    BlankConcat(" ", t2);
    assert t1 + " " + t2 == t1 + (" " + t2);
    var y := t2 + " " + x;
    assert t1 + " " + t2 + " " + x == t1 + " " + y;
    BlankConcat(t1 + " " + t2, " " + x);
    BlankConcat(" ", x);
    assert t1 + " " + t2 + " " + x == (t1 + " " + t2) + (" " + x);
    SplitToken(t1, y);
    SplitToken(t2, x);
  }

  /** A tab is such a token. */
  lemma TabIsBlankToken()
    ensures IsToken("\t") && IsNullOrWhiteSpace("\t")
  {
  }
}
