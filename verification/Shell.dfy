/** Quoting argument vectors for sh, and how a POSIX shell takes the command
    line apart again. */
module Shell {
  import opened Options

  /** [A-Za-z0-9@%_+=:,./-] */
  predicate Safe(c: char) {
    'A' <= c <= 'Z' || 'a' <= c <= 'z' || '0' <= c <= '9' || c in "@%_+=:,./-"
  }

  predicate AllSafe(s: string) {
    forall i | 0 <= i < |s| :: Safe(s[i])
  }

  /** Every quote becomes: close, escaped quote, open. */
  function Escape(a: string): string {
    if a == "" then "" else (if a[0] == '\'' then "'\\''" else [a[0]]) + Escape(a[1..])
  }

  function QuoteArg(a: string): string {
    if a != "" && AllSafe(a) then a else "'" + Escape(a) + "'"
  }

  /** strings.Join with a blank. */
  function Joined(words: seq<string>): string {
    if words == [] then "" else if |words| == 1 then words[0] else words[0] + " " + Joined(words[1..])
  }

  function Quoted(argv: seq<string>): seq<string> {
    seq(|argv|, i requires 0 <= i < |argv| => QuoteArg(argv[i]))
  }

  method ShellJoin(argv: seq<string>) returns (s: string)
    ensures s == Joined(Quoted(argv))
    ensures Tokens(s, None, false) == Some(argv)
  {
    hide Tokens, QuoteArg, Joined;
    var q := new string[|argv|];
    for i := 0 to |argv|
      invariant forall k | 0 <= k < i :: q[k] == QuoteArg(argv[k])
    {
      q[i] := QuoteArg(argv[i]);
    }
    assert q[..] == Quoted(argv);
    s := Joined(q[..]);
    QuotingRoundTrip(argv);
  }

  /** The words of a simple command: token recognition by blanks, single quotes,
      backslash, and quote removal (sections 2.2.1, 2.2.2 and 2.3 of the Shell
      Command Language, POSIX.1-2017). `cur` is the word begun so far. Unquoted
      characters that a shell would act on are not words: the result is None. */
  function Tokens(s: string, cur: Option<string>, inQuotes: bool): Option<seq<string>>
    decreases |s|
  {
    var w := if cur.Some? then cur.value else "";
    if s == "" then
      if inQuotes then None else if cur.Some? then Some([w]) else Some([])
    else if inQuotes then
      if s[0] == '\'' then Tokens(s[1..], Some(w), false) else Tokens(s[1..], Some(w + [s[0]]), true)
    else if s[0] == '\'' then Tokens(s[1..], Some(w), true)
    else if s[0] == '\\' then
      if |s| == 1 then None
      else if s[1] == '\n' then Tokens(s[2..], cur, false)
      else Tokens(s[2..], Some(w + [s[1]]), false)
    else if s[0] == ' ' || s[0] == '\t' then
      match Tokens(s[1..], None, false)
      case None => None
      case Some(more) => Some((if cur.Some? then [w] else []) + more)
    else if Safe(s[0]) then Tokens(s[1..], Some(w + [s[0]]), false)
    else None
  }

  lemma {:induction false} SafeTokens(a: string, w: string, rest: string)
    requires AllSafe(a)
    ensures Tokens(a + rest, Some(w), false) == Tokens(rest, Some(w + a), false)
  {
    if a == "" {
      assert a + rest == rest && w + a == w;
    } else {
      assert (a + rest)[1..] == a[1..] + rest;
      assert Safe((a + rest)[0]);
      SafeTokens(a[1..], w + [a[0]], rest);
      assert w + [a[0]] + a[1..] == w + a;
    }
  }

  lemma {:induction false} EscapedTokens(a: string, w: string, rest: string)
    ensures Tokens(Escape(a) + "'" + rest, Some(w), true) == Tokens(rest, Some(w + a), false)
  {
    var s := Escape(a) + "'" + rest;
    if a == "" {
      assert s[1..] == rest && w + a == w;
    } else {
      var tail := Escape(a[1..]) + "'" + rest;
      EscapedTokens(a[1..], w + [a[0]], rest);
      assert w + [a[0]] + a[1..] == w + a;
      if a[0] == '\'' {
        assert s == "'\\''" + tail;
        EscapedQuote(w, tail);
      } else {
        assert s == [a[0]] + tail;
        assert s[1..] == tail;
      }
    }
  }

  /** Close, escaped quote, open: one quote more in the word. */
  lemma EscapedQuote(w: string, tail: string)
    ensures Tokens("'\\''" + tail, Some(w), true) == Tokens(tail, Some(w + "'"), true)
  {
    var s0 := "'\\''" + tail;
    var s1 := "\\''" + tail;
    var s3 := "'" + tail;
    assert s0[1..] == s1 && s1[2..] == s3 && s3[1..] == tail;
    assert Tokens(s0, Some(w), true) == Tokens(s1, Some(w), false);
    assert Tokens(s1, Some(w), false) == Tokens(s3, Some(w + "'"), false);
  }

  lemma PlainArg(a: string, rest: string)
    requires a != "" && AllSafe(a)
    ensures Tokens(a + rest, None, false) == Tokens(rest, Some(a), false)
  {
    hide Tokens, Safe;
    var s := a + rest;
    assert Safe(s[0]);
    TokensPlain(s, None);
    assert AllSafe(a[1..]);
    SafeTokens(a[1..], [a[0]], rest);
    assert s[1..] == a[1..] + rest && [a[0]] + a[1..] == a;
    assert "" + [s[0]] == [a[0]];
  }

  lemma TokensPlain(s: string, cur: Option<string>)
    requires s != "" && Safe(s[0])
    ensures Tokens(s, cur, false) == Tokens(s[1..], Some((if cur.Some? then cur.value else "") + [s[0]]), false)
  {
  }

  lemma EscapedArg(a: string, rest: string)
    ensures Tokens("'" + Escape(a) + "'" + rest, None, false) == Tokens(rest, Some(a), false)
  {
    var s := "'" + Escape(a) + "'" + rest;
    assert s[1..] == Escape(a) + "'" + rest;
    TokensOpen(s);
    hide Tokens;
    EscapedTokens(a, "", rest);
    assert "" + a == a;
  }

  lemma TokensOpen(s: string)
    requires s != "" && s[0] == '\''
    ensures Tokens(s, None, false) == Tokens(s[1..], Some(""), true)
  {
  }

  /** A quoted argument is one word, the argument. */
  lemma ArgTokens(a: string, rest: string)
    ensures Tokens(QuoteArg(a) + rest, None, false) == Tokens(rest, Some(a), false)
  {
    hide Tokens;
    if a != "" && AllSafe(a) {
      PlainArg(a, rest);
    } else {
      EscapedArg(a, rest);
    }
  }

  /** Whatever the arguments hold, the shell sees exactly them. */
  lemma {:induction false} QuotingRoundTrip(argv: seq<string>)
    ensures Tokens(Joined(Quoted(argv)), None, false) == Some(argv)
  {
    hide QuoteArg;
    if argv != [] {
      var q := Quoted(argv);
      assert Quoted(argv[1..]) == q[1..];
      if |argv| == 1 {
        ArgTokens(argv[0], "");
        assert q[0] + "" == q[0] && [argv[0]] == argv;
      } else {
        var more := Joined(q[1..]);
        QuotingRoundTrip(argv[1..]);
        ArgTokens(argv[0], " " + more);
        assert q[0] + (" " + more) == q[0] + " " + more;
        assert (" " + more)[1..] == more;
        assert [argv[0]] + argv[1..] == argv;
      }
    }
  }

  /** Different argument vectors never print the same. */
  lemma QuotingInjective(argv: seq<string>, argv': seq<string>)
    requires Joined(Quoted(argv)) == Joined(Quoted(argv'))
    ensures argv == argv'
  {
    QuotingRoundTrip(argv);
    QuotingRoundTrip(argv');
  }
}
