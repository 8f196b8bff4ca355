/**
 * Python's `shlex.quote`, and, as its partner, the quote removal a POSIX
 * shell applies to one word made of plain characters, single-quoted spans
 * and double-quoted spans.
 */
module Shlex {
  import opened Wrappers

  /** The characters `shlex.quote` leaves bare: ASCII `\w` and `@%+=:,./-`. */
  predicate IsSafe(c: char)
  {
    ('a' <= c <= 'z') || ('A' <= c <= 'Z') || ('0' <= c <= '9') || c in "_@%+=:,./-"
  }

  predicate AllSafe(s: string)
  {
    forall i :: 0 <= i < |s| ==> IsSafe(s[i])
  }

  /** `s.replace("'", "'\"'\"'")`: every single quote closes the span, is emitted double-quoted, and reopens it. */
  function EscapeSingleQuotes(s: string): string
    decreases |s|
  {
    if s == [] then []
    else (if s[0] == '\'' then "'\"'\"'" else [s[0]]) + EscapeSingleQuotes(s[1..])
  }

  /** `shlex.quote(s)`. */
  function Quote(s: string): string
  {
    if s == [] then "''"
    else if AllSafe(s) then s
    else "'" + EscapeSingleQuotes(s) + "'"
  }

  /** The index of the first `c` in `s`, or `|s|` when there is none. */
  function IndexOf(s: string, c: char): (k: nat)
    ensures k <= |s|
    ensures k < |s| ==> s[k] == c
    ensures forall j :: 0 <= j < k ==> s[j] != c
    decreases |s|
  {
    if s == [] then 0
    else if s[0] == c then 0
    else
      var k := IndexOf(s[1..], c);
      assert forall j :: 1 <= j < k + 1 ==> s[j] == s[1..][j - 1];
      k + 1
  }

  /** Characters a shell still interprets inside double quotes. */
  predicate ActiveInDoubleQuotes(c: char)
  {
    c == '\\' || c == '$' || c == '`'
  }

  /** `s` holds a character a shell still interprets inside double quotes. */
  predicate HasActive(s: string)
  {
    exists j :: 0 <= j < |s| && ActiveInDoubleQuotes(s[j])
  }

  /** `s` in front of the text `r` holds, if there is one. */
  function Prepend(s: string, r: Option<string>): Option<string>
  {
    match r
    case None => None
    case Some(t) => Some(s + t)
  }

  /**
   * The argument a POSIX shell passes for the word `w`, after quote removal.
   * `None` for a word outside the subset handled here: an unterminated quote,
   * an unquoted character other than a safe one, or a double-quoted span
   * that would need expansion.
   */
  function ShellWord(w: string): (r: Option<string>)
    decreases |w|
  {
    if w == [] then Some([])
    else if w[0] == '\'' || w[0] == '"' then
      var k := IndexOf(w[1..], w[0]);
      if k == |w| - 1 || (w[0] == '"' && HasActive(w[1..k + 1])) then None
      else Prepend(w[1..k + 1], ShellWord(w[k + 2..]))
    else if IsSafe(w[0]) then Prepend([w[0]], ShellWord(w[1..]))
    else None
  }

  /** A word of safe characters is its own argument. */
  lemma {:induction false} SafeWordIsLiteral(s: string)
    requires AllSafe(s)
    ensures ShellWord(s) == Some(s)
    decreases |s|
  {
    if s != [] {
      assert AllSafe(s[1..]) by {
        forall i | 0 <= i < |s[1..]| ensures IsSafe(s[1..][i]) {
          assert s[1..][i] == s[i + 1];
        }
      }
      SafeWordIsLiteral(s[1..]);
      assert [s[0]] + s[1..] == s;
    }
  }

  /** Escaping distributes over concatenation. */
  lemma {:induction false} EscapeAppend(a: string, b: string)
    ensures EscapeSingleQuotes(a + b) == EscapeSingleQuotes(a) + EscapeSingleQuotes(b)
    decreases |a|
  {
    if a == [] {
      assert a + b == b;
    } else {
      assert (a + b)[0] == a[0];
      assert (a + b)[1..] == a[1..] + b;
      EscapeAppend(a[1..], b);
    }
  }

  /** Text without single quotes is not changed by escaping. */
  lemma {:induction false} EscapeNoQuotes(p: string)
    requires forall j :: 0 <= j < |p| ==> p[j] != '\''
    ensures EscapeSingleQuotes(p) == p
    decreases |p|
  {
    if p != [] {
      assert forall j :: 0 <= j < |p[1..]| ==> p[1..][j] == p[j + 1];
      EscapeNoQuotes(p[1..]);
      assert [p[0]] + p[1..] == p;
    }
  }

  /** A single-quoted span without quotes in it contributes its text verbatim. */
  lemma SingleQuotedSpan(p: string, rest: string)
    requires forall j :: 0 <= j < |p| ==> p[j] != '\''
    requires ShellWord(rest).Some?
    ensures ShellWord("'" + p + "'" + rest) == Some(p + ShellWord(rest).value)
  {
    var w := "'" + p + "'" + rest;
    assert w[0] == '\'';
    assert IndexOf(w[1..], '\'') == |p| by {
      assert w[1..][|p|] == '\'';
      assert forall j :: 0 <= j < |p| ==> w[1..][j] == p[j];
    }
    assert w[1..|p| + 1] == p;
    assert w[|p| + 2..] == rest;
    assert ShellWord(w) == Prepend(p, ShellWord(rest));
  }

  /** A double-quoted single quote contributes one single quote. */
  lemma DoubleQuotedQuote(rest: string)
    requires ShellWord(rest).Some?
    ensures ShellWord("\"'\"" + rest) == Some("'" + ShellWord(rest).value)
  {
    var w := "\"'\"" + rest;
    assert IndexOf(w[1..], '"') == 1 by {
      assert w[1..][1] == '"' && w[1..][0] == '\'';
    }
    assert w[1..2] == "'";
    assert !HasActive(w[1..2]);
    assert w[3..] == rest;
    assert ShellWord(w) == Prepend("'", ShellWord(rest));
  }

  /** Proof step: a single quote escapes to close, double-quoted quote, reopen. */
  lemma EscapeQuote()
    ensures EscapeSingleQuotes("'") == "'" + "\"'\"" + "'"
  {
    assert "'"[1..] == [];
  }

  /** Text without single quotes comes back from single quotes unchanged. */
  lemma QuotedPlainRoundTrip(s: string)
    requires forall j :: 0 <= j < |s| ==> s[j] != '\''
    ensures ShellWord("'" + EscapeSingleQuotes(s) + "'") == Some(s)
  {
    EscapeNoQuotes(s);
    var e: string := [];
    assert ShellWord(e) == Some(e);
    SingleQuotedSpan(s, e);
    assert s + ShellWord(e).value == s;
    assert "'" + s + "'" + e == "'" + s + "'";
  }

  /** Proof step: concatenation regroups. */
  lemma Regroup(a: string, b: string, c: string)
    ensures (a + b) + c == a + (b + c)
  {
  }

  /** The escaped form of a quote-free `p`, a single quote, and `q`, laid out piece by piece. */
  lemma EscapeSplit(p: string, q: string)
    requires forall j :: 0 <= j < |p| ==> p[j] != '\''
    ensures "'" + EscapeSingleQuotes(p + ("'" + q)) + "'"
         == "'" + p + "'" + ("\"'\"" + ("'" + EscapeSingleQuotes(q) + "'"))
  {
    EscapeNoQuotes(p);
    EscapeAppend(p, "'" + q);
    EscapeAppend("'", q);
    EscapeQuote();
    var d, eq := "\"'\"", EscapeSingleQuotes(q);
    var y := "'" + d + "'";
    var z := eq + "'";
    var tail := "'" + (d + ("'" + z));
    assert EscapeSingleQuotes(p + ("'" + q)) == p + (y + eq);
    // The left side, regrouped to the right.
    Regroup("'", p + (y + eq), "'");
    Regroup(p, y + eq, "'");
    Regroup(y, eq, "'");
    Regroup("'", d, "'");
    Regroup("'", d + "'", z);
    Regroup(d, "'", z);
    assert y + z == tail;
    assert "'" + EscapeSingleQuotes(p + ("'" + q)) + "'" == "'" + (p + tail);
    // The right side, likewise.
    Regroup("'", eq, "'");
    Regroup("'" + p, "'", d + ("'" + z));
    Regroup("'", p, tail);
    assert "'" + p + "'" + (d + ("'" + eq + "'")) == "'" + (p + tail);
  }

  /** If quoting `q` round-trips, so does quoting a quote-free `p`, a single quote, and `q`. */
  lemma QuotedSplitRoundTrip(p: string, q: string)
    requires forall j :: 0 <= j < |p| ==> p[j] != '\''
    requires ShellWord("'" + EscapeSingleQuotes(q) + "'") == Some(q)
    ensures ShellWord("'" + EscapeSingleQuotes(p + ("'" + q)) + "'") == Some(p + ("'" + q))
  {
    var r2 := "'" + EscapeSingleQuotes(q) + "'";
    EscapeSplit(p, q);
    DoubleQuotedQuote(r2);
    SingleQuotedSpan(p, "\"'\"" + r2);
  }

  /** The shell turns `'` + the escaped `s` + `'` back into `s`. */
  lemma {:induction false} SingleQuotedRoundTrip(s: string)
    ensures ShellWord("'" + EscapeSingleQuotes(s) + "'") == Some(s)
    decreases |s|
  {
    var i := IndexOf(s, '\'');
    if i == |s| {
      QuotedPlainRoundTrip(s);
    } else {
      var p, q := s[..i], s[i + 1..];
      assert s == p + ("'" + q);
      SingleQuotedRoundTrip(q);
      QuotedSplitRoundTrip(p, q);
    }
  }

  /** What the shell does with `shlex.quote(s)` is exactly `s`: quoting is undone by quote removal. */
  lemma QuoteRoundTrip(s: string)
    ensures ShellWord(Quote(s)) == Some(s)
  {
    if s == [] {
      assert ShellWord(s) == Some(s);
      SingleQuotedSpan(s, s);
      assert s + ShellWord(s).value == s;
      assert "'" + s + "'" + s == Quote(s);
    } else if AllSafe(s) {
      SafeWordIsLiteral(s);
    } else {
      SingleQuotedRoundTrip(s);
    }
  }

  /**
   * Quoting changes exactly the strings that are empty or hold an unsafe
   * character; each of those comes back wrapped in single quotes.
   */
  lemma QuoteChanges(s: string)
    ensures Quote(s) == s <==> s != [] && AllSafe(s)
    ensures Quote(s) != s ==> |Quote(s)| >= 2 && Quote(s)[0] == '\'' && Quote(s)[|Quote(s)| - 1] == '\''
  {
    if s != [] && !AllSafe(s) {
      var e := EscapeSingleQuotes(s);
      assert |Quote(s)| == |e| + 2;
      assert Quote(s) != s by {
        if Quote(s) == s {
          EscapeLength(s);
        }
      }
    }
  }

  /** Escaping never shortens the text. */
  lemma {:induction false} EscapeLength(s: string)
    ensures |EscapeSingleQuotes(s)| >= |s|
    decreases |s|
  {
    if s != [] {
      EscapeLength(s[1..]);
    }
  }
}
