/**
 * Line structure of HTTP/1.1 message text. Every line of a request head ends
 * with CR LF, and an empty line (two CR LF in a row) ends the head
 * (RFC 7230, section 3).
 */
module Text {

  const CRLF: string := "\r\n"
  const BlankLine: string := "\r\n\r\n"

  /** No carriage return occurs in s, so s cannot end a line or the head early. */
  predicate NoCr(s: string)
  {
    forall i :: 0 <= i < |s| ==> s[i] != '\r'
  }

  lemma NoCrAppend(a: string, b: string)
    ensures NoCr(a + b) <==> NoCr(a) && NoCr(b)
  {
    if NoCr(a) && NoCr(b) {
      forall i | 0 <= i < |a + b| ensures (a + b)[i] != '\r' {
        if i >= |a| {
          assert (a + b)[i] == b[i - |a|];
        }
      }
    }
    if NoCr(a + b) {
      forall i | 0 <= i < |a| ensures a[i] != '\r' {
        assert (a + b)[i] == a[i];
      }
      forall i | 0 <= i < |b| ensures b[i] != '\r' {
        assert (a + b)[|a| + i] == b[i];
      }
    }
  }

  /** The lines of s: the pieces between CR LF pairs, as Python's s.split("\r\n"). */
  function SplitLines(s: string): (lines: seq<string>)
    ensures |lines| >= 1
    decreases |s|
  {
    if |s| == 0 then [""]
    else if |s| >= 2 && s[0] == '\r' && s[1] == '\n' then [""] + SplitLines(s[2..])
    else
      var rest := SplitLines(s[1..]);
      [[s[0]] + rest[0]] + rest[1..]
  }

  /** The text whose lines are `lines`: the lines joined with CR LF between them. */
  function JoinLines(lines: seq<string>): string
  {
    if |lines| == 0 then ""
    else if |lines| == 1 then lines[0]
    else lines[0] + CRLF + JoinLines(lines[1..])
  }

  /** Splitting loses nothing: joining the lines of s gives s back. */
  lemma {:induction false} JoinSplitLines(s: string)
    ensures JoinLines(SplitLines(s)) == s
    decreases |s|
  {
    if |s| == 0 {
    } else if |s| >= 2 && s[0] == '\r' && s[1] == '\n' {
      var rest := SplitLines(s[2..]);
      JoinSplitLines(s[2..]);
      var lines := [""] + rest;
      assert SplitLines(s) == lines;
      assert lines[1..] == rest;
      assert JoinLines(lines) == "" + CRLF + JoinLines(rest);
      assert s == CRLF + s[2..];
    } else {
      var rest := SplitLines(s[1..]);
      JoinSplitLines(s[1..]);
      var lines := [[s[0]] + rest[0]] + rest[1..];
      assert SplitLines(s) == lines;
      JoinConsLine(rest, [s[0]]);
      assert s == [s[0]] + s[1..];
    }
  }

  /** Prefixing the first line with p prefixes the joined text with p. */
  lemma {:induction false} JoinConsLine(lines: seq<string>, p: string)
    requires |lines| >= 1
    ensures JoinLines([p + lines[0]] + lines[1..]) == p + JoinLines(lines)
  {
    var l := [p + lines[0]] + lines[1..];
    if |lines| > 1 {
      assert l[0] == p + lines[0] && l[1..] == lines[1..];
      var j := JoinLines(lines[1..]);
      assert JoinLines(l) == (p + lines[0]) + CRLF + j;
      assert JoinLines(lines) == lines[0] + CRLF + j;
      assert (p + lines[0]) + CRLF + j == p + (lines[0] + CRLF + j);
    } else {
      assert l == [p + lines[0]];
    }
  }

  /** A first line without CR is split off whole, whatever follows it. */
  lemma {:induction false} SplitLinesAfterNoCr(a: string, t: string)
    requires NoCr(a)
    ensures SplitLines(a + t) == [a + SplitLines(t)[0]] + SplitLines(t)[1..]
    decreases |a|
  {
    if |a| > 0 {
      assert a[0] != '\r';
      assert (a + t)[0] == a[0];
      assert (a + t)[1..] == a[1..] + t;
      SplitLinesAfterNoCr(a[1..], t);
      assert [a[0]] + (a[1..] + SplitLines(t)[0]) == a + SplitLines(t)[0];
    } else {
      var ls := SplitLines(t);
      assert a + t == t;
      assert a + ls[0] == ls[0];
      assert ls == [ls[0]] + ls[1..];
    }
  }

  /** Joining lines that hold no CR and splitting again gives the same lines. */
  lemma {:induction false} SplitJoinLines(lines: seq<string>)
    requires |lines| >= 1
    requires forall k :: 0 <= k < |lines| ==> NoCr(lines[k])
    ensures SplitLines(JoinLines(lines)) == lines
  {
    if |lines| == 1 {
      SplitLinesAfterNoCr(lines[0], "");
      assert lines[0] + "" == lines[0];
    } else {
      var tail := lines[1..];
      SplitJoinLines(tail);
      var t := CRLF + JoinLines(tail);
      assert t[0] == '\r' && t[1] == '\n' && t[2..] == JoinLines(tail);
      assert SplitLines(t) == [""] + tail;
      SplitLinesAfterNoCr(lines[0], t);
      assert lines[0] + t == JoinLines(lines);
      assert lines[0] + "" == lines[0];
      assert [lines[0]] + tail == lines;
    }
  }

  /** An empty line ends at position i of s: s holds CR LF CR LF at i. */
  predicate BlankLineAt(s: string, i: int)
  {
    0 <= i && i + 4 <= |s| && s[i..i + 4] == BlankLine
  }

  /**
   * In a line a that holds no CR followed by CR LF and more text b, the only
   * CR LF CR LF is either the one that starts right after a (when b begins
   * with CR LF) or one inside b.
   */
  lemma BlankLineAfterLine(a: string, b: string, i: int)
    requires NoCr(a)
    requires BlankLineAt(a + CRLF + b, i)
    ensures (i == |a| && |b| >= 2 && b[..2] == CRLF)
         || (i >= |a| + 2 && BlankLineAt(b, i - |a| - 2))
  {
    var s := a + CRLF + b;
    assert s[i] == s[i..i + 4][0] == '\r';
    assert forall k :: 0 <= k < |a| ==> s[k] == a[k];
    assert s[|a| + 1] == '\n';
    if i == |a| {
      assert b[..2] == s[i + 2..i + 4];
    } else {
      assert s[i..i + 4] == b[i - |a| - 2..i - |a| + 2];
    }
  }
}
