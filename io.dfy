/** The line buffer of the console front end (IO.cs:5-26): lines are
    collected until one of them brings an `=`; the text before the last `=`
    is then the expression, and the buffer is emptied. */
module InputIO {
  import opened Results

  /** string.LastIndexOf for one character: the last position holding `c`,
      or -1 when there is none. */
  function LastIndexOf(s: string, c: char): (r: int)
    ensures -1 <= r < |s|
    ensures r >= 0 ==> s[r] == c && c !in s[r + 1..]
    ensures r == -1 <==> c !in s
  {
    if s == [] then -1
    else if s[|s| - 1] == c then |s| - 1
    else
      var r := LastIndexOf(s[..|s| - 1], c);
      assert s == s[..|s| - 1] + [s[|s| - 1]];
      assert r >= 0 ==> s[r + 1..] == s[..|s| - 1][r + 1..] + [s[|s| - 1]];
      r
  }

  class InputBuffer {
    /** The text collected since the last complete expression. */
    var buf: string

    constructor ()
      ensures buf == []
    {
      buf := [];
    }

    /** InputBuffer.Accept (IO.cs:9-23). A missing line (end of input)
        changes nothing. Otherwise the line is appended; when the collected
        text holds an `=`, the text before the last one is returned and the
        buffer emptied, and the rest after that `=` is dropped. */
    method Accept(line: Option<string>) returns (ready: bool, expr: string)
      modifies this
      ensures line.None? ==> !ready && expr == [] && buf == old(buf)
      ensures line.Some? ==>
        var s := old(buf) + line.value;
        && (ready <==> '=' in s)
        && (ready ==> |expr| < |s| && s[|expr|] == '=' && s[..|expr|] == expr && '=' !in s[|expr| + 1..])
        && (ready ==> buf == [])
        && (!ready ==> expr == [] && buf == s)
    {
      if line.None? {
        return false, [];
      }
      buf := buf + line.value;
      var s := buf;
      var idx := LastIndexOf(s, '=');
      if idx >= 0 {
        expr := s[..idx];
        buf := [];
        return true, expr;
      }
      return false, [];
    }

    /** InputBuffer.Clear (IO.cs:25). */
    method Clear()
      modifies this
      ensures buf == []
    {
      buf := [];
    }
  }

  /** An expression can be spread over several lines: the first two lines
      below are held, the third completes the expression, and its text after
      the `=` is dropped. */
  method ThreeLines() returns (expr: string)
    ensures expr == "1+2*3"
  {
    var b := new InputBuffer();
    var ready, e := b.Accept(Some("1+"));
    assert !ready && b.buf == "1+";
    ready, e := b.Accept(Some("2*"));
    assert !ready && b.buf == "1+2*";
    ready, e := b.Accept(Some("3=4"));
    var s := "1+2*3=4";
    assert '=' in s by { assert s[5] == '='; }
    assert ready;
    assert '=' !in s[6..] by { assert s[6..] == "4"; }
    assert |e| == 5;
    expr := e;
  }
}
