/** `_normalize_line_endings` of maubot/lib/zipimport.py. */
module LineEndings {
  import opened ByteCodec

  const CR: byte := 13
  const LF: byte := 10

  /** `source.replace(b"\r\n", b"\n")` */
  function ReplaceCrLf(s: Bytes): Bytes {
    if s == [] then []
    else if |s| >= 2 && s[0] == CR && s[1] == LF then [LF] + ReplaceCrLf(s[2..])
    else [s[0]] + ReplaceCrLf(s[1..])
  }

  /** `source.replace(b"\r", b"\n")` */
  function ReplaceCr(s: Bytes): Bytes {
    if s == [] then []
    else [if s[0] == CR then LF else s[0]] + ReplaceCr(s[1..])
  }

  function Normalize(s: Bytes): Bytes {
    ReplaceCr(ReplaceCrLf(s))
  }

  /** One pass: a CR (13), with the LF (10) after it if there is one, becomes an LF. */
  function OnePass(s: Bytes): Bytes {
    if s == [] then []
    else if s[0] == 13 then
      [10] + OnePass(if |s| >= 2 && s[1] == 10 then s[2..] else s[1..])
    else [s[0]] + OnePass(s[1..])
  }

  lemma {:induction false} TwoReplacesAreOnePass(s: Bytes)
    ensures Normalize(s) == OnePass(s)
  {
    if s != [] {
      var crlf := |s| >= 2 && s[0] == CR && s[1] == LF;
      var rest := if crlf then s[2..] else s[1..];
      var head := if crlf then LF else s[0];
      assert ReplaceCrLf(s) == [head] + ReplaceCrLf(rest);
      assert ([head] + ReplaceCrLf(rest))[1..] == ReplaceCrLf(rest);
      TwoReplacesAreOnePass(rest);
    }
  }

  lemma {:induction false} CrFreeIsFixed(s: Bytes)
    requires CR !in s
    ensures OnePass(s) == s
  {
    if s != [] {
      CrFreeIsFixed(s[1..]);
      assert s == [s[0]] + s[1..];
    }
  }

  lemma {:induction false} OnePassRemovesCr(s: Bytes)
    ensures CR !in OnePass(s)
  {
    if s != [] {
      OnePassRemovesCr(s[1..]);
      if |s| >= 2 {
        OnePassRemovesCr(s[2..]);
      }
    }
  }

  /** The result has no CR, equals the single pass, and normalising again changes nothing. */
  lemma {:induction false} Normalization(s: Bytes)
    ensures Normalize(s) == OnePass(s)
    ensures CR !in Normalize(s)
    ensures Normalize(Normalize(s)) == Normalize(s)
  {
    TwoReplacesAreOnePass(s);
    OnePassRemovesCr(s);
    TwoReplacesAreOnePass(OnePass(s));
    CrFreeIsFixed(OnePass(s));
  }
}
