/** Text helpers the client uses implicitly: an integer interpolated into a
    string (`"$key: $value"`, `errno . ' : '`), `substr` at a byte offset,
    and `explode("\r\n", ...)` of a response header block. */
module Text {

  predicate IsDigit(c: char) {
    '0' <= c <= '9'
  }

  function DigitChar(d: nat): (c: char)
    requires d < 10
    ensures IsDigit(c) && c as int - '0' as int == d
  {
    (d + '0' as int) as char
  }

  /** The decimal text PHP prints for a non-negative integer. */
  function NatToString(n: nat): (s: string)
    ensures |s| >= 1
    ensures forall i :: 0 <= i < |s| ==> IsDigit(s[i])
    ensures s[0] == '0' ==> n == 0
  {
    if n < 10 then [DigitChar(n)] else NatToString(n / 10) + [DigitChar(n % 10)]
  }

  function DigitValue(c: char): nat
    requires IsDigit(c)
  {
    c as int - '0' as int
  }

  /** Reads a string of decimal digits back as a number. */
  function ParseNat(s: string): nat
    requires forall i :: 0 <= i < |s| ==> IsDigit(s[i])
  {
    if |s| == 0 then 0 else ParseNat(s[..|s| - 1]) * 10 + DigitValue(s[|s| - 1])
  }

  /** The decimal text of `n` reads back as `n`: a `Content-Length` header
      value carries exactly the length it was made from. */
  lemma {:induction false} ParseNatToString(n: nat)
    ensures ParseNat(NatToString(n)) == n
  {
    if n >= 10 {
      var s := NatToString(n);
      assert s[..|s| - 1] == NatToString(n / 10);
      ParseNatToString(n / 10);
    }
  }

  /** `substr($s, 0, $n)` and `substr($s, $n)` for a non-negative offset:
      an offset beyond the end takes the whole string as head. */
  function SplitAt(s: string, n: nat): (parts: (string, string))
    ensures parts.0 + parts.1 == s
    ensures |parts.0| == if n <= |s| then n else |s|
  {
    if n <= |s| then (s[..n], s[n..]) else (s, [])
  }

  predicate IsCrlfAt(s: string, i: int) {
    0 <= i && i + 1 < |s| && s[i] == '\r' && s[i + 1] == '\n'
  }

  predicate HasCrlf(s: string) {
    exists i :: 0 <= i < |s| && IsCrlfAt(s, i)
  }

  /** `explode("\r\n", $s)`: the pieces between successive CRLFs, scanning
      from the left; there is always at least one piece. */
  function SplitCrlf(s: string): (pieces: seq<string>)
    ensures |pieces| >= 1
    ensures pieces[0] <= s
    decreases |s|
  {
    if |s| < 2 then [s]
    else if s[0] == '\r' && s[1] == '\n' then [""] + SplitCrlf(s[2..])
    else
      var rest := SplitCrlf(s[1..]);
      [[s[0]] + rest[0]] + rest[1..]
  }

  /** `implode("\r\n", $pieces)`. */
  function JoinCrlf(pieces: seq<string>): string
    requires |pieces| >= 1
  {
    if |pieces| == 1 then pieces[0] else pieces[0] + "\r\n" + JoinCrlf(pieces[1..])
  }

  /** Prefixing a character to the first piece prefixes it to the join. */
  lemma JoinCrlfConsFirst(c: char, pieces: seq<string>)
    requires |pieces| >= 1
    ensures JoinCrlf([[c] + pieces[0]] + pieces[1..]) == [c] + JoinCrlf(pieces)
  {
  }

  /** Splitting loses nothing: joining the pieces gives back the block. */
  lemma {:induction false} JoinSplitCrlf(s: string)
    ensures JoinCrlf(SplitCrlf(s)) == s
    decreases |s|
  {
    if |s| < 2 {
    } else if s[0] == '\r' && s[1] == '\n' {
      var tail := s[2..];
      JoinSplitCrlf(tail);
      var pieces := [""] + SplitCrlf(tail);
      assert SplitCrlf(s) == pieces;
      assert pieces[1..] == SplitCrlf(tail);
      assert s == "" + "\r\n" + tail;
    } else {
      var tail := s[1..];
      JoinSplitCrlf(tail);
      JoinCrlfConsFirst(s[0], SplitCrlf(tail));
      assert [s[0]] + tail == s;
    }
  }

  /** No piece contains a CRLF: every separator has been cut. */
  lemma {:induction false} SplitCrlfPiecesClean(s: string)
    ensures forall k :: 0 <= k < |SplitCrlf(s)| ==> !HasCrlf(SplitCrlf(s)[k])
    decreases |s|
  {
    var pieces := SplitCrlf(s);
    if |s| < 2 {
      assert pieces == [s];
    } else if s[0] == '\r' && s[1] == '\n' {
      SplitCrlfPiecesClean(s[2..]);
      var rest := SplitCrlf(s[2..]);
      assert pieces == [""] + rest;
      forall k | 1 <= k < |pieces|
        ensures !HasCrlf(pieces[k])
      {
        assert pieces[k] == rest[k - 1];
      }
    } else {
      SplitCrlfPiecesClean(s[1..]);
      var rest := SplitCrlf(s[1..]);
      var head := [s[0]] + rest[0];
      assert pieces == [head] + rest[1..];
      assert !HasCrlf(rest[0]);
      forall i | 0 <= i < |head|
        ensures !IsCrlfAt(head, i)
      {
        if i == 0 {
          if |head| >= 2 {
            // the head starts with s[0], s[1]: that pair is not a CRLF
            assert rest[0] <= s[1..];
            assert head[1] == rest[0][0] == s[1];
          }
        } else {
          assert !IsCrlfAt(rest[0], i - 1);
        }
      }
      forall k | 1 <= k < |pieces|
        ensures !HasCrlf(pieces[k])
      {
        assert pieces[k] == rest[k];
      }
    }
  }
}
