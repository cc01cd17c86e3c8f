/** The string operations the sources rely on: trimming, single-character
    replacement and byte order. Strings are sequences of code points; UTF-8 byte
    order and code point order coincide. */
module Text {

  /** The white space that Go's strings.TrimSpace removes. */
  predicate IsSpace(c: char) {
    || c == ' ' || '\t' <= c <= '\r' || c == '\U{85}' || c == '\U{A0}' || c == '\U{1680}'
    || '\U{2000}' <= c <= '\U{200A}' || c == '\U{2028}' || c == '\U{2029}'
    || c == '\U{202F}' || c == '\U{205F}' || c == '\U{3000}'
  }

  /** The string without leading and trailing white space. */
  function TrimSpace(s: string): string
    decreases |s|
  {
    if s == "" then ""
    else if IsSpace(s[0]) then TrimSpace(s[1..])
    else if IsSpace(s[|s| - 1]) then TrimSpace(s[..|s| - 1])
    else s
  }

  predicate Blank(s: string) {
    TrimSpace(s) == ""
  }

  predicate Trimmed(s: string) {
    TrimSpace(s) == s
  }

  lemma {:induction false} TrimSpaceIsTrimmed(s: string)
    ensures Trimmed(TrimSpace(s))
    decreases |s|
  {
    if s != "" {
      if IsSpace(s[0]) {
        TrimSpaceIsTrimmed(s[1..]);
      } else if IsSpace(s[|s| - 1]) {
        TrimSpaceIsTrimmed(s[..|s| - 1]);
      }
    }
  }

  /** Trimming cuts nothing but white space off the two ends, and all of it. */
  lemma {:induction false} TrimSpaceExact(s: string) returns (head: string, tail: string)
    ensures s == head + TrimSpace(s) + tail
    ensures forall c <- head + tail :: IsSpace(c)
    ensures TrimSpace(s) != "" ==> !IsSpace(TrimSpace(s)[0]) && !IsSpace(TrimSpace(s)[|TrimSpace(s)| - 1])
    decreases |s|
  {
    head, tail := "", "";
    if s != "" {
      if IsSpace(s[0]) {
        head, tail := TrimSpaceExact(s[1..]);
        head := [s[0]] + head;
        assert s == [s[0]] + s[1..];
      } else if IsSpace(s[|s| - 1]) {
        head, tail := TrimSpaceExact(s[..|s| - 1]);
        tail := tail + [s[|s| - 1]];
        assert s == s[..|s| - 1] + [s[|s| - 1]];
      }
    }
  }

  lemma {:induction false} InkIsNotBlank(s: string)
    requires s != "" && !IsSpace(s[0])
    ensures !Blank(s)
    decreases |s|
  {
    if IsSpace(s[|s| - 1]) {
      InkIsNotBlank(s[..|s| - 1]);
    }
  }

  function ReplaceChar(s: string, c: char, piece: string): string {
    if s == "" then ""
    else (if s[0] == c then piece else [s[0]]) + ReplaceChar(s[1..], c, piece)
  }

  lemma {:induction false} ReplaceCharAbsent(s: string, c: char, piece: string)
    requires c !in s
    ensures ReplaceChar(s, c, piece) == s
  {
    if s != "" {
      ReplaceCharAbsent(s[1..], c, piece);
    }
  }

  /** Strict byte order on strings, as text columns are compared. */
  predicate Precedes(a: string, b: string) {
    && b != ""
    && (a == "" || a[0] < b[0] || (a[0] == b[0] && Precedes(a[1..], b[1..])))
  }

  /** One string precedes another exactly when, past a common start, it is over first or
      goes on with the smaller character. */
  lemma {:induction false} PrecedesExact(a: string, b: string) returns (n: nat)
    ensures n <= |a| && n <= |b| && a[..n] == b[..n]
    ensures n < |a| && n < |b| ==> a[n] != b[n]
    ensures Precedes(a, b) <==> n < |b| && (n == |a| || a[n] < b[n])
  {
    n := 0;
    if a != "" && b != "" && a[0] == b[0] {
      n := PrecedesExact(a[1..], b[1..]);
      n := n + 1;
      assert a == [a[0]] + a[1..] && b == [b[0]] + b[1..];
      assert a[..n] == [a[0]] + a[1..][..n - 1] && b[..n] == [b[0]] + b[1..][..n - 1];
    }
  }

  lemma {:induction false} PrecedesAsymmetric(a: string, b: string)
    requires Precedes(a, b)
    ensures !Precedes(b, a) && a != b
  {
    if a != "" && a[0] == b[0] {
      PrecedesAsymmetric(a[1..], b[1..]);
    }
  }

  lemma {:induction false} PrecedesTotal(a: string, b: string)
    requires a != b
    ensures Precedes(a, b) || Precedes(b, a)
  {
    if a != "" && b != "" && a[0] == b[0] {
      assert a == [a[0]] + a[1..] && b == [b[0]] + b[1..];
      PrecedesTotal(a[1..], b[1..]);
    }
  }

  lemma {:induction false} PrecedesTransitive(a: string, b: string, c: string)
    requires Precedes(a, b) && Precedes(b, c)
    ensures Precedes(a, c)
  {
    if a != "" && a[0] == b[0] == c[0] {
      PrecedesTransitive(a[1..], b[1..], c[1..]);
    }
  }

  /** Prefixes of one length decide the order unless they are equal. */
  lemma {:induction false} PrecedesAppend(a: string, b: string, x: string, y: string)
    requires |a| == |b|
    ensures Precedes(a + x, b + y) <==> Precedes(a, b) || (a == b && Precedes(x, y))
  {
    if a == "" {
      assert a + x == x && b + y == y;
    } else {
      assert (a + x)[1..] == a[1..] + x && (b + y)[1..] == b[1..] + y;
      assert a == [a[0]] + a[1..] && b == [b[0]] + b[1..];
      PrecedesAppend(a[1..], b[1..], x, y);
    }
  }
}
