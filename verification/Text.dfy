/** Options and the string operations every component shares: the whitespace set of `String.trim`,
    ASCII lower-casing, splitting and joining on one character. */
module Text {

  datatype Option<+T> = None | Some(value: T)

  /** The characters JavaScript's `trim` and `\s` treat as white space. */
  predicate IsSpace(c: char) {
    || '\t' <= c <= '\r'
    || c == ' '
    || c == '\U{00A0}'
    || c == '\U{1680}'
    || '\U{2000}' <= c <= '\U{200A}'
    || c == '\U{2028}'
    || c == '\U{2029}'
    || c == '\U{202F}'
    || c == '\U{205F}'
    || c == '\U{3000}'
    || c == '\U{FEFF}'
  }

  function TrimStart(s: string): string {
    if s != "" && IsSpace(s[0]) then TrimStart(s[1..]) else s
  }

  function TrimEnd(s: string): string {
    if s != "" && IsSpace(s[|s| - 1]) then TrimEnd(s[..|s| - 1]) else s
  }

  function Trim(s: string): string {
    TrimEnd(TrimStart(s))
  }

  /** Neither end is white space. */
  predicate Trimmed(s: string) {
    s != "" ==> !IsSpace(s[0]) && !IsSpace(s[|s| - 1])
  }

  function LowerChar(c: char): (r: char)
    ensures IsSpace(r) <==> IsSpace(c)
  {
    if 'A' <= c <= 'Z' then c - 'A' + 'a' else c
  }

  function Lower(s: string): (r: string)
    ensures |r| == |s|
    ensures forall i :: 0 <= i < |s| ==> r[i] == LowerChar(s[i])
  {
    seq(|s|, i requires 0 <= i < |s| => LowerChar(s[i]))
  }

  /** The one canonical form of an address: trimmed, then lower-cased. */
  function Normalize(raw: string): string {
    Lower(Trim(raw))
  }

  lemma {:induction false} TrimEndKeepsStart(s: string)
    requires s != "" ==> !IsSpace(s[0])
    ensures Trimmed(TrimEnd(s))
  {
    if s != "" && IsSpace(s[|s| - 1]) {
      TrimEndKeepsStart(s[..|s| - 1]);
    }
  }

  lemma {:induction false} TrimStartStops(s: string)
    ensures TrimStart(s) != "" ==> !IsSpace(TrimStart(s)[0])
  {
    if s != "" && IsSpace(s[0]) {
      TrimStartStops(s[1..]);
    }
  }

  lemma TrimTrims(s: string)
    ensures Trimmed(Trim(s))
    ensures Trimmed(s) ==> Trim(s) == s
  {
    TrimStartStops(s);
    TrimEndKeepsStart(TrimStart(s));
  }

  predicate AllSpace(s: string) {
    forall i :: 0 <= i < |s| ==> IsSpace(s[i])
  }

  /** From `i` to `j` is all that is not white space at an end. */
  predicate Unpadded(s: string, i: int, j: int) {
    0 <= i <= j <= |s| && AllSpace(s[..i]) && AllSpace(s[j..]) && Trimmed(s[i..j])
  }

  lemma {:induction false} TrimStartCuts(s: string) returns (i: nat)
    ensures i <= |s| && TrimStart(s) == s[i..] && AllSpace(s[..i])
  {
    i := 0;
    if s != "" && IsSpace(s[0]) {
      var j := TrimStartCuts(s[1..]);
      i := j + 1;
      assert s[..i] == [s[0]] + s[1..][..j];
    }
  }

  lemma {:induction false} TrimEndCuts(s: string) returns (j: nat)
    ensures j <= |s| && TrimEnd(s) == s[..j] && AllSpace(s[j..])
  {
    j := |s|;
    if s != "" && IsSpace(s[|s| - 1]) {
      var front := s[..|s| - 1];
      j := TrimEndCuts(front);
      assert s[j..] == front[j..] + [s[|s| - 1]];
    }
  }

  /** Of each character the lower case is the same, or, of the 26 capital letters, the one 32 code points on. */
  lemma LowerIs(s: string, i: nat)
    requires i < |s|
    ensures Lower(s)[i] as int == s[i] as int + if 65 <= s[i] as int <= 90 then 32 else 0
  {
    assert Lower(s)[i] == LowerChar(s[i]);
  }

  /** The canonical form is what is left between the white space at the two ends, in lower case. */
  lemma NormalizeIs(raw: string)
    ensures exists i, j :: Unpadded(raw, i, j) && Normalize(raw) == Lower(raw[i..j])
  {
    var i := TrimStartCuts(raw);
    var j := TrimEndCuts(TrimStart(raw));
    TrimTrims(raw);
    assert raw[i..][..j] == raw[i..i + j] && raw[i..][j..] == raw[i + j..];
    assert Unpadded(raw, i, i + j);
  }

  /** Normalising twice is normalising once, and a normalised address is its own lower case: this is
      what lets every reader compare stored addresses exactly. */
  lemma NormalizeIdempotent(raw: string)
    ensures Normalize(Normalize(raw)) == Normalize(raw)
    ensures Lower(Normalize(raw)) == Normalize(raw)
  {
    TrimTrims(raw);
    var n := Normalize(raw);
    assert Trimmed(n);
    TrimTrims(n);
    assert forall i :: 0 <= i < |n| ==> Lower(n)[i] == n[i];
    assert Lower(n) == n;
  }

  // ─── Splitting and joining on one character ────────────────────────────────

  function Split(s: string, sep: char): (parts: seq<string>)
    ensures |parts| >= 1
  {
    if s == "" then [""]
    else
      var rest := Split(s[1..], sep);
      if s[0] == sep then [""] + rest else [[s[0]] + rest[0]] + rest[1..]
  }

  function Join(parts: seq<string>, sep: char): string {
    if parts == [] then ""
    else if |parts| == 1 then parts[0]
    else parts[0] + [sep] + Join(parts[1..], sep)
  }

  predicate Free(s: string, sep: char) {
    sep !in s
  }

  predicate AllFree(parts: seq<string>, sep: char) {
    forall i :: 0 <= i < |parts| ==> Free(parts[i], sep)
  }

  lemma {:induction false} SplitFree(s: string, sep: char)
    requires Free(s, sep)
    ensures Split(s, sep) == [s]
  {
    if s != "" {
      SplitFree(s[1..], sep);
      assert [s[0]] + s[1..] == s;
    }
  }

  lemma {:induction false} SplitHead(head: string, rest: string, sep: char)
    requires Free(head, sep)
    ensures Split(head + [sep] + rest, sep) == [head] + Split(rest, sep)
  {
    var s := head + [sep] + rest;
    if head == "" {
      assert s[1..] == rest;
    } else {
      SplitHead(head[1..], rest, sep);
      assert s[1..] == head[1..] + [sep] + rest;
      assert [head[0]] + head[1..] == head;
    }
  }

  /** Splitting undoes joining, as long as no part holds the separator. */
  lemma {:induction false} SplitJoin(parts: seq<string>, sep: char)
    requires parts != [] && AllFree(parts, sep)
    ensures Split(Join(parts, sep), sep) == parts
  {
    if |parts| == 1 {
      SplitFree(parts[0], sep);
    } else {
      SplitJoin(parts[1..], sep);
      SplitHead(parts[0], Join(parts[1..], sep), sep);
    }
  }

  /** Joining undoes splitting, whatever the string. */
  lemma {:induction false} JoinSplit(s: string, sep: char)
    ensures Join(Split(s, sep), sep) == s
    ensures AllFree(Split(s, sep), sep)
  {
    if s != "" {
      var rest := Split(s[1..], sep);
      JoinSplit(s[1..], sep);
      if s[0] == sep {
        assert ([""] + rest)[1..] == rest;
      } else {
        var parts := [[s[0]] + rest[0]] + rest[1..];
        assert parts[1..] == rest[1..];
        assert Free(rest[0], sep);
        assert Join(parts, sep) == [s[0]] + Join(rest, sep);
      }
    }
  }
}
