/**
 * The two string operations the chat UI relies on: ECMAScript's
 * `String.prototype.trim`, used as a blank test (`!text.trim()`), and the
 * in-order concatenation of streamed text chunks (`modelResponse += chunk.text`).
 */
module JsString {

  /** The WhiteSpace and LineTerminator code points that `trim` removes. */
  predicate IsWhitespace(c: char) {
    c == '\t' || c == '\n' || c == '\U{000B}' || c == '\U{000C}' || c == '\r' || c == ' '
    || c == '\U{00A0}' || c == '\U{1680}' || ('\U{2000}' <= c <= '\U{200A}')
    || c == '\U{2028}' || c == '\U{2029}' || c == '\U{202F}' || c == '\U{205F}'
    || c == '\U{3000}' || c == '\U{FEFF}'
  }

  /** `s` with its leading white space removed. */
  function TrimStart(s: string): string {
    if s != [] && IsWhitespace(s[0]) then TrimStart(s[1..]) else s
  }

  /** `s` with its trailing white space removed. */
  function TrimEnd(s: string): string {
    if s != [] && IsWhitespace(s[|s| - 1]) then TrimEnd(s[..|s| - 1]) else s
  }

  /** `s.trim()`. */
  function Trim(s: string): string {
    TrimEnd(TrimStart(s))
  }

  /** JavaScript's `!s.trim()`: the trimmed string is the falsy empty string. */
  predicate IsBlank(s: string) {
    Trim(s) == ""
  }

  /** `TrimStart` drops a prefix made of white space and keeps a suffix that starts with non-white space. */
  lemma {:induction false} TrimStartSpec(s: string)
    ensures |TrimStart(s)| <= |s| && TrimStart(s) == s[|s| - |TrimStart(s)|..]
    ensures forall i :: 0 <= i < |s| - |TrimStart(s)| ==> IsWhitespace(s[i])
    ensures TrimStart(s) != [] ==> !IsWhitespace(TrimStart(s)[0])
  {
    if s != [] && IsWhitespace(s[0]) {
      TrimStartSpec(s[1..]);
      forall i | 1 <= i < |s| - |TrimStart(s)| ensures IsWhitespace(s[i]) {
        assert s[i] == s[1..][i - 1];
      }
    }
  }

  /** `TrimEnd` drops a suffix made of white space and keeps a prefix that ends with non-white space. */
  lemma {:induction false} TrimEndSpec(s: string)
    ensures |TrimEnd(s)| <= |s| && TrimEnd(s) == s[..|TrimEnd(s)|]
    ensures forall i :: |TrimEnd(s)| <= i < |s| ==> IsWhitespace(s[i])
    ensures TrimEnd(s) != [] ==> !IsWhitespace(TrimEnd(s)[|TrimEnd(s)| - 1])
  {
    if s != [] && IsWhitespace(s[|s| - 1]) {
      TrimEndSpec(s[..|s| - 1]);
      forall i | |TrimEnd(s)| <= i < |s| - 1 ensures IsWhitespace(s[i]) {
        assert s[i] == s[..|s| - 1][i];
      }
    }
  }

  /** `trim` leaves no white space at either end, and leaves text without white space as it is. */
  lemma TrimSpec(s: string)
    ensures |Trim(s)| <= |s|
    ensures Trim(s) != [] ==> !IsWhitespace(Trim(s)[0]) && !IsWhitespace(Trim(s)[|Trim(s)| - 1])
    ensures (forall i :: 0 <= i < |s| ==> !IsWhitespace(s[i])) ==> Trim(s) == s
  {
    var t := TrimStart(s);
    TrimStartSpec(s);
    TrimEndSpec(t);
    var r := TrimEnd(t);
    if r != [] {
      assert r[0] == t[0];
    }
    if forall i :: 0 <= i < |s| ==> !IsWhitespace(s[i]) {
      if |t| < |s| {
        assert IsWhitespace(s[0]);
      }
    }
  }

  /** A string is blank exactly when every one of its characters is white space. */
  lemma BlankIffAllWhitespace(s: string)
    ensures IsBlank(s) <==> forall i :: 0 <= i < |s| ==> IsWhitespace(s[i])
  {
    var t := TrimStart(s);
    TrimStartSpec(s);
    TrimEndSpec(t);
    if t != [] {
      assert t[0] == s[|s| - |t|];
    }
  }

  /** One character that is not white space makes a string non-blank. */
  lemma NotBlankAt(s: string, i: nat)
    requires i < |s| && !IsWhitespace(s[i])
    ensures !IsBlank(s)
  {
    BlankIffAllWhitespace(s);
  }

  /** Blank text is never sent, so any text that is sent is non-empty. */
  lemma NonBlankIsNonEmpty(s: string)
    requires !IsBlank(s)
    ensures s != ""
  {
  }

  /** The in-order concatenation of the chunk texts of a stream. */
  function Concat(parts: seq<string>): string {
    if parts == [] then "" else parts[0] + Concat(parts[1..])
  }

  /** Folding one more chunk into the accumulator extends the concatenation by that chunk. */
  lemma {:induction false} ConcatSnoc(parts: seq<string>, s: string)
    ensures Concat(parts + [s]) == Concat(parts) + s
  {
    if parts == [] {
      assert [] + [s] == [s];
      assert Concat([s]) == s + Concat([]);
    } else {
      assert (parts + [s])[1..] == parts[1..] + [s];
      ConcatSnoc(parts[1..], s);
    }
  }

  /** The accumulated text is empty exactly when every chunk was empty. */
  lemma {:induction false} ConcatEmptyIff(parts: seq<string>)
    ensures Concat(parts) == "" <==> forall i :: 0 <= i < |parts| ==> parts[i] == ""
  {
    if parts != [] {
      ConcatEmptyIff(parts[1..]);
      assert forall i :: 1 <= i < |parts| ==> parts[i] == parts[1..][i - 1];
    }
  }
}
