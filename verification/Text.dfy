/** The string functions of the Go library that the relay code uses, on strings of Unicode scalar values. */
module Text {
  predicate IsSpace(c: char) {
    || c in " \t\n\r" || c == '\U{0B}' || c == '\U{0C}' || c == '\U{85}' || c == '\U{A0}' || c == '\U{1680}'
    || '\U{2000}' <= c <= '\U{200A}'
    || c == '\U{2028}' || c == '\U{2029}' || c == '\U{202F}' || c == '\U{205F}' || c == '\U{3000}'
  }

  function TrimLeft(s: string): string {
    if s != [] && IsSpace(s[0]) then TrimLeft(s[1..]) else s
  }

  function TrimRight(s: string): string {
    if s != [] && IsSpace(s[|s| - 1]) then TrimRight(s[..|s| - 1]) else s
  }

  /** strings.TrimSpace */
  function TrimSpace(s: string): string {
    TrimRight(TrimLeft(s))
  }

  predicate IsUpper(c: char) { 'A' <= c <= 'Z' }

  predicate IsLower(c: char) { 'a' <= c <= 'z' }

  predicate IsDigit(c: char) { '0' <= c <= '9' }

  function AsciiLowerChar(c: char): char {
    if IsUpper(c) then (c as int - 'A' as int + 'a' as int) as char else c
  }

  /** unicode.ToLower. Two characters outside ASCII have a lower case inside it; what the others map to stays
      outside ASCII, and nothing here looks further at them. */
  function LowerChar(c: char): char {
    if c == '\U{0130}' then 'i' else if c == '\U{212A}' then 'k' else AsciiLowerChar(c)
  }

  /** strings.ToLower */
  function ToLower(s: string): (r: string)
    ensures |r| == |s|
    ensures forall i | 0 <= i < |s| :: r[i] == LowerChar(s[i])
  {
    if s == [] then [] else [LowerChar(s[0])] + ToLower(s[1..])
  }

  function AsciiLower(s: string): (r: string)
    ensures |r| == |s|
    ensures forall i | 0 <= i < |s| :: r[i] == AsciiLowerChar(s[i])
  {
    if s == [] then [] else [AsciiLowerChar(s[0])] + AsciiLower(s[1..])
  }

  /** strings.EqualFold against an ASCII word without the letters k and s, which alone have further foldings. */
  predicate EqualFold(s: string, word: string) {
    AsciiLower(s) == AsciiLower(word)
  }

  predicate NoSpaces(s: string) {
    forall i | 0 <= i < |s| :: !IsSpace(s[i])
  }

  lemma TrimNoSpaces(s: string)
    requires NoSpaces(s)
    ensures TrimSpace(s) == s
  {
  }

  predicate IsLowered(s: string) {
    forall i | 0 <= i < |s| :: LowerChar(s[i]) == s[i]
  }

  lemma ToLowerFixed(s: string)
    requires IsLowered(s)
    ensures ToLower(s) == s
  {
  }

  lemma ToLowerIsLowered(s: string)
    ensures IsLowered(ToLower(s))
  {
  }

  predicate AllSpaces(s: string) {
    forall i | 0 <= i < |s| :: IsSpace(s[i])
  }

  /** Nothing is left to trim. */
  predicate Trimmed(s: string) { s != "" ==> !IsSpace(s[0]) && !IsSpace(s[|s| - 1]) }

  lemma {:induction false} TrimLeftBlanks(left: string, s: string)
    requires AllSpaces(left) && (s == "" || !IsSpace(s[0]))
    ensures TrimLeft(left + s) == s
  {
    if left == "" {
      assert left + s == s;
    } else {
      TrimLeftBlanks(left[1..], s);
      assert (left + s)[1..] == left[1..] + s;
    }
  }

  lemma {:induction false} TrimRightBlanks(s: string, right: string)
    requires AllSpaces(right) && (s == "" || !IsSpace(s[|s| - 1]))
    ensures TrimRight(s + right) == s
  {
    if right == "" {
      assert s + right == s;
    } else {
      TrimRightBlanks(s, right[..|right| - 1]);
      assert (s + right)[..|s + right| - 1] == s + right[..|right| - 1];
    }
  }

  /** Trimming takes exactly the blanks around a text away. */
  lemma TrimBlanks(left: string, s: string, right: string)
    requires AllSpaces(left) && AllSpaces(right) && Trimmed(s)
    ensures TrimSpace(left + s + right) == s
  {
    if s == "" {
      TrimLeftBlanks(left + right, "");
      assert left + s + right == left + right + "";
    } else {
      TrimLeftBlanks(left, s + right);
      assert left + s + right == left + (s + right);
      TrimRightBlanks(s, right);
    }
  }

  lemma {:induction false} TrimLeftParts(s: string) returns (left: string)
    ensures AllSpaces(left) && s == left + TrimLeft(s)
    ensures TrimLeft(s) == "" || !IsSpace(TrimLeft(s)[0])
  {
    if s != "" && IsSpace(s[0]) {
      var rest := TrimLeftParts(s[1..]);
      left := [s[0]] + rest;
    } else {
      left := "";
    }
  }

  lemma {:induction false} TrimRightParts(s: string) returns (right: string)
    ensures AllSpaces(right) && s == TrimRight(s) + right
    ensures TrimRight(s) == "" || !IsSpace(TrimRight(s)[|TrimRight(s)| - 1])
  {
    if s != "" && IsSpace(s[|s| - 1]) {
      var rest := TrimRightParts(s[..|s| - 1]);
      right := rest + [s[|s| - 1]];
    } else {
      right := "";
    }
  }

  /** Any text is its trimmed form between blanks. */
  lemma TrimParts(s: string) returns (left: string, right: string)
    ensures AllSpaces(left) && AllSpaces(right) && Trimmed(TrimSpace(s)) && s == left + TrimSpace(s) + right
  {
    left := TrimLeftParts(s);
    right := TrimRightParts(TrimLeft(s));
    assert TrimSpace(s) <= TrimLeft(s);
  }
}
