/** str.strip and str.split(","), as the payload coercion and the phone utilities use them. */
module Text {

  /** str.isspace, which str.strip() and \s go by. The comma is not one. */
  predicate IsSpace(c: char) {
    var code := c as int;
    || 9 <= code <= 13 || 28 <= code <= 32 || code == 0x85 || code == 0xA0 || code == 0x1680
    || 0x2000 <= code <= 0x200A || code == 0x2028 || code == 0x2029 || code == 0x202F
    || code == 0x205F || code == 0x3000
  }

  function DropLeading(s: string): string {
    if s != "" && IsSpace(s[0]) then DropLeading(s[1..]) else s
  }

  function DropTrailing(s: string): string {
    if s != "" && IsSpace(s[|s| - 1]) then DropTrailing(s[..|s| - 1]) else s
  }

  function Strip(s: string): string {
    DropTrailing(DropLeading(s))
  }

  /** s.split(",") */
  function Split(s: string): (parts: seq<string>)
    ensures |parts| > 0
  {
    if s == "" then [""]
    else if s[0] == ',' then [""] + Split(s[1..])
    else var rest := Split(s[1..]); [[s[0]] + rest[0]] + rest[1..]
  }

  lemma {:induction false} DropTrailingIsPrefix(s: string)
    ensures DropTrailing(s) <= s
    ensures DropTrailing(s) != "" ==> !IsSpace(DropTrailing(s)[|DropTrailing(s)| - 1])
    ensures forall c :: c in s && !IsSpace(c) ==> c in DropTrailing(s)
  {
    if s != "" && IsSpace(s[|s| - 1]) {
      DropTrailingIsPrefix(s[..|s| - 1]);
      assert s == s[..|s| - 1] + [s[|s| - 1]];
    }
  }

  lemma {:induction false} DropLeadingKeeps(s: string)
    ensures DropLeading(s) != "" ==> !IsSpace(DropLeading(s)[0])
    ensures forall c :: c in DropLeading(s) ==> c in s
    ensures forall c :: c in s && !IsSpace(c) ==> c in DropLeading(s)
  {
    if s != "" && IsSpace(s[0]) {
      DropLeadingKeeps(s[1..]);
      assert s == [s[0]] + s[1..];
    }
  }

  predicate AllSpace(s: string) {
    forall i :: 0 <= i < |s| ==> IsSpace(s[i])
  }

  /** trimmed is s without the spaces it begins and ends with. */
  ghost predicate Trims(s: string, trimmed: string) {
    && (trimmed != "" ==> !IsSpace(trimmed[0]) && !IsSpace(trimmed[|trimmed| - 1]))
    && exists a, b :: AllSpace(a) && AllSpace(b) && s == a + trimmed + b
  }

  lemma {:induction false} LeadingSpace(s: string) returns (a: string)
    ensures AllSpace(a) && s == a + DropLeading(s)
  {
    a := "";
    if s != "" && IsSpace(s[0]) {
      var rest := LeadingSpace(s[1..]);
      a := [s[0]] + rest;
      assert s == [s[0]] + s[1..] == a + DropLeading(s[1..]);
    }
  }

  lemma {:induction false} TrailingSpace(s: string) returns (b: string)
    ensures AllSpace(b) && s == DropTrailing(s) + b
  {
    b := "";
    if s != "" && IsSpace(s[|s| - 1]) {
      var rest := TrailingSpace(s[..|s| - 1]);
      b := rest + [s[|s| - 1]];
      assert s == s[..|s| - 1] + [s[|s| - 1]] == DropTrailing(s[..|s| - 1]) + b;
    }
  }

  /** strip takes away the spaces at both ends and nothing else. */
  lemma StripTrims(s: string)
    ensures Trims(s, Strip(s))
  {
    var a := LeadingSpace(s);
    var b := TrailingSpace(DropLeading(s));
    DropLeadingKeeps(s);
    DropTrailingIsPrefix(DropLeading(s));
    assert s == a + Strip(s) + b;
  }

  /** What strip leaves begins and ends with no space, and keeps every other character. */
  lemma StripKeeps(s: string)
    ensures forall c :: c in Strip(s) ==> c in s
    ensures forall c :: c in s && !IsSpace(c) ==> c in Strip(s)
    ensures Strip(Strip(s)) == Strip(s)
  {
    DropLeadingKeeps(s);
    DropTrailingIsPrefix(DropLeading(s));
  }

  lemma {:induction false} SplitAtComma(a: string, b: string)
    ensures Split(a + "," + b) == Split(a) + Split(b)
  {
    if a == "" {
      assert (a + "," + b)[1..] == b;
    } else {
      assert (a + "," + b)[1..] == a[1..] + "," + b;
      SplitAtComma(a[1..], b);
    }
  }

  lemma {:induction false} SplitWithoutComma(s: string)
    requires ',' !in s
    ensures Split(s) == [s]
  {
    if s != "" {
      SplitWithoutComma(s[1..]);
      assert s[0] in s && s == [s[0]] + s[1..];
    }
  }

  lemma {:induction false} PartsHaveNoComma(s: string)
    ensures forall part :: part in Split(s) ==> ',' !in part
  {
    if s != "" {
      PartsHaveNoComma(s[1..]);
      var rest := Split(s[1..]);
      assert rest[0] in rest;
      assert forall part :: part in rest[1..] ==> part in rest;
    }
  }
}
