/** Strings as the Go code treats them: surrounding white space and code-point order. */
module Text {

  /** The characters Go's unicode.IsSpace accepts. */
  predicate IsSpace(c: char) {
    IsSpaceCode(c as int)
  }

  /** Tab to carriage return, space, and the space characters outside ASCII. */
  predicate IsSpaceCode(n: int) {
    || 0x09 <= n <= 0x0D || n == 0x20
    || n == 0x85 || n == 0xA0 || n == 0x1680 || 0x2000 <= n <= 0x200A
    || n == 0x2028 || n == 0x2029 || n == 0x202F || n == 0x205F || n == 0x3000
  }

  function TrimLeft(s: string): string {
    if s == "" then "" else if IsSpace(s[0]) then TrimLeft(s[1..]) else s
  }

  function TrimRight(s: string): string {
    if s == "" then "" else if IsSpace(s[|s| - 1]) then TrimRight(s[..|s| - 1]) else s
  }

  /** strings.TrimSpace. */
  function TrimSpace(s: string): string {
    TrimRight(TrimLeft(s))
  }

  lemma {:induction false} TrimLeftEnds(s: string)
    ensures TrimLeft(s) != "" ==> !IsSpace(TrimLeft(s)[0])
  {
    if s != "" && IsSpace(s[0]) {
      TrimLeftEnds(s[1..]);
    }
  }

  lemma {:induction false} TrimRightEnds(s: string)
    ensures TrimRight(s) <= s
    ensures TrimRight(s) != "" ==> !IsSpace(TrimRight(s)[|TrimRight(s)| - 1])
  {
    if s != "" && IsSpace(s[|s| - 1]) {
      TrimRightEnds(s[..|s| - 1]);
    }
  }

  lemma {:induction false} TrimSpaceIdempotent(s: string)
    ensures TrimSpace(TrimSpace(s)) == TrimSpace(s)
  {
    TrimLeftEnds(s);
    TrimRightEnds(TrimLeft(s));
    var t := TrimSpace(s);
    if t != "" {
      assert t[0] == TrimLeft(s)[0];
    }
  }

  ghost predicate AllSpace(s: string) {
    forall i :: 0 <= i < |s| ==> IsSpace(s[i])
  }

  lemma {:induction false} TrimLeftMeans(s: string) returns (before: string)
    ensures AllSpace(before) && s == before + TrimLeft(s)
  {
    before := "";
    if s != "" && IsSpace(s[0]) {
      var rest := TrimLeftMeans(s[1..]);
      before := [s[0]] + rest;
    }
  }

  lemma {:induction false} TrimRightMeans(s: string) returns (after: string)
    ensures AllSpace(after) && s == TrimRight(s) + after
  {
    after := "";
    if s != "" && IsSpace(s[|s| - 1]) {
      var rest := TrimRightMeans(s[..|s| - 1]);
      after := rest + [s[|s| - 1]];
    }
  }

  /** Trimming takes white space off both ends, all of it and nothing else. */
  lemma {:induction false} TrimSpaceMeans(s: string) returns (before: string, after: string)
    ensures AllSpace(before) && AllSpace(after) && s == before + TrimSpace(s) + after
    ensures var t := TrimSpace(s); t != "" ==> !IsSpace(t[0]) && !IsSpace(t[|t| - 1])
  {
    before := TrimLeftMeans(s);
    after := TrimRightMeans(TrimLeft(s));
    TrimLeftEnds(s);
    TrimRightEnds(TrimLeft(s));
    assert TrimSpace(s) != "" ==> TrimSpace(s)[0] == TrimLeft(s)[0];
  }

  /** The `<` of Go strings: byte order, which for UTF-8 is code-point order. */
  predicate Less(a: string, b: string) {
    if b == "" then false
    else if a == "" then true
    else a[0] < b[0] || (a[0] == b[0] && Less(a[1..], b[1..]))
  }

  lemma {:induction false} LessAsymmetric(a: string, b: string)
    requires Less(a, b)
    ensures !Less(b, a)
  {
    if a != "" && a[0] == b[0] {
      LessAsymmetric(a[1..], b[1..]);
    }
  }

  /** "Not greater" is transitive, so Less is a strict weak order. */
  lemma {:induction false} NotGreaterTransitive(a: string, b: string, c: string)
    requires !Less(b, a) && !Less(c, b)
    ensures !Less(c, a)
  {
    if a != "" && c != "" && a[0] == c[0] {
      NotGreaterTransitive(a[1..], b[1..], c[1..]);
    }
  }
}
