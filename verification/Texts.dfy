/** Text at the edges: its length in bytes and the white space around it. */
module Texts {
  /** The bytes of one character in UTF-8. */
  function Width(c: char): nat {
    if c as int < 0x80 then 1 else if c as int < 0x800 then 2 else if c as int < 0x10000 then 3 else 4
  }

  function Bytes(s: string): nat { if s == "" then 0 else Width(s[0]) + Bytes(s[1..]) }

  /** The Unicode property White_Space, which `strings.TrimSpace` removes. */
  predicate White(c: char) {
    var n := c as int;
    0x09 <= n <= 0x0D || n == 0x20 || n == 0x85 || n == 0xA0 || n == 0x1680 || 0x2000 <= n <= 0x200A
    || n == 0x2028 || n == 0x2029 || n == 0x202F || n == 0x205F || n == 0x3000
  }

  function TrimLeft(s: string): string { if s != "" && White(s[0]) then TrimLeft(s[1..]) else s }

  function TrimRight(s: string): string {
    if s != "" && White(s[|s| - 1]) then TrimRight(s[..|s| - 1]) else s
  }

  function Trim(s: string): string { TrimRight(TrimLeft(s)) }

  predicate AllWhite(s: string) { forall c :: c in s ==> White(c) }

  /** Trimming takes white space from both ends, and all of it. */
  lemma TrimTakesBothEnds(s: string) returns (before: string, after: string)
    ensures s == before + Trim(s) + after && AllWhite(before) && AllWhite(after)
    ensures Trim(s) != "" ==> !White(Trim(s)[0]) && !White(Trim(s)[|Trim(s)| - 1])
  {
    before := LeftEnd(s);
    after := RightEnd(TrimLeft(s));
  }

  lemma {:induction false} LeftEnd(s: string) returns (before: string)
    ensures s == before + TrimLeft(s) && AllWhite(before)
    ensures TrimLeft(s) != "" ==> !White(TrimLeft(s)[0])
  {
    before := "";
    if s != "" && White(s[0]) {
      before := LeftEnd(s[1..]);
      before := [s[0]] + before;
    }
  }

  lemma {:induction false} RightEnd(s: string) returns (after: string)
    ensures s == TrimRight(s) + after && AllWhite(after)
    ensures TrimRight(s) != "" ==> !White(TrimRight(s)[|TrimRight(s)| - 1])
  {
    after := "";
    if s != "" && White(s[|s| - 1]) {
      after := RightEnd(s[..|s| - 1]);
      after := after + [s[|s| - 1]];
    }
  }
}
