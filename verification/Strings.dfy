// The white space rules of strings.TrimSpace and strings.Fields, and the length of a text in bytes.
module Strings {

  predicate IsSpace(c: char) {
    var n := c as int;
    || 9 <= n <= 13 || n == 32 || n == 0x85 || n == 0xA0
    || n == 0x1680 || 0x2000 <= n <= 0x200A || n == 0x2028 || n == 0x2029 || n == 0x202F || n == 0x205F || n == 0x3000
  }

  function TrimLeft(s: string): (r: string)
    ensures |r| <= |s|
    ensures r == [] || !IsSpace(r[0])
  {
    if s == [] || !IsSpace(s[0]) then s else TrimLeft(s[1..])
  }

  function TrimRight(s: string): (r: string)
    ensures |r| <= |s| && r == s[..|r|]
    ensures r == [] || !IsSpace(r[|r| - 1])
  {
    if s == [] || !IsSpace(s[|s| - 1]) then s else TrimRight(s[..|s| - 1])
  }

  function TrimSpace(s: string): string {
    TrimRight(TrimLeft(s))
  }

  predicate Blank(s: string) {
    TrimSpace(s) == ""
  }

  /** Text that begins and ends with something visible is its own trim. */
  lemma TrimKeeps(s: string)
    requires s == "" || (!IsSpace(s[0]) && !IsSpace(s[|s| - 1]))
    ensures TrimSpace(s) == s
  {
  }

  lemma {:induction false} TrimIdempotent(s: string)
    ensures TrimSpace(TrimSpace(s)) == TrimSpace(s)
  {
    var l := TrimLeft(s);
    var r := TrimRight(l);
    assert r != "" ==> r[0] == l[0];
    TrimKeeps(r);
  }

  // ----- the first word -----

  predicate NoSpace(s: string) {
    forall i :: 0 <= i < |s| ==> !IsSpace(s[i])
  }

  predicate AllSpace(s: string) {
    forall i :: 0 <= i < |s| ==> IsSpace(s[i])
  }

  function Word(s: string): (w: string) {
    if s == "" || IsSpace(s[0]) then "" else [s[0]] + Word(s[1..])
  }

  /** strings.Fields(s)[0], or the empty string if there is none. */
  function FirstField(s: string): string {
    Word(TrimLeft(s))
  }

  /** The word stands after leading space and ends at a space or with the text. */
  predicate Stands(s: string, lead: string, w: string, rest: string) {
    s == lead + w + rest && AllSpace(lead) && NoSpace(w) && w != "" && (rest == "" || IsSpace(rest[0]))
  }

  ghost predicate FirstWord(s: string, w: string) {
    exists lead, rest :: Stands(s, lead, w, rest)
  }

  lemma {:induction false} WordEnds(s: string) returns (rest: string)
    ensures s == Word(s) + rest && NoSpace(Word(s)) && (rest == "" || IsSpace(rest[0]))
  {
    if s == "" || IsSpace(s[0]) {
      rest := s;
    } else {
      rest := WordEnds(s[1..]);
    }
  }

  lemma {:induction false} TrimLeftTakes(s: string) returns (lead: string)
    ensures s == lead + TrimLeft(s) && AllSpace(lead)
  {
    if s == "" || !IsSpace(s[0]) {
      lead := "";
    } else {
      var more := TrimLeftTakes(s[1..]);
      lead := [s[0]] + more;
    }
  }

  lemma {:induction false} TrimLeftOf(lead: string, s: string)
    requires AllSpace(lead) && s != "" && !IsSpace(s[0])
    ensures TrimLeft(lead + s) == s
  {
    if lead == "" {
      assert lead + s == s;
    } else {
      assert (lead + s)[1..] == lead[1..] + s;
      TrimLeftOf(lead[1..], s);
    }
  }

  lemma {:induction false} WordOf(w: string, rest: string)
    requires NoSpace(w) && (rest == "" || IsSpace(rest[0]))
    ensures Word(w + rest) == w
  {
    if w == "" {
      assert w + rest == rest;
    } else {
      assert (w + rest)[1..] == w[1..] + rest;
      WordOf(w[1..], rest);
    }
  }

  lemma FieldIsWord(s: string)
    requires FirstField(s) != ""
    ensures FirstWord(s, FirstField(s))
  {
    var lead := TrimLeftTakes(s);
    var rest := WordEnds(TrimLeft(s));
    Joins(lead, FirstField(s), rest);
    assert Stands(s, lead, FirstField(s), rest);
  }

  lemma Joins(a: string, b: string, c: string)
    ensures a + b + c == a + (b + c)
  {
  }

  lemma WordIsField(s: string, lead: string, w: string, rest: string)
    requires Stands(s, lead, w, rest)
    ensures FirstField(s) == w
  {
    Joins(lead, w, rest);
    assert !IsSpace(w[0]) && (w + rest)[0] == w[0];
    TrimLeftOf(lead, w + rest);
    WordOf(w, rest);
  }

  /** The first field is the first word, if there is one. */
  lemma FirstFieldIs(s: string, w: string)
    requires w != ""
    ensures FirstField(s) == w <==> FirstWord(s, w)
  {
    if FirstField(s) == w {
      FieldIsWord(s);
    }
    if FirstWord(s, w) {
      var lead, rest :| Stands(s, lead, w, rest);
      WordIsField(s, lead, w, rest);
    }
  }

  lemma {:induction false} TrimRightTakes(s: string) returns (tail: string)
    ensures s == TrimRight(s) + tail && AllSpace(tail)
  {
    if s == "" || !IsSpace(s[|s| - 1]) {
      tail := "";
    } else {
      var more := TrimRightTakes(s[..|s| - 1]);
      tail := more + [s[|s| - 1]];
    }
  }

  /** Trimming takes space off both ends, and all of it. */
  lemma TrimTakes(s: string) returns (lead: string, tail: string)
    ensures var t := TrimSpace(s);
            && s == lead + t + tail && AllSpace(lead) && AllSpace(tail)
            && (t != "" ==> !IsSpace(t[0]) && !IsSpace(t[|t| - 1]))
  {
    lead := TrimLeftTakes(s);
    tail := TrimRightTakes(TrimLeft(s));
    Joins(lead, TrimSpace(s), tail);
    assert TrimSpace(s) != "" ==> TrimSpace(s)[0] == TrimLeft(s)[0];
  }

  // ----- bytes -----

  /** The bytes of a character in UTF-8, by the table of section 3 of RFC 3629. */
  function Bytes(c: char): nat {
    var n := c as int;
    if n < 0x80 then 1 else if n < 0x800 then 2 else if n < 0x10000 then 3 else 4
  }

  function ByteLength(s: string): nat {
    if s == "" then 0 else Bytes(s[0]) + ByteLength(s[1..])
  }
}
