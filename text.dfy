/** Character-level helpers standing in for the JavaScript string methods the ledger uses. */
module Text {

  /** The characters JavaScript's `\s` class and `String.prototype.trim` treat as white space. */
  predicate IsWhitespace(c: char)
  {
    var n := c as int;
    (0x09 <= n <= 0x0D) || n == 0x20 || n == 0xA0 || n == 0x1680
    || (0x2000 <= n <= 0x200A) || n == 0x2028 || n == 0x2029 || n == 0x202F
    || n == 0x205F || n == 0x3000 || n == 0xFEFF
  }

  /** True when `s` holds nothing but white space, i.e. `s.trim() === ''`. */
  predicate IsBlank(s: string)
  {
    forall i :: 0 <= i < |s| ==> IsWhitespace(s[i])
  }

  /** Lower-case mapping of one character (ASCII letters only). */
  function LowerChar(c: char): (r: char)
    ensures 'A' <= c <= 'Z' ==> 'a' <= r <= 'z' && r as int == c as int + 32
    ensures !('A' <= c <= 'Z') ==> r == c
  {
    if 'A' <= c <= 'Z' then (c as int + 32) as char else c
  }

  /** `s.toLowerCase()`, restricted to ASCII letters. */
  function Lower(s: string): (r: string)
    ensures |r| == |s|
    ensures forall i :: 0 <= i < |s| ==> r[i] == LowerChar(s[i])
  {
    seq(|s|, i requires 0 <= i < |s| => LowerChar(s[i]))
  }

  /** `s` occurs in `text` starting at position `i`. */
  ghost predicate OccursAt(text: string, s: string, i: int)
  {
    0 <= i && i + |s| <= |text| && text[i..i + |s|] == s
  }

  /** `text.includes(s)`, computed by scanning start positions left to right. */
  function Includes(text: string, s: string): (r: bool)
    decreases |text|
  {
    if |s| > |text| then false
    else if text[..|s|] == s then true
    else Includes(text[1..], s)
  }

  /** `Includes` holds exactly when some start position carries an occurrence. */
  lemma {:induction false} IncludesIffOccurs(text: string, s: string)
    ensures Includes(text, s) <==> exists i :: OccursAt(text, s, i)
    decreases |text|
  {
    if |s| > |text| {
      forall i | OccursAt(text, s, i) ensures false {}
    } else if text[..|s|] == s {
      assert OccursAt(text, s, 0);
    } else {
      IncludesIffOccurs(text[1..], s);
      if Includes(text[1..], s) {
        var i :| OccursAt(text[1..], s, i);
        assert text[1..][i..i + |s|] == text[i + 1..i + 1 + |s|];
        assert OccursAt(text, s, i + 1);
      } else {
        forall i | OccursAt(text, s, i) ensures false {
          if i > 0 {
            assert text[1..][i - 1..i - 1 + |s|] == text[i..i + |s|];
            assert OccursAt(text[1..], s, i - 1);
          }
        }
      }
    }
  }
}
