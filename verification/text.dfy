/** The string handling the pages rely on: ASCII case mapping (standing in for
    `toLowerCase`/`toUpperCase`), substring search (`includes`), the file-name
    sanitiser (`replace(/[^a-zA-Z0-9]/g, '_')`) and the eight-character document
    number. Strings are sequences of characters. */
module Text {

  predicate IsAsciiAlnum(c: char) {
    'a' <= c <= 'z' || 'A' <= c <= 'Z' || '0' <= c <= '9'
  }

  function LowerChar(c: char): char {
    if 'A' <= c <= 'Z' then (c as int + 32) as char else c
  }

  function UpperChar(c: char): char {
    if 'a' <= c <= 'z' then (c as int - 32) as char else c
  }

  function Lower(s: string): string {
    seq(|s|, i requires 0 <= i < |s| => LowerChar(s[i]))
  }

  function Upper(s: string): string {
    seq(|s|, i requires 0 <= i < |s| => UpperChar(s[i]))
  }

  predicate IsPrefixOf(p: string, s: string) {
    |p| <= |s| && s[..|p|] == p
  }

  /** `hay.includes(needle)`: `needle` occurs in `hay` at some position. */
  predicate Contains(hay: string, needle: string) {
    exists i :: 0 <= i <= |hay| && IsPrefixOf(needle, hay[i..])
  }

  /** Every string contains the empty string, so an empty search matches all. */
  lemma ContainsEmpty(hay: string)
    ensures Contains(hay, "")
  {
    assert IsPrefixOf("", hay[0..]);
  }

  /** `name.replace(/[^a-zA-Z0-9]/g, '_')`: each character outside [A-Za-z0-9]
      becomes an underscore, in place. */
  function Sanitise(name: string): (r: string)
    ensures |r| == |name|
    ensures forall i :: 0 <= i < |r| ==> IsAsciiAlnum(r[i]) || r[i] == '_'
    ensures forall i :: 0 <= i < |name| && IsAsciiAlnum(name[i]) ==> r[i] == name[i]
    ensures forall i :: 0 <= i < |name| && !IsAsciiAlnum(name[i]) ==> r[i] == '_'
  {
    if name == [] then []
    else [if IsAsciiAlnum(name[0]) then name[0] else '_'] + Sanitise(name[1..])
  }

  /** Sanitising an already safe name changes nothing. */
  lemma SanitiseIdempotent(name: string)
    ensures Sanitise(Sanitise(name)) == Sanitise(name)
  {
    var r := Sanitise(name);
    var rr := Sanitise(r);
    forall i | 0 <= i < |r| ensures rr[i] == r[i] {
      if !IsAsciiAlnum(r[i]) {
        assert r[i] == '_';
      }
    }
  }

  /** `id.substring(0, 8).toUpperCase()`: the number printed on quotes and receipts. */
  function DocumentNumber(id: string): (r: string)
    ensures |r| <= 8
    ensures |r| == if |id| < 8 then |id| else 8
    ensures forall i :: 0 <= i < |r| ==> r[i] == UpperChar(id[i])
    ensures forall i :: 0 <= i < |r| ==> !('a' <= r[i] <= 'z')
  {
    Upper(id[..if |id| < 8 then |id| else 8])
  }
}
