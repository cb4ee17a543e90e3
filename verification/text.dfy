/** The string operations the portals' search boxes use: `toLowerCase` and `includes`. */
module Text {

  /** ASCII lower-casing of one character; every other character is left as it is. */
  function LowerChar(c: char): char
  {
    if 'A' <= c <= 'Z' then (c as int - 'A' as int + 'a' as int) as char else c
  }

  /** `String.prototype.toLowerCase`, restricted to ASCII letters. */
  function Lower(s: string): (r: string)
    ensures |r| == |s|
  {
    seq(|s|, i requires 0 <= i < |s| => LowerChar(s[i]))
  }

  /** Lower-casing works character by character, so it distributes over concatenation. */
  lemma LowerAppend(a: string, b: string)
    ensures Lower(a + b) == Lower(a) + Lower(b)
  {
    assert forall i :: 0 <= i < |a + b| ==> Lower(a + b)[i] == (Lower(a) + Lower(b))[i];
  }

  /** Lower-casing twice is lower-casing once. */
  lemma LowerIdempotent(s: string)
    ensures Lower(Lower(s)) == Lower(s)
  {
  }

  /** `hay.includes(needle)`: `needle` occurs as a contiguous block somewhere in `hay`. */
  predicate Includes(hay: string, needle: string)
    decreases |hay|
  {
    needle <= hay || (hay != [] && Includes(hay[1..], needle))
  }

  /** Reference reading of `includes`: some window of `hay` equals `needle`. */
  ghost predicate OccursAt(hay: string, needle: string, i: int)
  {
    0 <= i && i + |needle| <= |hay| && hay[i..i + |needle|] == needle
  }

  /** The recursive `Includes` agrees with the window definition, in both directions. */
  lemma {:induction false} IncludesIffWindow(hay: string, needle: string)
    ensures Includes(hay, needle) <==> exists i :: OccursAt(hay, needle, i)
    decreases |hay|
  {
    if needle <= hay {
      assert OccursAt(hay, needle, 0);
    } else if hay != [] {
      IncludesIffWindow(hay[1..], needle);
      if exists i :: OccursAt(hay[1..], needle, i) {
        var i :| OccursAt(hay[1..], needle, i);
        assert hay[1..][i..i + |needle|] == hay[i + 1..i + 1 + |needle|];
        assert OccursAt(hay, needle, i + 1);
      }
      if exists i :: OccursAt(hay, needle, i) {
        var i :| OccursAt(hay, needle, i);
        assert i != 0;
        assert hay[1..][i - 1..i - 1 + |needle|] == hay[i..i + |needle|];
        assert OccursAt(hay[1..], needle, i - 1);
      }
    }
  }

  /** The search test of the portals: case-insensitive `includes`. */
  predicate Matches(field: string, search: string)
  {
    Includes(Lower(field), Lower(search))
  }

  /** The portals' search box: the term matches at least one of the fields the portal searches. */
  predicate SearchHits(fields: seq<string>, search: string)
  {
    exists i :: 0 <= i < |fields| && Matches(fields[i], search)
  }

  /** An empty search term matches every field. */
  lemma EmptySearchMatches(field: string)
    ensures Matches(field, "")
  {
    assert Lower("") == "";
  }

  /** An empty search term admits every record that has a field to search. */
  lemma EmptySearchHits(fields: seq<string>)
    requires fields != []
    ensures SearchHits(fields, "")
  {
    EmptySearchMatches(fields[0]);
  }
}
