/** An optional value: `None` stands for JavaScript's `null`. */
module Wrappers {

  datatype Option<+T> = None | Some(value: T)
}

/** The little string vocabulary the two request handlers rely on:
    JavaScript truthiness of an optional string, `endsWith`, and substring
    containment. */
module Text {
  import opened Wrappers

  /** `!s` is false exactly for a non-null, non-empty string: both `null`
      and `""` are falsy in JavaScript. */
  predicate Present(s: Option<string>) {
    s.Some? && s.value != ""
  }

  /** JavaScript `s.endsWith("/")`. */
  predicate EndsWithSlash(s: string) {
    |s| > 0 && s[|s| - 1] == '/'
  }

  /** `sub` occurs in `s` starting at index `i`. */
  predicate OccursAt(s: string, sub: string, i: int) {
    0 <= i && i + |sub| <= |s| && s[i..i + |sub|] == sub
  }

  ghost predicate Contains(s: string, sub: string) {
    exists i :: OccursAt(s, sub, i)
  }

  /** Whatever is spliced between two pieces of a template is contained in
      the rendered text. */
  lemma ContainsSpliced(before: string, sub: string, after: string)
    ensures Contains(before + sub + after, sub)
  {
    var s := before + sub + after;
    assert s[|before|..|before| + |sub|] == sub;
    assert OccursAt(s, sub, |before|);
  }

  /** A template with three holes contains each value filled into them. */
  lemma ContainsEachHole(a: string, x: string, b: string, y: string, c: string, z: string, d: string)
    ensures Contains(a + x + b + y + c + z + d, x)
    ensures Contains(a + x + b + y + c + z + d, y)
    ensures Contains(a + x + b + y + c + z + d, z)
  {
    var s := a + x + b + y + c + z + d;
    assert s == a + x + (b + y + c + z + d);
    ContainsSpliced(a, x, b + y + c + z + d);
    assert s == (a + x + b) + y + (c + z + d);
    ContainsSpliced(a + x + b, y, c + z + d);
    ContainsSpliced(a + x + b + y + c, z, d);
  }
}
