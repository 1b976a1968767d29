/** The identifier sanitizer: `sanitize($name)` turns arbitrary header text or a
    file name into something usable as a MySQL table or column name. */
module Sanitizer {

  /** The characters the second `str_replace` of `sanitize` deletes, in the
      order it lists them. */
  const Reserved: seq<char> := ['\'', '/', '\\', '.', '"', '?', '$', '-', '*', '`', '+', ',']

  /** A name `sanitize` has nothing left to do with: no space and no reserved
      character. */
  predicate IsClean(s: string)
  {
    forall i :: 0 <= i < |s| ==> s[i] != ' ' && s[i] !in Reserved
  }

  /** `str_replace(from, to, s)` for a single character. */
  function ReplaceChar(from: char, to: char, s: string): string
  {
    if s == [] then [] else [if s[0] == from then to else s[0]] + ReplaceChar(from, to, s[1..])
  }

  /** `str_replace(c, '', s)` for a single character. */
  function RemoveChar(c: char, s: string): string
  {
    if s == [] then [] else (if s[0] == c then [] else [s[0]]) + RemoveChar(c, s[1..])
  }

  /** `str_replace($search, '', s)` with an array of single characters: one
      pass per entry of `search`, in order, each over the result of the last. */
  function RemoveChars(search: seq<char>, s: string): string
  {
    if search == [] then s else RemoveChars(search[1..], RemoveChar(search[0], s))
  }

  /** `sanitize($name)`: every space becomes `_`, then every reserved
      character is deleted. */
  function Sanitize(name: string): string
  {
    RemoveChars(Reserved, ReplaceChar(' ', '_', name))
  }

  // An independent, one-pass reference definition: each character on its own.

  /** What becomes of one character of the input. */
  function CleanChar(c: char): string
  {
    if c == ' ' then "_" else if c in Reserved then "" else [c]
  }

  /** The input read once, left to right, each character replaced by
      `CleanChar` of it. */
  function SanitizeEach(s: string): string
  {
    if s == [] then "" else CleanChar(s[0]) + SanitizeEach(s[1..])
  }

  /** The characters of `s` that are not in `cs`, in order. */
  function Keep(cs: seq<char>, s: string): string
  {
    if s == [] then [] else (if s[0] in cs then [] else [s[0]]) + Keep(cs, s[1..])
  }

  lemma {:induction false} KeepNothingRemoved(s: string)
    ensures Keep([], s) == s
  {
    if s != [] {
      KeepNothingRemoved(s[1..]);
      assert [s[0]] + s[1..] == s;
    }
  }

  lemma {:induction false} RemoveCharAfterKeep(c: char, cs: seq<char>, s: string)
    ensures RemoveChar(c, Keep(cs, s)) == Keep(cs + [c], s)
  {
    if s != [] {
      RemoveCharAfterKeep(c, cs, s[1..]);
      var head := if s[0] in cs then [] else [s[0]];
      RemoveCharAppend(c, head, Keep(cs, s[1..]));
    }
  }

  lemma {:induction false} RemoveCharAppend(c: char, a: string, b: string)
    ensures RemoveChar(c, a + b) == RemoveChar(c, a) + RemoveChar(c, b)
  {
    if a != [] {
      assert (a + b)[1..] == a[1..] + b;
      RemoveCharAppend(c, a[1..], b);
    } else {
      assert a + b == b;
    }
  }

  lemma {:induction false} RemoveCharsAfterKeep(search: seq<char>, done: seq<char>, s: string)
    ensures RemoveChars(search, Keep(done, s)) == Keep(done + search, s)
  {
    if search == [] {
      assert done + search == done;
    } else {
      RemoveCharAfterKeep(search[0], done, s);
      RemoveCharsAfterKeep(search[1..], done + [search[0]], s);
      assert done + [search[0]] + search[1..] == done + search;
    }
  }

  lemma {:induction false} KeepReservedAfterSpaces(s: string)
    ensures Keep(Reserved, ReplaceChar(' ', '_', s)) == SanitizeEach(s)
  {
    if s != [] {
      KeepReservedAfterSpaces(s[1..]);
      assert '_' !in Reserved;
    }
  }

  /** The two `str_replace` passes of `sanitize` do what the one-pass
      reference does: every space turned into `_`, every reserved character
      deleted, every other character kept, in order. */
  lemma SanitizeByCharacter(s: string)
    ensures Sanitize(s) == SanitizeEach(s)
  {
    var spaced := ReplaceChar(' ', '_', s);
    KeepNothingRemoved(spaced);
    RemoveCharsAfterKeep(Reserved, [], spaced);
    assert [] + Reserved == Reserved;
    KeepReservedAfterSpaces(s);
  }

  lemma {:induction false} SanitizeEachIsClean(s: string)
    ensures IsClean(SanitizeEach(s))
    ensures |SanitizeEach(s)| <= |s|
  {
    if s != [] {
      SanitizeEachIsClean(s[1..]);
      assert '_' !in Reserved;
    }
  }

  lemma {:induction false} SanitizeEachOfClean(s: string)
    requires IsClean(s)
    ensures SanitizeEach(s) == s
  {
    if s != [] {
      assert IsClean(s[1..]) by {
        forall i | 0 <= i < |s[1..]| ensures s[1..][i] != ' ' && s[1..][i] !in Reserved {
          assert s[1..][i] == s[i + 1];
        }
      }
      SanitizeEachOfClean(s[1..]);
      assert s[0] != ' ' && s[0] !in Reserved;
      assert [s[0]] + s[1..] == s;
    }
  }

  lemma {:induction false} SanitizeEachAppend(a: string, b: string)
    ensures SanitizeEach(a + b) == SanitizeEach(a) + SanitizeEach(b)
  {
    if a == [] {
      assert a + b == b;
    } else {
      assert (a + b)[1..] == a[1..] + b;
      SanitizeEachAppend(a[1..], b);
    }
  }

  /** A sanitized name holds no space and no reserved character, and is never
      longer than the input. */
  lemma SanitizeIsClean(s: string)
    ensures IsClean(Sanitize(s))
    ensures |Sanitize(s)| <= |s|
  {
    SanitizeByCharacter(s);
    SanitizeEachIsClean(s);
  }

  /** `sanitize` leaves a name alone exactly when it is already clean. */
  lemma SanitizeFixedPoints(s: string)
    ensures Sanitize(s) == s <==> IsClean(s)
  {
    SanitizeByCharacter(s);
    SanitizeEachIsClean(s);
    if IsClean(s) {
      SanitizeEachOfClean(s);
    }
  }

  /** Sanitizing twice is sanitizing once. */
  lemma SanitizeIdempotent(s: string)
    ensures Sanitize(Sanitize(s)) == Sanitize(s)
  {
    SanitizeIsClean(s);
    SanitizeFixedPoints(Sanitize(s));
  }

  /** `sanitize` works character by character, so it distributes over
      concatenation. */
  lemma SanitizeAppend(a: string, b: string)
    ensures Sanitize(a + b) == Sanitize(a) + Sanitize(b)
  {
    SanitizeByCharacter(a + b);
    SanitizeByCharacter(a);
    SanitizeByCharacter(b);
    SanitizeEachAppend(a, b);
  }
}
