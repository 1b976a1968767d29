/** The few PHP string primitives the importer relies on, on `seq<char>`. */
module PhpStrings {

  /** PHP truthiness of a string: `""` and `"0"` are the falsy ones. This is
      what both `if ($s)` and `! empty($s)` test. */
  predicate Truthy(s: string) {
    s != "" && s != "0"
  }

  /** `implode(sep, parts)`. */
  function Join(sep: string, parts: seq<string>): string
  {
    if |parts| == 0 then ""
    else if |parts| == 1 then parts[0]
    else parts[0] + sep + Join(sep, parts[1..])
  }

  lemma ConcatAssociative(a: string, b: string, c: string, d: string)
    ensures a + b + c + d == a + (b + c + d)
  {
  }

  lemma {:induction false} JoinSnoc(sep: string, parts: seq<string>, last: string)
    requires parts != []
    ensures Join(sep, parts + [last]) == Join(sep, parts) + sep + last
  {
    if |parts| == 1 {
      assert (parts + [last])[1..] == [last];
    } else {
      assert (parts + [last])[1..] == parts[1..] + [last];
      JoinSnoc(sep, parts[1..], last);
    }
  }

  function DigitChar(d: nat): (c: char)
    requires d < 10
    ensures '0' <= c <= '9'
  {
    ('0' as int + d) as char
  }

  /** Decimal rendering of a non-negative integer, as PHP interpolates it. */
  function NatToString(n: nat): (r: string)
    ensures r != []
    ensures forall i :: 0 <= i < |r| ==> '0' <= r[i] <= '9'
  {
    if n < 10 then [DigitChar(n)] else NatToString(n / 10) + [DigitChar(n % 10)]
  }

  /** The number a string of decimal digits stands for, read left to right. */
  function DigitsValue(r: string): int
  {
    if r == [] then 0 else 10 * DigitsValue(r[..|r| - 1]) + (r[|r| - 1] as int - '0' as int)
  }

  /** The digits of `n` stand for `n`: the rendering loses nothing. */
  lemma {:induction false} NatToStringValue(n: nat)
    ensures DigitsValue(NatToString(n)) == n
    decreases n
  {
    var r := NatToString(n);
    if n >= 10 {
      NatToStringValue(n / 10);
      assert r[..|r| - 1] == NatToString(n / 10);
    }
  }

  /** Different numbers render differently. */
  lemma NatToStringInjective(m: nat, n: nat)
    ensures NatToString(m) == NatToString(n) ==> m == n
  {
    NatToStringValue(m);
    NatToStringValue(n);
  }

  /** Decimal rendering of an integer, with a leading `-` when negative. */
  function IntToString(i: int): string
  {
    if i < 0 then "-" + NatToString(-i) else NatToString(i)
  }

  /** `pat` occurs in `s` starting at index `i`. */
  predicate OccursAt(pat: string, s: string, i: int)
  {
    0 <= i && i + |pat| <= |s| && s[i..i + |pat|] == pat
  }

  /** `str_replace(pat, '', s)`: a single left-to-right scan that deletes every
      non-overlapping occurrence of `pat`. Text left behind by a deletion is not
      scanned again, and an empty `pat` leaves `s` as it is. */
  function RemoveAll(pat: string, s: string): (r: string)
    ensures |r| <= |s|
    decreases |s|
  {
    if pat == [] || |s| < |pat| then s
    else if s[..|pat|] == pat then RemoveAll(pat, s[|pat|..])
    else [s[0]] + RemoveAll(pat, s[1..])
  }

  /** Where `pat` does not occur, `str_replace` changes nothing. */
  lemma {:induction false} RemoveAllNoOccurrence(pat: string, s: string)
    requires forall i :: !OccursAt(pat, s, i)
    ensures RemoveAll(pat, s) == s
    decreases |s|
  {
    if pat != [] && |s| >= |pat| {
      assert OccursAt(pat, s, 0) == (s[..|pat|] == pat);
      forall i ensures !OccursAt(pat, s[1..], i) {
        if OccursAt(pat, s[1..], i) {
          assert s[1..][i..i + |pat|] == s[i + 1..i + 1 + |pat|];
          assert OccursAt(pat, s, i + 1);
        }
      }
      RemoveAllNoOccurrence(pat, s[1..]);
      assert [s[0]] + s[1..] == s;
    }
  }

  /** The scan of `a + b` splits at the seam when no occurrence of `pat` starts
      in the last `|pat| - 1` characters of `a`. */
  lemma {:induction false} RemoveAllAppend(pat: string, a: string, b: string)
    requires pat != []
    requires forall i :: |a| - |pat| < i < |a| ==> !OccursAt(pat, a + b, i)
    ensures RemoveAll(pat, a + b) == RemoveAll(pat, a) + RemoveAll(pat, b)
    decreases |a|
  {
    if a == [] {
      assert a + b == b;
    } else if |a + b| < |pat| {
      assert |a| < |pat| && |b| < |pat|;
    } else if (a + b)[..|pat|] == pat {
      assert OccursAt(pat, a + b, 0);
      assert |a| >= |pat|;
      assert a[..|pat|] == pat;
      var a' := a[|pat|..];
      assert (a + b)[|pat|..] == a' + b;
      NoSeamOccurrenceAfterDrop(pat, a, b, |pat|);
      RemoveAllAppend(pat, a', b);
    } else {
      var a' := a[1..];
      assert (a + b)[1..] == a' + b;
      assert (a + b)[0] == a[0];
      NoSeamOccurrenceAfterDrop(pat, a, b, 1);
      RemoveAllAppend(pat, a', b);
      if |a| < |pat| {
        assert RemoveAll(pat, a') == a';
        assert [a[0]] + a' == a;
      } else {
        assert forall k :: 0 <= k < |pat| ==> a[..|pat|][k] == (a + b)[..|pat|][k];
        assert a[..|pat|] == (a + b)[..|pat|];
      }
    }
  }

  lemma NoSeamOccurrenceAfterDrop(pat: string, a: string, b: string, d: nat)
    requires d <= |a|
    requires forall i :: |a| - |pat| < i < |a| ==> !OccursAt(pat, a + b, i)
    ensures forall i :: |a| - d - |pat| < i < |a| - d ==> !OccursAt(pat, a[d..] + b, i)
  {
    forall i | |a| - d - |pat| < i < |a| - d ensures !OccursAt(pat, a[d..] + b, i) {
      if OccursAt(pat, a[d..] + b, i) {
        assert (a[d..] + b)[i..i + |pat|] == (a + b)[i + d..i + d + |pat|];
        assert OccursAt(pat, a + b, i + d);
      }
    }
  }

  /** Removing every `.csv` from `stem + ".csv"` is removing every `.csv`
      from `stem`: the final extension is deleted whatever `stem` ends with. */
  lemma CsvExtensionRemoved(stem: string)
    ensures RemoveAll(".csv", stem + ".csv") == RemoveAll(".csv", stem)
  {
    var s := stem + ".csv";
    forall i | |stem| - 4 < i < |stem| ensures !OccursAt(".csv", s, i) {
      assert s[|stem|] == '.';
      if i >= 0 && i + 4 <= |s| {
        assert s[i..i + 4][|stem| - i] == '.';
      }
    }
    RemoveAllAppend(".csv", stem, ".csv");
    assert ".csv"[..4] == ".csv";
    assert ".csv"[4..] == "";
  }

  /** The path without its trailing `/` characters. */
  function StripTrailingSlashes(path: string): string
  {
    if path != [] && path[|path| - 1] == '/' then StripTrailingSlashes(path[..|path| - 1]) else path
  }

  /** The characters after the last `/`. */
  function LastComponent(path: string): (r: string)
    ensures '/' !in r
  {
    if path == [] || path[|path| - 1] == '/' then []
    else LastComponent(path[..|path| - 1]) + [path[|path| - 1]]
  }

  /** PHP `basename($path)` with `/` as the only separator: the last component
      once trailing slashes are ignored. */
  function Basename(path: string): (r: string)
    ensures '/' !in r
  {
    LastComponent(StripTrailingSlashes(path))
  }

  /** The base name of `dir + name` is `name` when `dir` is empty or ends in a
      separator and `name` is a non-empty file name. */
  lemma {:induction false} BasenameOfFile(dir: string, name: string)
    requires dir == [] || dir[|dir| - 1] == '/'
    requires name != [] && '/' !in name
    ensures Basename(dir + name) == name
  {
    assert (dir + name)[|dir + name| - 1] == name[|name| - 1];
    LastComponentOfFile(dir, name);
  }

  lemma {:induction false} LastComponentOfFile(dir: string, name: string)
    requires dir == [] || dir[|dir| - 1] == '/'
    requires '/' !in name
    ensures LastComponent(dir + name) == name
    decreases |name|
  {
    if name == [] {
      assert dir + name == dir;
    } else {
      var n := |name| - 1;
      assert (dir + name)[..|dir + name| - 1] == dir + name[..n];
      assert (dir + name)[|dir + name| - 1] == name[n];
      assert name[n] in name;
      LastComponentOfFile(dir, name[..n]);
      assert name[..n] + [name[n]] == name;
    }
  }
}
