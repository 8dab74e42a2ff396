/** The string built-ins the backends call (`str.lower`, `str.title`,
    substring `in`, `str.split`), over ASCII text. */
module Ascii {

  predicate IsUpper(c: char) { 'A' <= c <= 'Z' }
  predicate IsLower(c: char) { 'a' <= c <= 'z' }
  /** The characters Python calls cased, restricted to ASCII. */
  predicate IsLetter(c: char) { IsUpper(c) || IsLower(c) }

  function LowerChar(c: char): (r: char)
    ensures !IsUpper(r) && IsLetter(r) == IsLetter(c)
    ensures !IsLetter(c) ==> r == c
  {
    if IsUpper(c) then (c as int + 32) as char else c
  }

  function UpperChar(c: char): (r: char)
    ensures !IsLower(r) && IsLetter(r) == IsLetter(c)
    ensures !IsLetter(c) ==> r == c
  {
    if IsLower(c) then (c as int - 32) as char else c
  }

  /** `s.lower()` */
  function Lower(s: string): (r: string)
    ensures |r| == |s|
    ensures forall i :: 0 <= i < |s| ==> r[i] == LowerChar(s[i])
  {
    seq(|s|, i requires 0 <= i < |s| => LowerChar(s[i]))
  }

  /** Lower-casing twice is lower-casing once. */
  lemma LowerIdempotent(s: string)
    ensures Lower(Lower(s)) == Lower(s)
  {
  }

  /** `s.title()`: every letter that follows a letter is lower-cased, every
      other letter upper-cased; `prevCased` is whether the character before
      `s` was a letter. */
  function TitleFrom(s: string, prevCased: bool): (r: string)
    decreases |s|
  {
    if s == [] then []
    else
      [if prevCased then LowerChar(s[0]) else UpperChar(s[0])]
      + TitleFrom(s[1..], IsLetter(s[0]))
  }

  function Title(s: string): (r: string) {
    TitleFrom(s, false)
  }

  /** Whether the character before position `k` of `s` is a letter. */
  predicate CasedBefore(s: string, k: nat, prevCased: bool)
    requires k <= |s|
  {
    if k == 0 then prevCased else IsLetter(s[k - 1])
  }

  /** Pointwise description of title-casing. */
  lemma {:induction false} TitleFromAt(s: string, prevCased: bool, k: nat)
    requires k < |s|
    ensures |TitleFrom(s, prevCased)| == |s|
    ensures TitleFrom(s, prevCased)[k] ==
      if CasedBefore(s, k, prevCased) then LowerChar(s[k]) else UpperChar(s[k])
    decreases |s|
  {
    if k > 0 {
      TitleFromAt(s[1..], IsLetter(s[0]), k - 1);
    } else if |s| > 1 {
      TitleFromAt(s[1..], IsLetter(s[0]), 0);
    }
  }

  lemma {:induction false} TitleFromLength(s: string, prevCased: bool)
    ensures |TitleFrom(s, prevCased)| == |s|
    decreases |s|
  {
    if s != [] {
      TitleFromLength(s[1..], IsLetter(s[0]));
    }
  }

  /** Title-casing ignores the case of its input: `s.lower().title() == s.title()`. */
  lemma TitleIgnoresCase(s: string)
    ensures Title(Lower(s)) == Title(s)
  {
    var l := Lower(s);
    TitleFromLength(s, false);
    TitleFromLength(l, false);
    forall k | 0 <= k < |s| ensures Title(l)[k] == Title(s)[k] {
      TitleFromAt(s, false, k);
      TitleFromAt(l, false, k);
      var c := s[k];
      assert IsUpper(c) ==> LowerChar(c) as int == c as int + 32;
      assert IsLower(c) ==> UpperChar(c) as int == c as int - 32;
      if k > 0 {
        assert IsLetter(l[k - 1]) == IsLetter(s[k - 1]);
      }
    }
  }

  /** A title-cased string never has a lower-case letter at the start of a
      word, so it is never "All signs". */
  lemma TitleNeverAllSigns(s: string)
    ensures Title(s) != "All signs"
  {
    TitleFromLength(s, false);
    if |s| == 9 {
      TitleFromAt(s, false, 3);
      TitleFromAt(s, false, 4);
      if Title(s)[3] == ' ' {
        assert !IsLetter(s[3]);
        assert Title(s)[4] != 's';
      }
    }
  }

  /** Python's `needle in hay` on strings. */
  function Contains(hay: string, needle: string): (found: bool)
    decreases |hay|
  {
    if |needle| > |hay| then false
    else if hay[..|needle|] == needle then true
    else Contains(hay[1..], needle)
  }

  /** The slice of `hay` at `i` is `needle`. */
  predicate OccursAt(hay: string, needle: string, i: int) {
    0 <= i && i + |needle| <= |hay| && hay[i..i + |needle|] == needle
  }

  /** `Contains` finds exactly the needles that occur somewhere in the hay. */
  lemma {:induction false} ContainsIff(hay: string, needle: string)
    ensures Contains(hay, needle) <==> exists i :: OccursAt(hay, needle, i)
    decreases |hay|
  {
    if |needle| > |hay| {
    } else if hay[..|needle|] == needle {
      assert OccursAt(hay, needle, 0);
    } else {
      ContainsIff(hay[1..], needle);
      forall i | OccursAt(hay, needle, i) ensures OccursAt(hay[1..], needle, i - 1) {
        assert i != 0;
        assert hay[1..][i - 1..i - 1 + |needle|] == hay[i..i + |needle|];
      }
      if Contains(hay[1..], needle) {
        var i :| OccursAt(hay[1..], needle, i);
        assert hay[1..][i..i + |needle|] == hay[i + 1..i + 1 + |needle|];
        assert OccursAt(hay, needle, i + 1);
      }
    }
  }

  /** `s.split(sep)` with an explicit one-character separator: every
      separator ends a field, empty fields are kept. */
  function Split(s: string, sep: char): (r: seq<string>)
    ensures |r| >= 1
    decreases |s|
  {
    if s == [] then [""]
    else
      var rest := Split(s[1..], sep);
      if s[0] == sep then [""] + rest
      else [[s[0]] + rest[0]] + rest[1..]
  }

  /** `sep.join(parts)` */
  function Join(parts: seq<string>, sep: char): (s: string)
    requires |parts| >= 1
    decreases |parts|
  {
    if |parts| == 1 then parts[0] else parts[0] + [sep] + Join(parts[1..], sep)
  }

  /** Splitting loses nothing: joining the fields back gives the input,
      and no field holds the separator. */
  lemma {:induction false} SplitJoin(s: string, sep: char)
    ensures Join(Split(s, sep), sep) == s
    ensures forall k :: 0 <= k < |Split(s, sep)| ==> sep !in Split(s, sep)[k]
    decreases |s|
  {
    if s != [] {
      SplitJoin(s[1..], sep);
      var rest := Split(s[1..], sep);
      if s[0] == sep {
        assert Split(s, sep)[1..] == rest;
        assert s == [sep] + s[1..];
      } else {
        var r := Split(s, sep);
        assert r[0] == [s[0]] + rest[0];
        assert r[1..] == rest[1..];
        if |rest| == 1 {
          assert Join(r, sep) == r[0];
        } else {
          assert Join(rest, sep) == rest[0] + [sep] + Join(rest[1..], sep);
          assert Join(r, sep) == r[0] + [sep] + Join(r[1..], sep);
        }
        assert s == [s[0]] + s[1..];
        forall k | 0 <= k < |r| ensures sep !in r[k] {
          if k > 0 { assert r[k] == rest[k]; }
        }
      }
    }
  }

  /** A separator-free prefix followed by the separator is a field of its own. */
  lemma {:induction false} SplitAfterField(a: string, b: string, sep: char)
    requires sep !in a
    ensures Split(a + [sep] + b, sep) == [a] + Split(b, sep)
    decreases |a|
  {
    if a == [] {
      assert [] + [sep] + b == [sep] + b;
      assert ([sep] + b)[1..] == b;
    } else {
      var s := a + [sep] + b;
      assert s[0] == a[0];
      assert s[1..] == a[1..] + [sep] + b;
      SplitAfterField(a[1..], b, sep);
      assert [a[0]] + a[1..] == a;
    }
  }

  /** The first field is the text up to (not including) the first separator. */
  lemma {:induction false} FirstField(s: string, sep: char)
    ensures Split(s, sep)[0] <= s
    ensures sep !in Split(s, sep)[0]
    ensures |Split(s, sep)[0]| == |s| || s[|Split(s, sep)[0]|] == sep
    decreases |s|
  {
    if s != [] && s[0] != sep {
      FirstField(s[1..], sep);
      assert s == [s[0]] + s[1..];
    }
  }
}
