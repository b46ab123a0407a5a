/** The two string operations the token gate relies on: `startsWith` and
    `split` with a non-empty separator string. */
module Text {

  /** `s.startsWith(prefix)`: `s` is `prefix` followed by the rest of `s`. */
  predicate StartsWith(s: string, prefix: string)
    ensures StartsWith(s, prefix) ==> |prefix| <= |s| && s == prefix + s[|prefix|..]
  {
    |prefix| <= |s| && s[..|prefix|] == prefix
  }

  /** `sep` occurs in `s` starting at index `i`. */
  predicate OccursAt(s: string, sep: string, i: int) {
    0 <= i && i + |sep| <= |s| && s[i..i + |sep|] == sep
  }

  ghost predicate Occurs(s: string, sep: string) {
    exists i :: OccursAt(s, sep, i)
  }

  /** `s.split(sep)` for a non-empty separator: cut `s` at every leftmost,
      non-overlapping occurrence of `sep`. */
  function Split(s: string, sep: string): (parts: seq<string>)
    requires sep != []
    ensures |parts| >= 1
    decreases |s|
  {
    if |s| < |sep| then [s]
    else if s[..|sep|] == sep then [[]] + Split(s[|sep|..], sep)
    else
      var rest := Split(s[1..], sep);
      [[s[0]] + rest[0]] + rest[1..]
  }

  /** `parts.join(sep)`. */
  function Join(parts: seq<string>, sep: string): string
    requires |parts| >= 1
    decreases |parts|
  {
    if |parts| == 1 then parts[0] else parts[0] + sep + Join(parts[1..], sep)
  }

  /** Joining a part in front of at least one more puts a separator between. */
  lemma JoinCons(x: string, parts: seq<string>, sep: string)
    requires |parts| >= 1
    ensures Join([x] + parts, sep) == x + sep + Join(parts, sep)
  {
    assert ([x] + parts)[1..] == parts;
  }

  /** Extending the first part by one character extends the join by it. */
  lemma JoinExtendFirst(c: char, parts: seq<string>, sep: string)
    requires |parts| >= 1
    ensures Join([[c] + parts[0]] + parts[1..], sep) == [c] + Join(parts, sep)
  {
    if |parts| > 1 {
      JoinCons([c] + parts[0], parts[1..], sep);
    }
  }

  /** Joining the parts of a split with the same separator gives back the
      string: splitting loses nothing. */
  lemma {:induction false} SplitJoin(s: string, sep: string)
    requires sep != []
    ensures Join(Split(s, sep), sep) == s
    decreases |s|
  {
    if |s| < |sep| {
    } else if s[..|sep|] == sep {
      var tail := Split(s[|sep|..], sep);
      assert Split(s, sep) == [[]] + tail;
      SplitJoin(s[|sep|..], sep);
      JoinCons([], tail, sep);
      assert s == sep + s[|sep|..];
    } else {
      var rest := Split(s[1..], sep);
      assert Split(s, sep) == [[s[0]] + rest[0]] + rest[1..];
      SplitJoin(s[1..], sep);
      JoinExtendFirst(s[0], rest, sep);
      assert s == [s[0]] + s[1..];
    }
  }

  /** An occurrence one place further into `s` is an occurrence in `s[1..]`. */
  lemma OccursShift(s: string, sep: string, i: int)
    requires |s| >= 1 && 0 <= i
    ensures OccursAt(s, sep, i + 1) <==> OccursAt(s[1..], sep, i)
  {
  }

  /** The first part of a split is `s` cut at the leftmost occurrence of the
      separator, or all of `s` when there is none: it is a prefix of `s`, no
      occurrence starts inside it, and when it is shorter than `s` an
      occurrence starts right after it. */
  lemma {:induction false} SplitFirstCut(s: string, sep: string)
    requires sep != []
    ensures StartsWith(s, Split(s, sep)[0])
    ensures forall j :: 0 <= j < |Split(s, sep)[0]| ==> !OccursAt(s, sep, j)
    ensures Split(s, sep)[0] != s ==> OccursAt(s, sep, |Split(s, sep)[0]|)
    decreases |s|
  {
    var first := Split(s, sep)[0];
    if |s| < |sep| {
      assert first == s;
    } else if s[..|sep|] == sep {
      assert Split(s, sep) == [[]] + Split(s[|sep|..], sep);
      assert OccursAt(s, sep, 0);
    } else {
      var rest := Split(s[1..], sep);
      assert Split(s, sep) == [[s[0]] + rest[0]] + rest[1..];
      SplitFirstCut(s[1..], sep);
      assert first == s[..|first|];
      forall j | 0 < j < |first|
        ensures !OccursAt(s, sep, j)
      {
        OccursShift(s, sep, j - 1);
      }
      if first != s {
        assert rest[0] != s[1..];
        OccursShift(s, sep, |rest[0]|);
      }
    }
  }

  /** Consequently the first part holds no separator, and it is the whole
      string exactly when the string holds none. */
  lemma SplitFirstPart(s: string, sep: string)
    requires sep != []
    ensures !Occurs(Split(s, sep)[0], sep)
    ensures Split(s, sep)[0] == s <==> !Occurs(s, sep)
  {
    var first := Split(s, sep)[0];
    SplitFirstCut(s, sep);
    forall i: int
      ensures !OccursAt(first, sep, i)
    {
      if 0 <= i && i + |sep| <= |first| {
        assert first[i..i + |sep|] == s[i..i + |sep|];
        assert !OccursAt(s, sep, i);
      }
    }
  }
}
