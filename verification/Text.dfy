/** The string operations the transport relies on: `replace(c, "")`, `split(c)` and `join`. */
module Text {

  predicate Free(s: string, c: char) {
    c !in s
  }

  /** `s.replace(c, "")` */
  function Strip(s: string, c: char): string {
    if s == [] then []
    else (if s[0] == c then [] else [s[0]]) + Strip(s[1..], c)
  }

  /** `s.split(c)`; like the iterator it models, it always yields at least one segment. */
  function Split(s: string, c: char): (segments: seq<string>)
    ensures |segments| >= 1
  {
    if s == [] then [[]]
    else
      var rest := Split(s[1..], c);
      if s[0] == c then [[]] + rest else [[s[0]] + rest[0]] + rest[1..]
  }

  /** `parts.join(sep)` */
  function Join(parts: seq<string>, sep: string): string {
    if |parts| == 0 then []
    else if |parts| == 1 then parts[0]
    else parts[0] + sep + Join(parts[1..], sep)
  }

  lemma {:induction false} StripIsIdentityOnFree(s: string, c: char)
    requires Free(s, c)
    ensures Strip(s, c) == s
  {
    if s != [] {
      assert s[0] != c;
      StripIsIdentityOnFree(s[1..], c);
    }
  }

  lemma {:induction false} StripOfConcat(s: string, t: string, c: char)
    ensures Strip(s + t, c) == Strip(s, c) + Strip(t, c)
  {
    if s == [] {
      assert s + t == t;
    } else {
      assert (s + t)[1..] == s[1..] + t;
      StripOfConcat(s[1..], t, c);
    }
  }

  lemma {:induction false} SplitOfFree(s: string, c: char)
    requires Free(s, c)
    ensures Split(s, c) == [s]
  {
    if s != [] {
      assert s[0] != c;
      SplitOfFree(s[1..], c);
      assert [s[0]] + s[1..] == s;
    }
  }

  lemma {:induction false} SplitAtSeparator(s: string, t: string, c: char)
    ensures Split(s + [c] + t, c) == Split(s, c) + Split(t, c)
  {
    if s == [] {
      assert (s + [c] + t)[1..] == t;
    } else {
      assert (s + [c] + t)[1..] == s[1..] + [c] + t;
      SplitAtSeparator(s[1..], t, c);
    }
  }

  /** Splitting undoes joining, for any separator-free segments. */
  lemma {:induction false} SplitUndoesJoin(parts: seq<string>, c: char)
    requires |parts| >= 1
    requires forall p :: p in parts ==> Free(p, c)
    ensures Split(Join(parts, [c]), c) == parts
  {
    SplitOfFree(parts[0], c);
    if |parts| > 1 {
      SplitUndoesJoin(parts[1..], c);
      SplitAtSeparator(parts[0], Join(parts[1..], [c]), c);
    }
  }

  /** Joining undoes splitting, and every segment is separator-free. */
  lemma {:induction false} JoinUndoesSplit(s: string, c: char)
    ensures Join(Split(s, c), [c]) == s
    ensures forall p :: p in Split(s, c) ==> Free(p, c)
  {
    if s != [] {
      JoinUndoesSplit(s[1..], c);
      var rest := Split(s[1..], c);
      if s[0] == c {
        assert Split(s, c)[1..] == rest;
      } else if |rest| > 1 {
        assert Split(s, c)[1..] == rest[1..];
        assert rest[0] in rest;
      } else {
        assert rest[0] in rest;
      }
    }
  }
}
